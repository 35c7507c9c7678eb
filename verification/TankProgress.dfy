/**
 What the calls of the TANK back end come to when nothing interferes: a thread that
 takes its steps alone, in whatever state it finds the system, against a device that
 acknowledges every request and reports what it was told.
 */
module TankProgress {
  import opened Prelude
  import opened TankState
  import opened TankProtocol

  /** The device answers by the step that asks. */
  type Device = Pc -> Choice

  /**
   Every request is acknowledged and the robot reads Idle; the brake reads as it was
   last written, and before that as it likes.
   */
  ghost predicate Obliging(d: Device) {
    forall pc :: Obliges(pc, d(pc))
  }

  predicate Obliges(pc: Pc, c: Choice) {
    && c.ok && c.due && c.operation == IDLE
    && (pc.Prepare? && pc.stage == ReadBack ==> !c.brake)
    && (pc.StopReadBack? ==> c.brake)
  }

  function Next(o: Options, s: State, t: Tid, d: Device): (r: State)
    requires t in s.pcs
    ensures t in r.pcs
  {
    Step(o, s, Act(t, d(s.pcs[t])))
  }

  /** The next n steps of thread t, and of no other. */
  function Alone(o: Options, s: State, t: Tid, d: Device, n: nat): (r: State)
    requires t in s.pcs
    ensures t in r.pcs
    decreases n
  {
    if n == 0 then s else Alone(o, Next(o, s, t, d), t, d, n - 1)
  }

  ghost predicate At(s: State, t: Tid, g: Globals, pc: Pc) { t in s.pcs && s.pcs[t] == pc && s.g == g }

  /** Thread t comes to that point, if it goes on alone. */
  ghost predicate Comes(o: Options, s: State, t: Tid, d: Device, g: Globals, pc: Pc)
    requires t in s.pcs
  {
    exists n: nat :: At(Alone(o, s, t, d, n), t, g, pc)
  }

  lemma Arrived(o: Options, s: State, t: Tid, d: Device)
    requires t in s.pcs
    ensures Comes(o, s, t, d, s.g, s.pcs[t])
  {
    assert At(Alone(o, s, t, d, 0), t, s.g, s.pcs[t]);
  }

  /** One more step. */
  lemma GoesOn(o: Options, s: State, t: Tid, d: Device, g: Globals, pc: Pc)
    requires t in s.pcs && Comes(o, s, t, d, g, pc)
    requires !Halted(pc) && !pc.JoinControl? && !pc.JoinTelemetry?
    requires pc.WantAction? ==> g.action == None
    requires pc.WantIo? || pc.TickWantIo? ==> g.io == None
    requires t.Caller? || t == Lifecycle || !StepThread(o, t, g, pc, d(pc)).pc.Up?
    ensures var out := StepThread(o, t, g, pc, d(pc)); Comes(o, s, t, d, out.g, out.pc)
  {
    hide StepThread, Step;
    var n: nat :| At(Alone(o, s, t, d, n), t, g, pc);
    AloneThen(o, s, t, d, n);
    var out := StepThread(o, t, g, pc, d(pc));
    StepIs(o, Alone(o, s, t, d, n), t, d(pc));
    assert At(Alone(o, s, t, d, n + 1), t, out.g, out.pc);
  }

  lemma {:induction false} AloneThen(o: Options, s: State, t: Tid, d: Device, n: nat)
    requires t in s.pcs
    ensures Alone(o, s, t, d, n + 1) == Next(o, Alone(o, s, t, d, n), t, d)
    decreases n
  {
    hide Next;
    if n > 0 { AloneThen(o, Next(o, s, t, d), t, d, n - 1); }
  }

  lemma StepIs(o: Options, s: State, t: Tid, c: Choice)
    requires t in s.pcs && Enabled(s, t)
    requires t.Caller? || t == Lifecycle || !StepThread(o, t, s.g, s.pcs[t], c).pc.Up?
    ensures var out := StepThread(o, t, s.g, s.pcs[t], c); At(Step(o, s, Act(t, c)), t, out.g, out.pc)
  {
    hide StepThread;
  }

  // ---------- prepare ----------

  lemma Prepares(o: Options, s: State, t: Tid, d: Device, g: Globals, pc: Pc)
    requires t in s.pcs && pc.Prepare? && Comes(o, s, t, d, g, pc)
    ensures var out := StepPrepare(o, t, g, pc, d(pc)); Comes(o, s, t, d, out.g, out.pc)
  {
    GoesOn(o, s, t, d, g, pc);
  }

  /** Up to the question whether to release the brake. */
  lemma Queries(o: Options, s: State, t: Tid, d: Device, g: Globals, call: Call, ticket: nat) returns (brake: bool)
    requires t in s.pcs && Obliging(d) && Comes(o, s, t, d, g, FirstStage(call, ticket))
    ensures Comes(o, s, t, d, g, Prepare(TestRelease, call, ticket, IDLE, brake))
  {
    hide Comes;
    var first := FirstStage(call, ticket);
    assert Obliges(first, d(first));
    Prepares(o, s, t, d, g, first);
    var second := first.(stage := QueryState);
    assert Obliges(second, d(second));
    Prepares(o, s, t, d, g, second);
    var third := second.(stage := QueryBrake, operation := IDLE);
    assert Obliges(third, d(third));
    Prepares(o, s, t, d, g, third);
    brake := d(third).brake;
  }

  /** The brake is released if a ready asks for it, and reads released. */
  lemma Releases(o: Options, s: State, t: Tid, d: Device, g: Globals, call: Call, ticket: nat, brake: bool)
    returns (after: bool)
    requires t in s.pcs && Obliging(d) && ticket == g.sh.epoch
    requires Comes(o, s, t, d, g, Prepare(TestRelease, call, ticket, IDLE, brake))
    ensures after == (brake && !Explicit(call))
    ensures Comes(o, s, t, d, g, AfterBrake(o, call, ticket, IDLE, after))
  {
    hide Comes;
    after := brake && !Explicit(call);
    var test := Prepare(TestRelease, call, ticket, IDLE, brake);
    Prepares(o, s, t, d, g, test);
    if Explicit(call) && brake {
      var release := test.(stage := Release);
      assert Obliges(release, d(release));
      Prepares(o, s, t, d, g, release);
      var back := test.(stage := ReadBack);
      assert Obliges(back, d(back));
      Prepares(o, s, t, d, g, back);
    }
  }

  lemma Commits(o: Options, s: State, t: Tid, d: Device, g: Globals, call: Call, ticket: nat, brake: bool)
    returns (now: int)
    requires t in s.pcs && Obliging(d) && CommitAllowed(g.sh, ticket) && (Explicit(call) ==> !brake)
    requires Comes(o, s, t, d, g, AfterBrake(o, call, ticket, IDLE, brake))
    ensures var sh := PrepareCommit(o, g.sh, Explicit(call), ticket, IDLE, brake, now);
      Comes(o, s, t, d, g.(sh := sh), Finish(call, ticket, true))
  {
    hide Comes;
    var commit := Prepare(Commit, call, ticket, IDLE, brake);
    if o.motionOutput {
      var zero := commit.(stage := SendZero);
      assert Obliges(zero, d(zero));
      Prepares(o, s, t, d, g, zero);
    }
    Prepares(o, s, t, d, g, commit);
    now := d(commit).now;
  }

  /** From both locks taken to both locks released. */
  lemma PrepareSucceeds(o: Options, s: State, t: Tid, d: Device, g: Globals, call: Call, ticket: nat)
    returns (brake: bool, now: int)
    requires t in s.pcs && Obliging(d) && CommitAllowed(g.sh, ticket) && call in {Ready, Connect, Reconnect}
    requires Comes(o, s, t, d, g, FirstStage(call, ticket)) && (t == Telemetry ==> call == Reconnect)
    requires t == Control ==> call == Ready
    ensures Explicit(call) ==> !brake
    ensures var sh := PrepareCommit(o, g.sh, Explicit(call), ticket, IDLE, brake, now);
      Comes(o, s, t, d, g.(sh := sh, action := None, io := None), AfterCall(call, ticket, true))
  {
    hide Comes, PrepareCommit;
    var read := Queries(o, s, t, d, g, call, ticket);
    brake := Releases(o, s, t, d, g, call, ticket, read);
    now := Commits(o, s, t, d, g, call, ticket, brake);
    Leaves(o, s, t, d, g.(sh := PrepareCommit(o, g.sh, Explicit(call), ticket, IDLE, brake, now)), call, ticket, true);
  }

  lemma Leaves(o: Options, s: State, t: Tid, d: Device, g: Globals, call: Call, ticket: nat, ok: bool)
    requires t in s.pcs && Comes(o, s, t, d, g, Finish(call, ticket, ok))
    requires t.Caller? || t == Lifecycle || call != Connect
    ensures Comes(o, s, t, d, g.(action := None, io := None), AfterCall(call, ticket, ok))
  {
    hide Comes;
    GoesOn(o, s, t, d, g, Finish(call, ticket, ok));
    GoesOn(o, s, t, d, g.(io := None), FinishAction(call, ticket, ok));
  }

  /** Both locks are free, and the thread takes them. */
  lemma Locks(o: Options, s: State, t: Tid, d: Device, g: Globals, call: Call, ticket: nat)
    requires t in s.pcs && Comes(o, s, t, d, g, WantAction(call, ticket)) && g.action == None && g.io == None
    ensures Comes(o, s, t, d, g.(action := Some(t), io := Some(t)), Check(call, ticket))
  {
    hide Comes;
    GoesOn(o, s, t, d, g, WantAction(call, ticket));
    GoesOn(o, s, t, d, g.(action := Some(t)), WantIo(call, ticket));
  }

  // ---------- The calls ----------

  /**
   A ready with the newest ticket succeeds when it is left alone with the device: the
   brake reads released, the emergency stop is over, and it has permission.
   */
  lemma ReadySucceeds(o: Options, s: State, id: nat, d: Device) returns (n: nat)
    requires o.motionOutput && Obliging(d) && s.g.sh.running && s.g.action == None && s.g.io == None
    requires Caller(id) in s.pcs && s.pcs[Caller(id)] == WantAction(Ready, s.g.sh.epoch)
    ensures var r := Alone(o, s, Caller(id), d, n);
      && r.pcs[Caller(id)] == Returned(Ready, s.g.sh.epoch, true)
      && r.g.sh.connected && r.g.sh.owned && r.g.sh.want && !r.g.sh.estop && !r.g.sh.brake
      && r.g.action == None && r.g.io == None
  {
    var t, ticket := Caller(id), s.g.sh.epoch;
    var g := s.g.(action := Some(t), io := Some(t));
    Arrived(o, s, t, d);
    Locks(o, s, t, d, s.g, Ready, ticket);
    GoesOn(o, s, t, d, g, Check(Ready, ticket));
    var brake, now := PrepareSucceeds(o, s, t, d, g, Ready, ticket);
    var sh := PrepareCommit(o, g.sh, true, ticket, IDLE, brake, now);
    n :| At(Alone(o, s, t, d, n), t, g.(sh := sh, action := None, io := None), Returned(Ready, ticket, true));
  }

  /** A stop with the newest ticket succeeds when it is left alone, and an emergency stop leaves the brake on. */
  lemma StopSucceeds(o: Options, s: State, id: nat, emergency: bool, d: Device) returns (n: nat)
    requires Obliging(d) && s.g.sh.running && s.g.action == None && s.g.io == None
    requires Caller(id) in s.pcs && s.pcs[Caller(id)] == WantAction(Stop(emergency), s.g.sh.epoch)
    ensures var r := Alone(o, s, Caller(id), d, n);
      && r.pcs[Caller(id)] == Returned(Stop(emergency), s.g.sh.epoch, true)
      && (emergency ==> r.g.sh.brake && r.g.sh.brakeKnown) && r.g.action == None && r.g.io == None
  {
    var t, ticket, call := Caller(id), s.g.sh.epoch, Stop(emergency);
    var g := s.g.(action := Some(t), io := Some(t));
    Arrived(o, s, t, d);
    Locks(o, s, t, d, s.g, call, ticket);
    GoesOn(o, s, t, d, g, Check(call, ticket));
    var sh := StopActs(o, s, t, d, g, emergency, ticket);
    Leaves(o, s, t, d, g.(sh := sh), call, ticket, true);
    n :| At(Alone(o, s, t, d, n), t, g.(sh := sh, action := None, io := None), Returned(call, ticket, true));
  }

  lemma StopActs(o: Options, s: State, t: Tid, d: Device, g: Globals, emergency: bool, ticket: nat) returns (sh: Shared)
    requires t in s.pcs && Obliging(d)
    requires var call := Stop(emergency);
      Comes(o, s, t, d, g, if emergency then StopBrake(call, ticket) else StopZero(call, ticket))
    ensures Comes(o, s, t, d, g.(sh := sh), Finish(Stop(emergency), ticket, true))
    ensures emergency ==> sh.brake && sh.brakeKnown
  {
    hide Comes;
    var call := Stop(emergency);
    sh := if emergency then BrakeCommit(g.sh) else g.sh;
    if emergency {
      assert Obliges(StopBrake(call, ticket), d(StopBrake(call, ticket)));
      GoesOn(o, s, t, d, g, StopBrake(call, ticket));
      assert Obliges(StopReadBack(call, ticket), d(StopReadBack(call, ticket)));
      GoesOn(o, s, t, d, g, StopReadBack(call, ticket));
      GoesOn(o, s, t, d, g, StopCommit(call, ticket));
    } else {
      assert Obliges(StopZero(call, ticket), d(StopZero(call, ticket)));
      GoesOn(o, s, t, d, g, StopZero(call, ticket));
    }
  }

  /** A poll that finds the link down connects again, and has permission exactly as the wish and the brake allow. */
  lemma ReconnectSucceeds(o: Options, s: State, d: Device) returns (n: nat)
    requires Obliging(d) && s.g.sh.running && !s.g.sh.connected && s.g.action == None && s.g.io == None
    requires Telemetry in s.pcs && s.pcs[Telemetry] == PollTop
    ensures var r := Alone(o, s, Telemetry, d, n);
      && r.pcs[Telemetry] == PollTop && r.g.sh.connected && r.g.sh.epoch == s.g.sh.epoch
      && r.g.sh.want == s.g.sh.want && r.g.sh.estop == s.g.sh.estop
      && (r.g.sh.owned <==> o.motionOutput && s.g.sh.want && !r.g.sh.brake && !s.g.sh.estop)
      && r.g.action == None && r.g.io == None
  {
    var t, ticket := Telemetry, s.g.sh.epoch;
    var g := s.g.(action := Some(t), io := Some(t));
    PollLocks(o, s, d);
    GoesOn(o, s, t, d, g, Check(Reconnect, ticket));
    var brake, now := PrepareSucceeds(o, s, t, d, g, Reconnect, ticket);
    var sh := PrepareCommit(o, g.sh, false, ticket, IDLE, brake, now);
    n :| At(Alone(o, s, t, d, n), t, g.(sh := sh, action := None, io := None), PollTop);
  }

  lemma PollBranches(o: Options, s: State, d: Device)
    requires Obliging(d) && s.g.sh.running && !s.g.sh.connected && s.g.action == None
    requires Telemetry in s.pcs && s.pcs[Telemetry] == PollTop
    ensures Comes(o, s, Telemetry, d, s.g.(action := Some(Telemetry)), PollLoad)
  {
    hide Comes;
    Arrived(o, s, Telemetry, d);
    GoesOn(o, s, Telemetry, d, s.g, PollTop);
    assert Obliges(PollBranch(false), d(PollBranch(false)));
    GoesOn(o, s, Telemetry, d, s.g, PollBranch(false));
  }

  lemma PollLocks(o: Options, s: State, d: Device)
    requires Obliging(d) && s.g.sh.running && !s.g.sh.connected && s.g.action == None && s.g.io == None
    requires Telemetry in s.pcs && s.pcs[Telemetry] == PollTop
    ensures Comes(o, s, Telemetry, d, s.g.(action := Some(Telemetry), io := Some(Telemetry)),
                  Check(Reconnect, s.g.sh.epoch))
  {
    hide Comes;
    var g := s.g.(action := Some(Telemetry));
    PollBranches(o, s, d);
    GoesOn(o, s, Telemetry, d, g, PollLoad);
    GoesOn(o, s, Telemetry, d, g, WantIo(Reconnect, s.g.sh.epoch));
  }

  /** A due poll of an open link records what it has read, and begins anew. */
  lemma PollSucceeds(o: Options, s: State, d: Device) returns (n: nat, brake: bool, now: int)
    requires Obliging(d) && s.g.sh.running && s.g.sh.connected
    requires Telemetry in s.pcs && s.pcs[Telemetry] == PollTop
    ensures var r := Alone(o, s, Telemetry, d, n);
      && r.pcs[Telemetry] == PollTop && r.g.sh.telemetryTime == now && r.g.sh.stateFailures == 0
      && r.g.sh.operation == IDLE && r.g.sh.brake == brake && r.g.sh.brakeKnown
      && (brake ==> !r.g.sh.owned && !r.g.sh.want)
  {
    hide StepThread, Alone;
    var ticket := s.g.sh.epoch;
    PollAsks(o, s, d);
    brake := PollReads(o, s, d, s.g, ticket);
    now := PollCommits(o, s, d, s.g, ticket, brake);
    var sh := TelemetryCommit(s.g.sh, ticket, IDLE, brake, now);
    n :| At(Alone(o, s, Telemetry, d, n), Telemetry, s.g.(sh := sh), PollTop);
  }

  lemma PollReads(o: Options, s: State, d: Device, g: Globals, ticket: nat) returns (brake: bool)
    requires Telemetry in s.pcs && Obliging(d) && Comes(o, s, Telemetry, d, g, PollState(ticket))
    ensures Comes(o, s, Telemetry, d, g, PollTest(ticket, IDLE, brake))
  {
    hide Comes;
    assert Obliges(PollState(ticket), d(PollState(ticket)));
    GoesOn(o, s, Telemetry, d, g, PollState(ticket));
    assert Obliges(PollBrake(ticket, IDLE), d(PollBrake(ticket, IDLE)));
    GoesOn(o, s, Telemetry, d, g, PollBrake(ticket, IDLE));
    brake := d(PollBrake(ticket, IDLE)).brake;
  }

  lemma PollCommits(o: Options, s: State, d: Device, g: Globals, ticket: nat, brake: bool) returns (now: int)
    requires Telemetry in s.pcs && Comes(o, s, Telemetry, d, g, PollTest(ticket, IDLE, brake)) && ticket == g.sh.epoch
    ensures Comes(o, s, Telemetry, d, g.(sh := TelemetryCommit(g.sh, ticket, IDLE, brake, now)), PollTop)
  {
    hide Comes;
    GoesOn(o, s, Telemetry, d, g, PollTest(ticket, IDLE, brake));
    GoesOn(o, s, Telemetry, d, g, PollCommit(ticket, IDLE, brake));
    now := d(PollCommit(ticket, IDLE, brake)).now;
  }

  lemma PollAsks(o: Options, s: State, d: Device)
    requires Obliging(d) && s.g.sh.running && s.g.sh.connected
    requires Telemetry in s.pcs && s.pcs[Telemetry] == PollTop
    ensures Comes(o, s, Telemetry, d, s.g, PollState(s.g.sh.epoch))
  {
    hide Comes;
    Arrived(o, s, Telemetry, d);
    GoesOn(o, s, Telemetry, d, s.g, PollTop);
    assert Obliges(PollBranch(true), d(PollBranch(true)));
    GoesOn(o, s, Telemetry, d, s.g, PollBranch(true));
    GoesOn(o, s, Telemetry, d, s.g, PollTicket);
  }

  /** The control thread comes to its next tick. */
  lemma TickComes(o: Options, s: State, d: Device) returns (n: nat)
    requires s.g.sh.running && s.g.io == None && Control in s.pcs && s.pcs[Control] == Top
    ensures At(Alone(o, s, Control, d, n), Control, s.g.(io := Some(Control)), TickRead)
  {
    Arrived(o, s, Control, d);
    GoesOn(o, s, Control, d, s.g, Top);
    GoesOn(o, s, Control, d, s.g, TickWantIo);
    n :| At(Alone(o, s, Control, d, n), Control, s.g.(io := Some(Control)), TickRead);
  }

  /** connect opens the link, and starts both workers after it has released the locks. */
  lemma ConnectSucceeds(o: Options, s: State, d: Device) returns (n: nat)
    requires Obliging(d) && s.g.sh.running && s.g.action == None && s.g.io == None
    requires Lifecycle in s.pcs && s.pcs[Lifecycle] == WantAction(Connect, 0)
    ensures var r := Alone(o, s, Lifecycle, d, n);
      && r.pcs[Lifecycle] == Up && r.g.sh.connected && r.g.action == None && r.g.io == None
      && Control in r.pcs && r.pcs[Control] == Top && Telemetry in r.pcs && r.pcs[Telemetry] == PollTop
      && (r.g.sh.owned <==> o.motionOutput && s.g.sh.want && !r.g.sh.brake && !s.g.sh.estop)
  {
    hide StepThread, Alone, Comes;
    var brake, now := ConnectCommits(o, s, d);
    var sh := PrepareCommit(o, s.g.sh, false, s.g.sh.epoch, IDLE, brake, now);
    n := WorkersStart(o, s, d, s.g.(sh := sh, action := Some(Lifecycle)), s.g.sh.epoch);
  }

  lemma ConnectCommits(o: Options, s: State, d: Device) returns (brake: bool, now: int)
    requires Obliging(d) && s.g.sh.running && s.g.action == None && s.g.io == None
    requires Lifecycle in s.pcs && s.pcs[Lifecycle] == WantAction(Connect, 0)
    ensures var sh := PrepareCommit(o, s.g.sh, false, s.g.sh.epoch, IDLE, brake, now);
      Comes(o, s, Lifecycle, d, s.g.(sh := sh, action := Some(Lifecycle)), FinishAction(Connect, s.g.sh.epoch, true))
  {
    hide Comes;
    var t, ticket := Lifecycle, s.g.sh.epoch;
    var g := s.g.(action := Some(t), io := Some(t));
    Arrived(o, s, t, d);
    Locks(o, s, t, d, s.g, Connect, 0);
    GoesOn(o, s, t, d, g, Check(Connect, 0));
    var read := Queries(o, s, t, d, g, Connect, ticket);
    brake := Releases(o, s, t, d, g, Connect, ticket, read);
    now := Commits(o, s, t, d, g, Connect, ticket, brake);
    hide PrepareCommit;
    var sh := PrepareCommit(o, g.sh, false, ticket, IDLE, brake, now);
    GoesOn(o, s, t, d, g.(sh := sh), Finish(Connect, ticket, true));
  }

  lemma WorkersStart(o: Options, s: State, d: Device, g: Globals, ticket: nat) returns (n: nat)
    requires Lifecycle in s.pcs && Comes(o, s, Lifecycle, d, g, FinishAction(Connect, ticket, true))
    ensures var r := Alone(o, s, Lifecycle, d, n);
      && r.pcs[Lifecycle] == Up && r.g == g.(action := None)
      && Control in r.pcs && r.pcs[Control] == Top && Telemetry in r.pcs && r.pcs[Telemetry] == PollTop
  {
    var m: nat :| At(Alone(o, s, Lifecycle, d, m), Lifecycle, g, FinishAction(Connect, ticket, true));
    AloneThen(o, s, Lifecycle, d, m);
    n := m + 1;
    var finish := FinishAction(Connect, ticket, true);
    assert StepThread(o, Lifecycle, g, finish, d(finish)) == Outcome(g.(action := None), Up, []);
    hide StepThread, Alone, Comes;
  }
}
