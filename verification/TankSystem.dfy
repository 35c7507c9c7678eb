/**
 The whole-system invariant of the TANK protocol: every thread's reliance, plus
 the facts that tie the record to where the control and lifecycle threads are.
 */
module TankSystem {
  import opened Prelude
  import opened TankState
  import opened TankProtocol
  import opened TankInvariant

  /** The control thread has a failed frame of command id to account for. */
  predicate Pending(pc: Pc, id: nat) { pc.TickAck? && pc.id == id && !pc.ok }

  predicate LimitKept(o: Options, s: Shared) { s.owned ==> s.moveFailures < o.moveFailureLimit }

  ghost predicate Accounted(o: Options, g: Globals, d: Digest, control: Pc) {
    && (Settled(g, d) || Pending(control, g.sh.commandId))
    && (LimitKept(o, g.sh) || control.TickLink?)
  }

  predicate ControlGone(life: Pc) {
    life.Down? || life.JoinTelemetry? || life.DisconnectClose? || ServicePc(life)
  }

  predicate TelemetryGone(life: Pc) { life.Down? || life.DisconnectClose? || ServicePc(life) }

  /** Disconnect has sent its last frame (or nothing was ever started). */
  predicate FinalDone(life: Pc) {
    life.Down? || life.DisconnectClose? || ((life.Finish? || life.FinishAction?) && life.call == Final)
  }

  /** A thread here sends no frame before it has passed a `running` test. */
  predicate Quiet(pc: Pc) { !HoldsIo(pc) || pc.Check? || pc.Finish? }

  ghost predicate ShutDown(o: Options, s: State)
    requires Control in s.pcs && Telemetry in s.pcs && Lifecycle in s.pcs
  {
    var life := s.pcs[Lifecycle];
    && (ControlGone(life) ==> s.pcs[Control] == Exited)
    && (TelemetryGone(life) ==> s.pcs[Telemetry] == Exited)
    && (FinalDone(life) && o.motionOutput ==> forall t :: t in s.pcs && t != Lifecycle ==> Quiet(s.pcs[t]))
  }

  ghost predicate Threads(o: Options, s: State, d: Digest) {
    forall t :: t in s.pcs ==> ThreadInv(o, s.g, d, t, s.pcs[t])
  }

  ghost predicate Sys(o: Options, s: State) {
    var d := DigestOf(s.log);
    && Control in s.pcs && Telemetry in s.pcs && Lifecycle in s.pcs
    && (s.g.action.Some? ==> s.g.action.value in s.pcs) && (s.g.io.Some? ==> s.g.io.value in s.pcs)
    && GlobalInv(o, s.g, d)
    && Threads(o, s, d)
    && Accounted(o, s.g, d, s.pcs[Control])
    && ShutDown(o, s)
  }

  // ---------- What threads other than control cannot do ----------

  /** They never fail a command's frame, and only a fresh commit lets them grant ownership. */
  predicate Neutral(g: Globals, d: Digest, out: Outcome) {
    && |out.entries| <= 1
    && Extend(d, out.entries).failed == d.failed
    && (out.g.sh.owned ==> out.g.sh.moveFailures == 0 || (g.sh.owned && out.g.sh.moveFailures == g.sh.moveFailures))
  }

  lemma ServiceNeutral(o: Options, t: Tid, g: Globals, d: Digest, pc: Pc, c: Choice)
    requires ServicePc(pc)
    ensures Neutral(g, d, StepService(o, t, g, pc, c))
  {
  }

  lemma PollNeutral(o: Options, t: Tid, g: Globals, d: Digest, pc: Pc, c: Choice)
    requires PollPc(pc)
    ensures Neutral(g, d, StepPoll(o, t, g, pc, c))
  {
  }

  lemma ThreadNeutral(o: Options, t: Tid, g: Globals, d: Digest, pc: Pc, c: Choice)
    requires !ControlPc(pc)
    ensures Neutral(g, d, StepThread(o, t, g, pc, c))
  {
    if ServicePc(pc) {
      ServiceNeutral(o, t, g, d, pc, c);
    } else if PollPc(pc) {
      PollNeutral(o, t, g, d, pc, c);
    }
  }

  // ---------- One step of one thread ----------

  lemma ThreadStep(o: Options, g: Globals, d: Digest, t: Tid, pc: Pc, c: Choice)
    requires StepReady(o, g, d, t, pc) && !Halted(pc)
    requires pc.TickRead? ==> Settled(g, d)
    ensures StepSound(o, g, d, t, StepThread(o, t, g, pc, c))
  {
    hide StepService, StepControl, StepPoll, StepLife, StepSound, GlobalInv, Interference;
    if ServicePc(pc) { ServiceStep(o, g, d, t, pc, c);
    } else if ControlPc(pc) { ControlStep(o, g, d, pc, c);
    } else if PollPc(pc) { PollStep(o, g, d, pc, c);
    } else { LifeStep(o, g, d, pc); }
  }

  /** The command that failed is never the one still cached after the commit. */
  lemma FailureSettled(o: Options, g: Globals, d: Digest, pc: Pc, c: Choice)
    requires StepReady(o, g, d, Control, pc) && ControlPc(pc) && Accounted(o, g, d, pc)
    ensures var out := StepControl(o, Control, g, pc, c);
      |out.entries| <= 1 && Accounted(o, out.g, Extend(d, out.entries), out.pc)
  {
  }

  ghost predicate Runnable(o: Options, s: State, t: Tid) {
    o.Valid() && Sys(o, s) && t in s.pcs && Enabled(s, t)
  }

  lemma ActSound(o: Options, s: State, t: Tid, c: Choice)
    requires Runnable(o, s, t)
    ensures StepSound(o, s.g, DigestOf(s.log), t, StepThread(o, t, s.g, s.pcs[t], c))
    ensures var out := StepThread(o, t, s.g, s.pcs[t], c);
      DigestOf(ActThread(o, s, t, c).log) == Extend(DigestOf(s.log), out.entries)
  {
    var d, pc := DigestOf(s.log), s.pcs[t];
    assert ThreadInv(o, s.g, d, t, pc);
    ThreadStep(o, s.g, d, t, pc, c);
    DigestExtend(s.log, StepThread(o, t, s.g, pc, c).entries);
  }

  predicate Starts(before: Pc, after: Pc) { before.FinishAction? && after.Up? }

  lemma OthersStable(o: Options, s: State, t: Tid, c: Choice, u: Tid)
    requires Runnable(o, s, t) && u in s.pcs && u != t
    ensures var s' := ActThread(o, s, t, c); ThreadInv(o, s'.g, DigestOf(s'.log), u, s.pcs[u])
  {
    ActSound(o, s, t, c);
    var s' := ActThread(o, s, t, c);
    assert ThreadInv(o, s.g, DigestOf(s.log), u, s.pcs[u]);
    Stable(o, s.g, DigestOf(s.log), s'.g, DigestOf(s'.log), Some(t), u, s.pcs[u]);
  }

  /** A worker that had exited holds nothing, so it may start again at its loop top. */
  lemma Restart(o: Options, g: Globals, d: Digest)
    requires ThreadInv(o, g, d, Control, Exited) && ThreadInv(o, g, d, Telemetry, Exited)
    ensures ThreadInv(o, g, d, Control, Top) && ThreadInv(o, g, d, Telemetry, PollTop)
  {
  }

  /** Only the connecting lifecycle thread starts workers, and both have exited by then. */
  lemma StartsOnlyFromConnect(o: Options, s: State, t: Tid, c: Choice)
    requires Runnable(o, s, t) && Starts(s.pcs[t], StepThread(o, t, s.g, s.pcs[t], c).pc)
    ensures t == Lifecycle && s.pcs[Control] == Exited && s.pcs[Telemetry] == Exited
  {
  }

  lemma ActThreads(o: Options, s: State, t: Tid, c: Choice)
    requires Runnable(o, s, t)
    ensures var s' := ActThread(o, s, t, c); Threads(o, s', DigestOf(s'.log))
  {
    hide ThreadInv, GlobalInv, Accounted, ShutDown, DigestOf, StepThread, Interference, Enabled;
    ActSound(o, s, t, c);
    var s', out := ActThread(o, s, t, c), StepThread(o, t, s.g, s.pcs[t], c);
    var d' := DigestOf(s'.log);
    var starts := Starts(s.pcs[t], out.pc);
    if starts {
      StartsOnlyFromConnect(o, s, t, c);
      OthersStable(o, s, t, c, Control);
      OthersStable(o, s, t, c, Telemetry);
      Restart(o, s'.g, d');
    }
    forall u | u in s'.pcs ensures ThreadInv(o, s'.g, d', u, s'.pcs[u]) {
      if u == t {
        assert s'.pcs[u] == out.pc;
      } else if starts && u == Control {
        assert s'.pcs[u] == Top;
      } else if starts && u == Telemetry {
        assert s'.pcs[u] == PollTop;
      } else {
        assert s'.pcs[u] == s.pcs[u];
        OthersStable(o, s, t, c, u);
      }
    }
  }

  /** What other threads do leaves the control thread's account of failures intact. */
  lemma AccountKept(o: Options, g: Globals, d: Digest, t: Tid, out: Outcome, control: Pc)
    requires GlobalInv(o, g, d) && 0 < o.moveFailureLimit && Accounted(o, g, d, control)
    requires Neutral(g, d, out) && Interference(g, d, out.g, Extend(d, out.entries), Some(t))
    ensures Accounted(o, out.g, Extend(d, out.entries), control)
  {
  }

  lemma NotControl(o: Options, g: Globals, d: Digest, t: Tid, pc: Pc)
    requires t != Control && ThreadInv(o, g, d, t, pc)
    ensures !ControlPc(pc)
  {
  }

  lemma OtherFailures(o: Options, s: State, t: Tid, c: Choice)
    requires Runnable(o, s, t) && t != Control
    ensures var out := StepThread(o, t, s.g, s.pcs[t], c);
      |out.entries| <= 1 && Accounted(o, out.g, Extend(DigestOf(s.log), out.entries), s.pcs[Control])
  {
    var d, pc := DigestOf(s.log), s.pcs[t];
    ActSound(o, s, t, c);
    NotControl(o, s.g, d, t, pc);
    ThreadNeutral(o, t, s.g, d, pc, c);
    AccountKept(o, s.g, d, t, StepThread(o, t, s.g, pc, c), s.pcs[Control]);
  }

  lemma ActFailures(o: Options, s: State, t: Tid, c: Choice)
    requires Runnable(o, s, t)
    ensures var s' := ActThread(o, s, t, c);
      Control in s'.pcs && Accounted(o, s'.g, DigestOf(s'.log), s'.pcs[Control])
  {
    ActSound(o, s, t, c);
    if t == Control {
      assert ThreadInv(o, s.g, DigestOf(s.log), t, s.pcs[t]);
      FailureSettled(o, s.g, DigestOf(s.log), s.pcs[t], c);
    } else {
      OtherFailures(o, s, t, c);
      if Starts(s.pcs[t], StepThread(o, t, s.g, s.pcs[t], c).pc) {
        StartsOnlyFromConnect(o, s, t, c);
      }
    }
  }

  // ---------- Shutting down ----------

  /** With `running` false a caller that has sent nothing will send nothing. */
  lemma QuietStep(o: Options, g: Globals, d: Digest, id: nat, pc: Pc, c: Choice)
    requires ThreadInv(o, g, d, Caller(id), pc) && Quiet(pc) && !g.sh.running
    ensures var out := StepThread(o, Caller(id), g, pc, c);
      |out.entries| <= 1 && Quiet(out.pc) && forall e :: e in out.entries ==> !e.Sent?
  {
  }

  lemma HolderIsAlone(o: Options, s: State, t: Tid, u: Tid)
    requires Threads(o, s, DigestOf(s.log)) && t in s.pcs && u in s.pcs && t != u && HoldsIo(s.pcs[t])
    ensures !HoldsIo(s.pcs[u])
  {
  }

  ghost predicate Moved(o: Options, pc: Pc, out: Outcome) {
    && |out.entries| <= 1
    && (ControlGone(out.pc) ==> ControlGone(pc) || pc.JoinControl?)
    && (TelemetryGone(out.pc) ==> TelemetryGone(pc) || pc.JoinTelemetry?)
    && (Starts(pc, out.pc) ==> out.pc.Up?)
    && (o.motionOutput && FinalDone(out.pc) ==>
        || (FinalDone(pc) && out.entries == [])
        || (&& pc.FinalZero?
            && exists ok, ticket :: out.entries == [Sent(MoveFrame(0.0, 0.0, 0), Lifecycle, ticket, ok)]))
  }

  lemma CallMoves(o: Options, g: Globals, pc: Pc, c: Choice)
    requires ServicePc(pc) && !pc.Returned? && (pc.call == Connect || pc.call == Final)
    requires pc.Prepare? || pc.Failing? || pc.StopBrake? || pc.StopReadBack? || pc.StopCommit? || pc.StopZero? ==>
      pc.call != Final
    ensures Moved(o, pc, StepService(o, Lifecycle, g, pc, c))
  {
  }

  /** How the lifecycle thread reaches the phases in which its workers are gone. */
  lemma LifeMoves(o: Options, g: Globals, d: Digest, pc: Pc, c: Choice)
    requires ThreadInv(o, g, d, Lifecycle, pc) && !Halted(pc)
    ensures Moved(o, pc, StepThread(o, Lifecycle, g, pc, c))
  {
    hide StepService, TickLocal, Issued;
    if ServicePc(pc) { CallMoves(o, g, pc, c); }
  }

  lemma LifeFacts(o: Options, s: State, c: Choice)
    requires Runnable(o, s, Lifecycle)
    ensures var s', out := ActThread(o, s, Lifecycle, c), StepThread(o, Lifecycle, s.g, s.pcs[Lifecycle], c);
      && Moved(o, s.pcs[Lifecycle], out)
      && DigestOf(s'.log) == Extend(DigestOf(s.log), out.entries)
      && ShutDown(o, s) && !Halted(s.pcs[Lifecycle])
      && Control in s'.pcs && Telemetry in s'.pcs && Lifecycle in s'.pcs && s'.pcs[Lifecycle] == out.pc
  {
    hide ThreadInv, GlobalInv, Accounted, StepThread, StepSound, DigestOf, ShutDown, Moved;
    ActSound(o, s, Lifecycle, c);
    assert ThreadInv(o, s.g, DigestOf(s.log), Lifecycle, s.pcs[Lifecycle]);
    LifeMoves(o, s.g, DigestOf(s.log), s.pcs[Lifecycle], c);
  }

  lemma LifeGone(o: Options, s: State, c: Choice)
    requires Runnable(o, s, Lifecycle)
    ensures var s' := ActThread(o, s, Lifecycle, c);
      && Control in s'.pcs && Telemetry in s'.pcs && Lifecycle in s'.pcs
      && (ControlGone(s'.pcs[Lifecycle]) ==> s'.pcs[Control] == Exited)
      && (TelemetryGone(s'.pcs[Lifecycle]) ==> s'.pcs[Telemetry] == Exited)
  {
    hide Sys, DigestOf, StepThread, FinalDone;
    LifeFacts(o, s, c);
  }

  lemma LifeDone(o: Options, s: State, c: Choice)
    requires Runnable(o, s, Lifecycle) && o.motionOutput
    requires FinalDone(StepThread(o, Lifecycle, s.g, s.pcs[Lifecycle], c).pc)
    ensures var s' := ActThread(o, s, Lifecycle, c);
      forall u :: u in s'.pcs && u != Lifecycle ==> Quiet(s'.pcs[u])
  {
    hide Sys, DigestOf, StepThread, Quiet, Enabled, ControlGone, TelemetryGone;
    LifeFacts(o, s, c);
    var s' := ActThread(o, s, Lifecycle, c);
    forall u | u in s'.pcs && u != Lifecycle ensures Quiet(s'.pcs[u]) {
      assert s'.pcs[u] == s.pcs[u];
      if s.pcs[Lifecycle].FinalZero? { AloneIsQuiet(o, s, u); }
    }
  }

  lemma LifeShutDown(o: Options, s: State, c: Choice)
    requires Runnable(o, s, Lifecycle)
    ensures var s' := ActThread(o, s, Lifecycle, c);
      Control in s'.pcs && Telemetry in s'.pcs && Lifecycle in s'.pcs && ShutDown(o, s')
  {
    hide Sys, DigestOf, StepThread, Quiet, Enabled, ControlGone, TelemetryGone, FinalDone;
    LifeFacts(o, s, c);
    LifeGone(o, s, c);
    if FinalDone(StepThread(o, Lifecycle, s.g, s.pcs[Lifecycle], c).pc) && o.motionOutput { LifeDone(o, s, c); }
  }

  /** While the last frame is on its way, everyone else is quiet. */
  lemma AloneIsQuiet(o: Options, s: State, u: Tid)
    requires Runnable(o, s, Lifecycle) && u in s.pcs && u != Lifecycle && s.pcs[Lifecycle].FinalZero?
    ensures Quiet(s.pcs[u])
  {
    hide ThreadInv, GlobalInv, Accounted, ShutDown, DigestOf;
    HolderIsAlone(o, s, Lifecycle, u);
  }

  /** While the final frame is the last word, only callers are left. */
  lemma OnlyCallers(o: Options, s: State, t: Tid)
    requires Runnable(o, s, t) && t != Lifecycle && FinalDone(s.pcs[Lifecycle])
    ensures t.Caller? && !s.g.sh.running
  {
    hide GlobalInv, Accounted, DigestOf;
    assert ThreadInv(o, s.g, DigestOf(s.log), t, s.pcs[t]);
    assert ThreadInv(o, s.g, DigestOf(s.log), Lifecycle, s.pcs[Lifecycle]);
  }

  lemma OtherShutDown(o: Options, s: State, t: Tid, c: Choice)
    requires Runnable(o, s, t) && t != Lifecycle
    ensures var s' := ActThread(o, s, t, c);
      Control in s'.pcs && Telemetry in s'.pcs && Lifecycle in s'.pcs && ShutDown(o, s')
  {
    hide ThreadInv, GlobalInv, Accounted, StepThread, StepSound, DigestOf;
    ActSound(o, s, t, c);
    var d, life := DigestOf(s.log), s.pcs[Lifecycle];
    if Starts(s.pcs[t], StepThread(o, t, s.g, s.pcs[t], c).pc) {
      StartsOnlyFromConnect(o, s, t, c);
    }
    ExitedStays(o, s, t);
    if FinalDone(life) && o.motionOutput {
      OnlyCallers(o, s, t);
      assert ThreadInv(o, s.g, d, t, s.pcs[t]);
      QuietStep(o, s.g, d, t.id, s.pcs[t], c);
    }
  }

  /** A worker that has exited takes no step. */
  lemma ExitedStays(o: Options, s: State, t: Tid)
    requires Runnable(o, s, t)
    ensures s.pcs[t] != Exited
  {
  }

  lemma ActKeeps(o: Options, s: State, t: Tid, c: Choice)
    requires Runnable(o, s, t)
    ensures Sys(o, ActThread(o, s, t, c))
  {
    ActSound(o, s, t, c);
    ActThreads(o, s, t, c);
    ActFailures(o, s, t, c);
    if t == Lifecycle { LifeShutDown(o, s, c); } else { OtherShutDown(o, s, t, c); }
  }

  // ---------- Events from outside ----------

  lemma EventThreads(o: Options, s: State, s': State, t: Option<Tid>, u: Tid)
    requires Sys(o, s) && u in s.pcs && u in s'.pcs && t != Some(u) && s'.pcs[u] == s.pcs[u]
    requires Interference(s.g, DigestOf(s.log), s'.g, DigestOf(s'.log), t)
    ensures ThreadInv(o, s'.g, DigestOf(s'.log), u, s'.pcs[u])
  {
    Stable(o, s.g, DigestOf(s.log), s'.g, DigestOf(s'.log), t, u, s.pcs[u]);
  }

  /** The whole invariant after an event from outside, from what the event did to the record and the log. */
  lemma EventKeeps(o: Options, s: State, s': State, t: Option<Tid>)
    requires Sys(o, s) && Control in s'.pcs && Telemetry in s'.pcs && Lifecycle in s'.pcs
    requires s'.g.action == s.g.action && s'.g.io == s.g.io
    requires forall u :: u in s.pcs ==> u in s'.pcs && (t != Some(u) ==> s'.pcs[u] == s.pcs[u])
    requires forall u :: u in s'.pcs && (u !in s.pcs || t == Some(u)) ==>
      ThreadInv(o, s'.g, DigestOf(s'.log), u, s'.pcs[u])
    requires var d, d' := DigestOf(s.log), DigestOf(s'.log);
      && Interference(s.g, d, s'.g, d', t) && GlobalInv(o, s'.g, d')
      && Accounted(o, s'.g, d', s'.pcs[Control]) && ShutDown(o, s')
    ensures Sys(o, s')
  {
    hide GlobalInv, Interference, ThreadInv, Accounted, ShutDown, DigestOf;
    var d' := DigestOf(s'.log);
    forall u | u in s'.pcs ensures ThreadInv(o, s'.g, d', u, s'.pcs[u]) {
      if u in s.pcs && t != Some(u) { EventThreads(o, s, s', t, u); }
    }
  }

  lemma SpawnRecord(o: Options, g: Globals, d: Digest, t: Tid, call: Call, emergency: bool, control: Pc)
    requires o.Valid() && GlobalInv(o, g, d) && (call == Ready || call.Stop?)
    ensures var sh := Inhibit(g.sh, emergency);
      var g', d' := g.(sh := sh, issued := g.issued[sh.epoch := call]), Extend(d, [Requested(sh.epoch, t, call)]);
      && Interference(g, d, g', d', None) && GlobalInv(o, g', d')
      && (Accounted(o, g, d, control) ==> Accounted(o, g', d', control))
  {
  }

  lemma SpawnThread(o: Options, g: Globals, d: Digest, id: nat, call: Call)
    requires g.sh.epoch in g.issued && g.issued[g.sh.epoch] == call && (call == Ready || call.Stop?) && Halt(g.sh)
    requires g.action != Some(Caller(id)) && g.io != Some(Caller(id))
    ensures ThreadInv(o, g, d, Caller(id), WantAction(call, g.sh.epoch))
  {
  }

  lemma SpawnKeeps(o: Options, s: State, id: nat, call: Call, emergency: bool)
    requires o.Valid() && Sys(o, s) && Caller(id) !in s.pcs && (call == Ready || call.Stop?)
    ensures Sys(o, Spawn(s, id, call, emergency))
  {
    var s', d := Spawn(s, id, call, emergency), DigestOf(s.log);
    hide GlobalInv, Interference, ThreadInv, Accounted, DigestOf, Extend;
    DigestExtend(s.log, [Requested(s'.g.sh.epoch, Caller(id), call)]);
    SpawnRecord(o, s.g, d, Caller(id), call, emergency, s.pcs[Control]);
    SpawnThread(o, s'.g, DigestOf(s'.log), id, call);
    EventKeeps(o, s, s', None);
  }

  /** What a change of `running` leaves alone. */
  lemma RunningRecord(o: Options, g: Globals, d: Digest, running: bool, control: Pc)
    requires GlobalInv(o, g, d)
    ensures var g' := g.(sh := g.sh.(running := running));
      && Interference(g, d, g', d, Some(Lifecycle)) && GlobalInv(o, g', d)
      && (Accounted(o, g, d, control) ==> Accounted(o, g', d, control))
  {
  }

  lemma LifeThread(o: Options, g: Globals, d: Digest, running: bool)
    requires ThreadInv(o, g, d, Lifecycle, if running then Down else Up)
    ensures ThreadInv(o, g.(sh := g.sh.(running := running)), d, Lifecycle,
                      if running then WantAction(Connect, 0) else DisconnectInhibit)
  {
  }

  /** Connect and disconnect begin by switching `running`. */
  lemma RunningKeeps(o: Options, s: State, running: bool)
    requires o.Valid() && Sys(o, s) && s.pcs[Lifecycle] == if running then Down else Up
    ensures Sys(o, s.(g := s.g.(sh := s.g.sh.(running := running)),
                      pcs := s.pcs[Lifecycle := if running then WantAction(Connect, 0) else DisconnectInhibit]))
  {
    var pc := if running then WantAction(Connect, 0) else DisconnectInhibit;
    var s' := s.(g := s.g.(sh := s.g.sh.(running := running)), pcs := s.pcs[Lifecycle := pc]);
    hide GlobalInv, Interference, ThreadInv, Accounted, DigestOf;
    RunningRecord(o, s.g, DigestOf(s.log), running, s.pcs[Control]);
    assert ThreadInv(o, s.g, DigestOf(s.log), Lifecycle, s.pcs[Lifecycle]);
    LifeThread(o, s.g, DigestOf(s.log), running);
    EventKeeps(o, s, s', Some(Lifecycle));
  }

  lemma ConnectKeeps(o: Options, s: State)
    requires o.Valid() && Sys(o, s)
    ensures Sys(o, Step(o, s, CallConnect))
  {
    if s.pcs[Lifecycle] == Down {
      hide Sys;
      RunningKeeps(o, s, true);
    }
  }

  lemma DisconnectKeeps(o: Options, s: State)
    requires o.Valid() && Sys(o, s)
    ensures Sys(o, Step(o, s, CallDisconnect))
  {
    if s.pcs[Lifecycle] == Up {
      hide Sys;
      RunningKeeps(o, s, false);
    }
  }

  lemma MoveRecord(o: Options, g: Globals, d: Digest, vx: Double, vy: Double, wz: Double, now: int, control: Pc)
    requires o.Valid() && GlobalInv(o, g, d)
    ensures var sh := Move(o, g.sh, vx, vy, wz, now);
      var entries := if AllFinite(vx, vy, wz) && MoveAllowed(g.sh) then [Accepted(sh.commandId, sh.vx, sh.wz)] else [];
      var g', d' := g.(sh := sh), Extend(d, entries);
      && Interference(g, d, g', d', None) && GlobalInv(o, g', d')
      && (Accounted(o, g, d, control) ==> Accounted(o, g', d', control))
  {
  }

  lemma CmdVelKeeps(o: Options, s: State, vx: Double, vy: Double, wz: Double, now: int)
    requires o.Valid() && Sys(o, s)
    ensures Sys(o, Step(o, s, CmdVel(vx, vy, wz, now)))
  {
    var s', d := Step(o, s, CmdVel(vx, vy, wz, now)), DigestOf(s.log);
    var entries := if AllFinite(vx, vy, wz) && MoveAllowed(s.g.sh)
                   then [Accepted(s'.g.sh.commandId, s'.g.sh.vx, s'.g.sh.wz)] else [];
    hide GlobalInv, Interference, ThreadInv, Accounted, DigestOf, Extend, Move;
    DigestExtend(s.log, entries);
    MoveRecord(o, s.g, d, vx, vy, wz, now, s.pcs[Control]);
    EventKeeps(o, s, s', None);
  }

  lemma StepKeeps(o: Options, s: State, e: Event)
    requires o.Valid() && Sys(o, s)
    ensures Sys(o, Step(o, s, e))
  {
    match e
    case Act(t, c) => if t in s.pcs && Enabled(s, t) { ActKeeps(o, s, t, c); }
    case CallReady(id) => if Caller(id) !in s.pcs { SpawnKeeps(o, s, id, Ready, false); }
    case CallStop(id, emergency) => if Caller(id) !in s.pcs { SpawnKeeps(o, s, id, Stop(emergency), emergency); }
    case CallConnect => ConnectKeeps(o, s);
    case CallDisconnect => DisconnectKeeps(o, s);
    case CmdVel(vx, vy, wz, now) => CmdVelKeeps(o, s, vx, vy, wz, now);
  }

  lemma {:induction false} RunKeeps(o: Options, events: seq<Event>)
    requires o.Valid()
    ensures Sys(o, Run(o, events))
  {
    if events != [] {
      RunKeeps(o, events[..|events| - 1]);
      StepKeeps(o, Run(o, events[..|events| - 1]), events[|events| - 1]);
    }
  }
}
