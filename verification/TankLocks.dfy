/**
 Deadlock freedom of the TANK protocol: every blocked thread waits for a thread
 of smaller rank, and a thread holding `io` gives it back within a bounded
 number of its own steps, none of which can block.
 */
module TankLocks {
  import opened Prelude
  import opened TankState
  import opened TankProtocol
  import opened TankInvariant
  import opened TankSystem

  /** Whom a thread is blocked on: the holder of the lock it wants, or the worker it joins. */
  function WaitsFor(s: State, t: Tid): Option<Tid>
    requires t in s.pcs
  {
    match s.pcs[t]
    case WantAction(_, _) => s.g.action
    case WantIo(_, _) => s.g.io
    case TickWantIo => s.g.io
    case JoinControl => if Control in s.pcs && s.pcs[Control] != Exited then Some(Control) else None
    case JoinTelemetry => if Telemetry in s.pcs && s.pcs[Telemetry] != Exited then Some(Telemetry) else None
    case _ => None
  }

  /** The lock order: joins before `action_mutex` before `io`. */
  function Rank(pc: Pc): nat {
    if pc.JoinControl? || pc.JoinTelemetry? then 3
    else if pc.WantAction? then 2
    else if pc.WantIo? || pc.TickWantIo? then 1
    else 0
  }

  /** n steps along the waits-for relation lead from t to u. */
  ghost predicate Leads(s: State, t: Tid, u: Tid, n: nat)
    decreases n
  {
    t in s.pcs &&
    if n == 0 then t == u
    else WaitsFor(s, t).Some? && Leads(s, WaitsFor(s, t).value, u, n - 1)
  }

  lemma BlockedMeansWaiting(s: State, t: Tid)
    requires t in s.pcs && !Halted(s.pcs[t])
    ensures Enabled(s, t) <==> WaitsFor(s, t) == None
  {
  }

  lemma WaitsDescend(o: Options, s: State, t: Tid)
    requires Sys(o, s) && t in s.pcs && WaitsFor(s, t).Some?
    ensures var u := WaitsFor(s, t).value;
      u in s.pcs && !Halted(s.pcs[u]) && Rank(s.pcs[u]) < Rank(s.pcs[t])
  {
    hide ServiceLocal, TickLocal, LifeLocal, GlobalInv, Accounted, DigestOf;
    var u := WaitsFor(s, t).value;
    assert ThreadInv(o, s.g, DigestOf(s.log), t, s.pcs[t]);
    assert ThreadInv(o, s.g, DigestOf(s.log), u, s.pcs[u]);
  }

  lemma {:induction false} Unblocker(o: Options, s: State, t: Tid) returns (u: Tid, n: nat)
    requires Sys(o, s) && t in s.pcs && !Halted(s.pcs[t])
    ensures u in s.pcs && Enabled(s, u) && Leads(s, t, u, n) && n <= Rank(s.pcs[t])
    decreases Rank(s.pcs[t])
  {
    BlockedMeansWaiting(s, t);
    if WaitsFor(s, t) == None {
      u, n := t, 0;
    } else {
      WaitsDescend(o, s, t);
      u, n := Unblocker(o, s, WaitsFor(s, t).value);
      n := n + 1;
    }
  }

  /**
   Deadlock freedom. In every reachable state every unfinished thread, the joins
   of disconnect included, is at most three waits away from a thread that can step.
   */
  lemma NoDeadlock(o: Options, events: seq<Event>, t: Tid)
    requires o.Valid()
    requires t in Run(o, events).pcs && !Halted(Run(o, events).pcs[t])
    ensures var s := Run(o, events);
      exists u: Tid, n: nat :: n <= 3 && Leads(s, t, u, n) && u in s.pcs && Enabled(s, u)
  {
    RunKeeps(o, events);
    var u, n := Unblocker(o, Run(o, events), t);
    assert Leads(Run(o, events), t, u, n);
  }

  /** An upper bound on the steps a thread still takes before it releases `io`. */
  function IoSteps(pc: Pc): nat {
    match pc
    case Check(_, _) => 12
    case Prepare(stage, _, _, _, _) =>
      (match stage
       case ToIdle => 11 case QueryState => 10 case QueryBrake => 9 case TestRelease => 8
       case Release => 7 case ReadBack => 6 case SendZero => 5 case Commit => 4)
    case StopBrake(_, _) => 6
    case StopReadBack(_, _) => 5
    case StopCommit(_, _) => 4
    case StopZero(_, _) => 6
    case FinalZero(_, _) => 6
    case Failing(_, _) => 3
    case Finish(_, _, _) => 1
    case TickRead => 5
    case TickSend(_, _, _, _) => 4
    case TickStale(_) => 4
    case TickAck(_, _, _, _) => 3
    case TickLink(_) => 2
    case TickDone => 1
    case _ => 0
  }

  predicate Nearer(pc: Pc, out: Outcome, t: Tid) {
    && IoSteps(out.pc) < IoSteps(pc) <= 12
    && (IoSteps(out.pc) == 0 <==> out.g.io != Some(t))
    && !(pc.FinishAction? && out.pc.Up?)
  }

  lemma PrepareNearer(o: Options, t: Tid, g: Globals, pc: Pc, c: Choice)
    requires g.io == Some(t) && pc.Prepare?
    ensures Nearer(pc, StepPrepare(o, t, g, pc, c), t)
  {
  }

  lemma ServiceNearer(o: Options, t: Tid, g: Globals, pc: Pc, c: Choice)
    requires HoldsIo(pc) && g.io == Some(t) && ServicePc(pc)
    ensures Nearer(pc, StepService(o, t, g, pc, c), t)
  {
    hide StepPrepare;
    if pc.Prepare? { PrepareNearer(o, t, g, pc, c); }
  }

  lemma IoStep(o: Options, t: Tid, g: Globals, pc: Pc, c: Choice)
    requires HoldsIo(pc) && g.io == Some(t)
    ensures Nearer(pc, StepThread(o, t, g, pc, c), t)
  {
    hide StepService;
    if ServicePc(pc) { ServiceNearer(o, t, g, pc, c); }
  }

  lemma HolderRuns(o: Options, s: State, t: Tid)
    requires Sys(o, s) && s.g.io == Some(t)
    ensures t in s.pcs && HoldsIo(s.pcs[t]) && Enabled(s, t)
  {
    hide ServiceLocal, TickLocal, LifeLocal, GlobalInv, Accounted, ShutDown, DigestOf;
    hide Role, HoldsIo, HoldsAction, Enabled;
    assert ThreadInv(o, s.g, DigestOf(s.log), t, s.pcs[t]);
    HoldersRun(s, t);
  }

  lemma HoldersRun(s: State, t: Tid)
    requires t in s.pcs && HoldsIo(s.pcs[t])
    ensures Enabled(s, t)
  {
  }

  /** The holder of `io` is never blocked, and each step brings it closer to releasing the lock. */
  lemma IoIsReleased(o: Options, events: seq<Event>, t: Tid, c: Choice)
    requires o.Valid() && Run(o, events).g.io == Some(t)
    ensures var s := Run(o, events); var s' := Step(o, s, Act(t, c));
      && t in s.pcs && Enabled(s, t) && t in s'.pcs
      && IoSteps(s'.pcs[t]) < IoSteps(s.pcs[t]) <= 12
      && (IoSteps(s'.pcs[t]) == 0 <==> s'.g.io != Some(t))
  {
    hide Sys, HoldsIo, Enabled, StepThread, IoSteps, Run;
    RunKeeps(o, events);
    var s := Run(o, events);
    HolderRuns(o, s, t);
    IoStep(o, t, s.g, s.pcs[t], c);
  }
}
