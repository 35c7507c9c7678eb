/**
 The Cyvet back end object: one worker thread that owns the robot client, and
 any number of service threads that submit jobs and velocities to it.

 The worker's code is written out as methods. Between any two of its accesses to
 shared state it calls `Interfere`, in which service threads run any number of
 their critical sections, taken from the script `services`. Flags and counters
 that only move one way are read together where the source reads them in a row. Robot calls take
 their outcome from the script `robot`, and run callbacks while they spin. All
 methods are verified for every pair of scripts. A C++ exception is the outcome
 `Thrown`, passed on by `:-`.
 */
module CyvetBackend {
  import opened Prelude
  import opened Section = CyvetState

  datatype Outcome<+T> = Returned(value: T) | Thrown {
    predicate IsFailure() { Thrown? }
    function PropagateFailure<U>(): Outcome<U>
      requires Thrown?
    { Thrown }
    function Extract(): T
      requires Returned?
    { value }
  }

  datatype Options = Options(
    actionTimeout: nat, rpcTimeout: nat, telemetryTimeout: nat, cmdVelTimeout: nat, period: nat,
    reconnect: nat, profile: Profile, observe: bool)

  // ---------- Scripts ----------

  datatype Request =
    | Serve(task: Task)
    | Steer(x: Double, y: Double, yaw: Double)
    | CallerReturns(id: nat)
    | DestructorInhibits
    | DestructorQuits

  /** What service threads do between two steps of the worker, and the time it takes. */
  datatype Between = Between(requests: seq<Request>, gap: nat)

  datatype Failure = OtherFailure | RpcTimeout | SessionExpired | SessionRevoked

  datatype Report =
    | Malformed
    | Motion(action: Action, vx: Option<Double>, vy: Option<Double>, vyaw: Option<Double>, profile: Option<Profile>)

  datatype Callback = ControlLost | MotionReply(ok: bool, report: Report) | SystemReply(ok: bool)

  datatype Reply = Reply(
    callbacks: seq<Callback>, ok: bool, throws: bool, failure: Failure, report: Report, capable: bool, laying: bool)

  function Component(d: Option<Double>): Option<real> {
    if d == None then Some(0.0) else if d.value.Finite? then Some(d.value.value) else None
  }

  function Abs(x: real): real { if x < 0.0 then -x else x }

  /** Whether a report says the robot stands still; None when the source throws. */
  function Stillness(r: Report): Option<bool> {
    if r.Malformed? then None
    else
      var partial := r.vx == None || r.vy == None || r.vyaw == None;
      var x, y, yaw := Component(r.vx), Component(r.vy), Component(r.vyaw);
      if partial && (r.action == Walking || r.action == EmergencyStop) then None
      else if x == None || y == None || yaw == None then None
      else Some(Abs(x.value) + Abs(y.value) + Abs(yaw.value) < 0.00001)
  }

  /** A report counts as standing still only when every component is next to zero, and always when all are zero. */
  lemma StillIsStill(r: Report)
    requires r.Motion? && r.vx.Some? && r.vy.Some? && r.vyaw.Some?
    ensures Stillness(r).Some? <==> r.vx.value.Finite? && r.vy.value.Finite? && r.vyaw.value.Finite?
    ensures Stillness(r) == Some(true) ==>
      && -0.00001 < r.vx.value.value < 0.00001 && -0.00001 < r.vy.value.value < 0.00001
      && -0.00001 < r.vyaw.value.value < 0.00001
    ensures r.vx.value == r.vy.value == r.vyaw.value == Finite(0.0) ==> Stillness(r) == Some(true)
  {
  }

  /** A component that is not reported counts as zero, except while the robot walks or stands in an emergency stop. */
  lemma AbsentIsZero(r: Report)
    requires r.Motion? && r.vy == None
    ensures Stillness(r) ==
      if r.action == Walking || r.action == EmergencyStop then None else Stillness(r.(vy := Some(Finite(0.0))))
  {
  }

  /** What the worker knows after a report it could read. */
  function Observed(v: Seen, r: Report, now: int): Seen
    requires Stillness(r).Some?
  {
    v.(action := r.action, latched := v.latched || r.action == EmergencyStop, still := Stillness(r).value,
       reported := r.profile, replyAt := now, owned := v.client == Controlled, connected := true)
  }

  /** Fields only the worker writes; `halt` is also read when a job is submitted. */
  datatype Plan = Plan(
    halt: bool, active: bool, escalated: bool, selected: Profile, capable: bool, laying: bool,
    started: bool, observing: bool,
    nextHalt: int, nextVelocity: int, nextMotion: int, nextSystem: int, nextConnect: int)

  class CyvetImpl {
    const opts: Options
    const services: nat -> Between
    const robot: nat -> Reply
    const start: int
    var shared: Shared
    var seen: Seen
    var plan: Plan
    var failure: Failure
    var now: int
    var tick: nat
    ghost var log: seq<Stamp>
    ghost var ledger: Ledger

    constructor (opts: Options, services: nat -> Between, robot: nat -> Reply, now: int)
      ensures Valid() && Orderly() && log == [] && !shared.ready && ledger == Empty(now)
      ensures this.opts == opts && this.services == services && this.robot == robot && this.now == now == start
    {
      this.opts, this.services, this.robot, this.now, this.start := opts, services, robot, now, now;
      shared := Shared(false, 0, None, [], [], 0, false, 0, 0, {}, {});
      seen := Seen(Disconnected, NO_ACTION, false, true, None, now, now, None, None, false, false);
      plan := Plan(false, false, false, opts.profile, false, false, false, false, now, now, now, now, now);
      failure, tick, log, ledger := OtherFailure, 0, [], Empty(now);
    }

    ghost function Here(): World
      reads `shared, `seen, `now, `log, `ledger
    {
      World(shared, seen, now, log, ledger)
    }

    ghost predicate Recorded()
      reads `now, `log, `ledger
    {
      ledger == Fold(start, log) && Fine(opts.cmdVelTimeout, start, log) && ledger.clock <= now
    }

    ghost predicate Valid()
      reads `shared, `seen, `now, `log, `ledger
    {
      Inv(shared, seen, ledger) && Recorded()
    }

    ghost predicate Orderly()
      reads `shared, `seen, `now, `log, `ledger, `plan
    {
      InOrder(Here(), plan.halt, plan.active)
    }

    /** Steps that enable nothing and send no velocity. */
    twostate predicate Went()
      reads `shared, `seen, `now, `log, `ledger
    {
      Valid() && Reaches(old(Here()), Here())
    }

    /** Such steps that only listen to the robot. */
    twostate predicate Heard()
      reads `shared, `seen, `now, `log, `ledger
    {
      Valid() && Hears(old(Here()), Here())
    }

    /** Whoever has control, we did not take it. */
    twostate predicate TakesNoControl()
      reads `seen
    {
      seen.client == Controlled ==> old(seen).client == Controlled
    }

    /** What a motion command of ours leaves on the wire. */
    twostate predicate Told(rpc: Rpc)
      reads `ledger
    {
      && ledger.wire.stops == old(ledger).wire.stops + (if rpc.StopAction? then 1 else 0)
      && ledger.wire.emergencies == old(ledger).wire.emergencies + (if rpc.EmergencyStopCall? then 1 else 0)
      && ledger.wire.orders == old(ledger).wire.orders + (if rpc.ReleaseCall? then 0 else 1)
      && ledger.wire.offs == old(ledger).wire.offs
      && (rpc.ReleaseCall? ==>
          old(ledger).wire.releases < ledger.wire.releases && old(ledger).wire.answers <= ledger.wire.answers)
      && ledger.wire.latest == if rpc.ReleaseCall? then old(ledger).wire.latest else Order(rpc)
    }

    /** A robot under control was told to stop, unless it reports an emergency stop. */
    twostate predicate Halted()
      reads `shared, `seen, `now, `log, `ledger
    {
      old(seen).client == Controlled ==> Stops(old(Here()), Here())
    }

    ghost method Note(e: Entry)
      requires Recorded() && EntryFine(opts.cmdVelTimeout, ledger, Stamp(now, e))
      modifies `log, `ledger
      ensures Recorded() && log == old(log) + [Stamp(now, e)] && ledger == Apply(old(ledger), Stamp(now, e))
    {
      log := log + [Stamp(now, e)];
      ledger := Apply(ledger, Stamp(now, e));
      assert log[..|log| - 1] == old(log);
    }

    /** The end of a section that leaves an entry in the log. */
    method Commit(s: Shared, ghost e: Entry)
      requires Recorded() && EntryFine(opts.cmdVelTimeout, ledger, Stamp(now, e))
      requires Inv(s, seen, Apply(ledger, Stamp(now, e)))
      modifies `shared, `log, `ledger
      ensures Valid() && shared == s && log == old(log) + [Stamp(now, e)]
      ensures ledger == Apply(old(ledger), Stamp(now, e))
    {
      shared := s;
      Note(e);
    }

    // ---------- Sections of the service threads ----------

    /** inhibit(), by whom it may be. */
    method InhibitSection(ghost e: Entry)
      requires Valid() && (e.Inhibited? || e.Disabled?)
      modifies `shared, `log, `ledger
      ensures if e.Disabled? then Went() else Heard()
      ensures shared == Inhibit(old(shared)) && log == old(log) + [Stamp(now, e)]
      ensures ledger == Apply(old(ledger), Stamp(now, e))
      ensures e.Disabled? ==> ledger.wire.offs > old(ledger).wire.offs
    {
      hide Section.Agrees, Section.Apply, Section.Fold, Section.Fine;
      InhibitKeeps(shared, seen, ledger, Stamp(now, e));
      Commit(shared.(ready := false, generation := shared.generation + 1, velocity := None), e);
    }

    /** The worker switches motion off by itself. */
    method DisableMotion()
      requires Valid()
      modifies `shared, `log, `ledger
      ensures Went() && !shared.ready && shared.generation > old(shared).generation
      ensures ledger.wire.offs > old(ledger).wire.offs
    {
      hide Section.Agrees, Section.Apply, Section.Reaches;
      InhibitSection(Disabled);
    }

    /** The writes of an acceptance, made on the values the mutex guards. */
    method Queued(task: Task) returns (s: Shared)
      ensures s == Accept(shared, task)
    {
      s := shared;
      if Urgent(task) || Prepares(task) { s := s.(ready := false, generation := s.generation + 1, velocity := None); }
      if Urgent(task) { s := s.(stops := s.stops + 1, callers := s.callers + {s.accepted}); }
      var job := Job(s.accepted, task, s.generation);
      if Urgent(task) { s := s.(urgent := s.urgent + [job], accepted := job.id + 1); }
      else { s := s.(normal := s.normal + [job], accepted := job.id + 1); }
    }

    method Enqueue(task: Task) returns (id: nat)
      requires Valid() && Admits(shared, plan.halt, task)
      modifies `shared, `log, `ledger
      ensures Heard() && id == old(shared).accepted && shared == Accept(old(shared), task)
      ensures ledger.wire == old(ledger).wire
      ensures log == old(log) + [Stamp(now, Accepted(id, task, shared.generation))]
    {
      hide Section.Accept, Section.Agrees, Section.Goes, Section.Fine, Section.Fold;
      var s := Queued(task);
      id := shared.accepted;
      ghost var e := Accepted(id, task, s.generation);
      AcceptKeeps(shared, seen, ledger, plan.halt, task, s, Stamp(now, e));
      AcceptedIsHeard(ledger, Stamp(now, e));
      hide Section.Apply;
      Commit(s, e);
    }

    /** Submit's tests, in its order. */
    method Refuses(task: Task) returns (refused: bool)
      ensures refused == !Admits(shared, plan.halt, task)
    {
      if shared.quitting { return true; }
      if Prepares(task) && (shared.stops > 0 || plan.halt) { return true; }
      if !Urgent(task) && |shared.normal| + |shared.urgent| >= CAPACITY { return true; }
      refused := false;
    }

    /** The first critical section of submit, or a rejection. */
    method Submit(task: Task) returns (id: Option<nat>)
      requires Valid()
      modifies `shared, `log, `ledger
      ensures Heard()
      ensures id.Some? == Admits(old(shared), plan.halt, task)
      ensures id.Some? <==>
        && !old(shared).quitting
        && (task.Stand? || task.SetProfile? ==> old(shared).stops == 0 && !plan.halt)
        && (task.Disconnect? || task.Lie? || task.Release? || task.SoftEstop? ||
            |old(shared).normal| + |old(shared).urgent| < 16)
      ensures id == None ==> shared == old(shared) && log == old(log)
      ensures id.Some? ==> id.value == old(shared).accepted && shared == Accept(old(shared), task)
      ensures ledger.wire == old(ledger).wire
      ensures id.Some? ==> log == old(log) + [Stamp(now, Accepted(id.value, task, shared.generation))]
    {
      hide Section.Accept, Section.Agrees, Section.Hears;
      var refused := Refuses(task);
      if refused {
        StillHears(Here());
        return None;
      }
      var job := Enqueue(task);
      id := Some(job);
    }

    /** A stop caller leaves submit, once its promise was set. */
    method Return(id: nat)
      requires Valid()
      modifies `shared, `log, `ledger
      ensures Heard()
      ensures id in old(shared).callers && id in old(shared).answered ==>
        old(shared).stops > 0 && shared == LeaveCall(old(shared), id) && log == old(log) + [Stamp(now, Back(id))]
      ensures !(id in old(shared).callers && id in old(shared).answered) ==> shared == old(shared) && log == old(log)
    {
      hide Section.Agrees;
      if id in shared.callers && id in shared.answered {
        BackKeeps(shared, seen, ledger, id, now);
        Commit(shared.(stops := shared.stops - 1, callers := shared.callers - {id}), Back(id));
      }
    }

    method Move(x: Double, y: Double, yaw: Double) returns (accepted: bool)
      requires Valid()
      modifies `shared, `log, `ledger
      ensures Heard()
      ensures accepted <==>
        x.Finite? && y.Finite? && yaw.Finite? && old(shared).ready && seen.owned && seen.connected
      ensures !accepted ==> shared == old(shared) && log == old(log)
      ensures accepted ==>
        var c := Velocity(old(shared).moves, x.value, y.value, yaw.value, now, old(shared).generation);
        && shared == Cache(old(shared), c) && shared.velocity == Some(c)
        && log == old(log) + [Stamp(now, Moved(c))]
    {
      hide Section.Agrees;
      if !x.Finite? || !y.Finite? || !yaw.Finite? { return false; }
      if !shared.ready || !seen.owned || !seen.connected { return false; }
      var c := Velocity(shared.moves, x.value, y.value, yaw.value, now, shared.generation);
      CacheKeeps(shared, seen, ledger, c);
      Commit(shared.(velocity := Some(c), moves := shared.moves + 1), Moved(c));
      accepted := true;
    }

    method StoreQuitting()
      requires Valid()
      modifies `shared
      ensures Heard() && shared == old(shared).(quitting := true)
    {
      hide Section.Agrees;
      QuitKeeps(shared, seen, ledger);
      shared := shared.(quitting := true);
    }

    // ---------- Interference ----------

    /** No service thread does anything, and time stands still. */
    ghost predicate Silent() { forall n :: services(n) == Between([], 0) }

    /** The robot accepts every call, loses no session, and answers that it walks. */
    ghost predicate Answers() { forall n :: Obliges(robot(n)) }

    /** What a robot of one mind reports. */
    function Answer(): Report { robot(0).report }

    /** Services are silent, and the robot accepts every call and keeps reporting the same, standing still. */
    ghost predicate Cooperates() {
      && Silent() && opts.actionTimeout > 0 && Stillness(Answer()) == Some(true)
      && forall n :: Consents(robot(n), Answer())
    }

    static predicate Consents(reply: Reply, report: Report) {
      reply.callbacks == [] && reply.ok && !reply.throws && reply.report == report
    }

    /** Its reports do not contradict that profile. */
    ghost predicate Fits(profile: Option<Profile>) {
      Answer().Motion? && (profile == None || Answer().profile == None || Answer().profile == profile)
    }

    /** Nothing newer than that request has come. */
    ghost predicate Current(token: nat)
      reads `shared
    {
      !shared.quitting && shared.generation == token
    }

    /** Services have done nothing, no time has passed, and control is where it was. */
    twostate predicate Unmoved()
      reads `shared, `seen, `now
    {
      shared == old(shared) && now == old(now) && seen.client == old(seen).client
    }

    /** The robot gave that answer at some point. */
    ghost predicate Said(reply: Reply) { exists n: nat :: robot(n) == reply }

    static predicate Obliges(reply: Reply) { reply.callbacks == [] && reply.ok && !reply.throws && Walks(reply.report) }

    static predicate Walks(report: Report) { report.Motion? && report.action == Walking && Stillness(report).Some? }

    /** Services only append to the queue of stops. */
    twostate predicate FrontKept()
      reads `shared
    {
      old(shared).urgent != [] ==> shared.urgent != [] && shared.urgent[0] == old(shared).urgent[0]
    }

    method Interfere()
      requires Valid()
      modifies `shared, `now, `tick, `log, `ledger
      ensures Heard() && FrontKept()
      ensures Silent() ==> Here() == old(Here())
    {
      hide Section.Agrees, Section.Hears;
      HearsOn();
      var between := services(tick);
      tick := tick + 1;
      TimePasses(Here(), now + between.gap);
      now := now + between.gap;
      for i := 0 to |between.requests|
        invariant Heard() && FrontKept()
        invariant between == Between([], 0) ==> Here() == old(Here())
      {
        ServiceStep(between.requests[i]);
      }
    }

    method ServiceStep(request: Request)
      requires Valid()
      modifies `shared, `log, `ledger
      ensures Heard() && FrontKept()
    {
      hide Section.Agrees, Section.Hears;
      match request
      case Serve(task) => var _ := Submit(task);
      case Steer(x, y, yaw) => var _ := Move(x, y, yaw);
      case CallerReturns(id) => Return(id);
      case DestructorInhibits => InhibitSection(Inhibited);
      case DestructorQuits => StoreQuitting();
    }

    // ---------- The robot client, on the worker's thread ----------

    method See(v: Seen)
      requires Valid() && v.action == seen.action && (v.client == Controlled <==> seen.client == Controlled)
      requires v.action == EmergencyStop ==> v.latched
      modifies `seen
      ensures Valid() && seen == v
    {
      SeenKeeps(shared, seen, ledger, v);
      seen := v;
    }

    /** Fields of the worker that are neither control nor a report. */
    method Mark(v: Seen)
      requires Valid() && v.action == seen.action && v.client == seen.client && (seen.latched ==> v.latched)
      modifies `seen
      ensures Heard() && seen == v
    {
      hide Section.Agrees;
      See(v);
    }

    /** Leaving kControlled runs the connect callback, which inhibits. */
    method DropControl()
      requires Valid()
      modifies `shared, `seen, `log, `ledger
      ensures Heard() && seen == old(seen).(client := Connected) && shared == Inhibit(old(shared))
      ensures ledger.wire.losses > old(ledger).wire.losses
    {
      hide Section.Agrees, Section.Apply, Section.Hears, Section.Reaches, Section.Fold, Section.Fine;
      LossIsHeard(Here());
      seen := seen.(client := Connected);
      shared := shared.(ready := false, generation := shared.generation + 1, velocity := None);
      Note(Lost);
    }

    method InhibitUnlessWalking(action: Action)
      requires Valid()
      modifies `shared, `now, `tick, `log, `ledger
      ensures Heard() && (shared.ready ==> action == Walking)
      ensures Silent() && (action == Walking || !old(shared).ready) ==> Here() == old(Here())
    {
      hide Section.Agrees, Section.Hears;
      HearsOn();
      Interfere();
      if shared.ready && action != Walking { InhibitSection(Inhibited); }
      ghost var before := Here();
      Interfere();
      HearsReady(before, Here());
    }

    /** A parsed report becomes what the worker knows, and the log's last report. */
    method Publish(v: Seen)
      requires Valid() && v.client == seen.client && (seen.latched ==> v.latched)
      requires (shared.ready ==> v.action == Walking) && (v.action == EmergencyStop ==> v.latched)
      modifies `seen, `log, `ledger
      ensures Heard() && seen == v && ledger.wire == Listen(old(ledger).wire, v.action)
    {
      hide Section.Agrees, Section.Apply, Section.Fold, Section.Fine;
      ReportedKeeps(shared, seen, ledger, v, now);
      seen := v;
      Note(Reported(v.action));
    }

    /** The action has been reported, and not before the last motion command. */
    twostate predicate Reports(action: Action)
      reads `ledger
    {
      && action in ledger.wire.answers
      && (action == Laying ==> ledger.wire.lays > old(ledger).wire.lays)
      && (action == EmergencyStop ==> ledger.wire.estops > old(ledger).wire.estops)
    }

    /** A motion report; Thrown leaves everything as it was. */
    method UpdateMotion(report: Report) returns (r: Outcome<()>)
      requires Valid()
      modifies `shared, `now, `seen, `tick, `log, `ledger
      ensures Heard()
      ensures r.Returned? <==> Stillness(report).Some?
      ensures seen == if r.Returned? then Observed(old(seen), report, now) else old(seen)
      ensures r.Returned? ==> Reports(report.action)
      ensures Silent() && report.Motion? && (report.action == Walking || !old(shared).ready) ==>
        shared == old(shared) && now == old(now)
    {
      hide Section.Agrees, Section.Hears;
      HearsOn();
      var still := Stillness(report);
      if still == None {
        StillHears(Here());
        return Thrown;
      }
      var latched := seen.latched || report.action == EmergencyStop;
      Mark(seen.(latched := latched));
      Adopt(report, still.value);
      r := Returned(());
    }

    /** The report is taken over; motion does not survive one of anything but walking. */
    method Adopt(report: Report, still: bool)
      requires Valid() && report.Motion? && (report.action == EmergencyStop ==> seen.latched)
      modifies `shared, `now, `seen, `tick, `log, `ledger
      ensures Heard() && Reports(report.action)
      ensures seen == old(seen).(action := report.action, reported := report.profile, still := still,
                                 connected := true, owned := old(seen).client == Controlled, replyAt := now)
      ensures Silent() && (report.action == Walking || !old(shared).ready) ==> shared == old(shared) && now == old(now)
    {
      hide Section.Agrees, Section.Hears;
      HearsOn();
      InhibitUnlessWalking(report.action);
      HearsWire(old(Here()), Here());
      Publish(seen.(action := report.action, reported := report.profile, still := still,
                    connected := true, owned := seen.client == Controlled, replyAt := now));
    }

    /** Control lost to someone else, or its lease ran out. */
    method LoseControl()
      requires Valid() && seen.client == Controlled
      modifies `shared, `now, `seen, `tick, `log, `ledger
      ensures Heard() && seen.client != Controlled
    {
      hide Section.Agrees, Section.Hears;
      HearsOn();
      DropControl();
      Interfere();
      Mark(seen.(owned := false));
    }

    method Hear(c: Callback)
      requires Valid()
      modifies `shared, `now, `seen, `tick, `log, `ledger
      ensures Heard() && TakesNoControl() && (c.ControlLost? ==> seen.client != Controlled)
      ensures c.MotionReply? && old(seen).pendingMotion.Some? ==> seen.pendingMotion == None
      ensures c.MotionReply? && old(seen).pendingMotion.Some? && c.ok && Stillness(c.report).Some? ==>
        seen.action == c.report.action && seen.replyAt == now
      ensures c.SystemReply? && old(seen).pendingSystem.Some? ==>
        seen == old(seen).(pendingSystem := None, systemAt := if c.ok then now else old(seen).systemAt)
      ensures c.MotionReply? && old(seen).pendingMotion == None ==> Here() == old(Here())
      ensures c.SystemReply? && old(seen).pendingSystem == None ==> Here() == old(Here())
    {
      hide Section.Agrees, Section.Hears;
      HearsOn();
      StillHears(Here());
      match c
      case ControlLost =>
        if seen.client == Controlled { LoseControl(); }
      case MotionReply(ok, report) =>
        if seen.pendingMotion.Some? {
          Mark(seen.(pendingMotion := None));
          if ok { var _ := UpdateMotion(report); }
        }
      case SystemReply(ok) =>
        if seen.pendingSystem.Some? {
          Mark(seen.(pendingSystem := None, systemAt := if ok then now else seen.systemAt));
        }
    }

    /** One robot call or one spin of the executor. */
    method Exchange() returns (r: Outcome<Reply>)
      requires Valid()
      modifies `shared, `now, `seen, `failure, `tick, `log, `ledger
      ensures Heard() && TakesNoControl()
      ensures Silent() && Answers() ==> Here() == old(Here()) && r.Returned? && Obliges(r.value)
      ensures Cooperates() ==>
        Here() == old(Here()) && r.Returned? && Consents(r.value, Answer())
      ensures r.Returned? ==> Said(r.value)
    {
      hide Section.Agrees, Section.Hears;
      HearsOn();
      Interfere();
      var reply := robot(tick);
      tick := tick + 1;
      for i := 0 to |reply.callbacks|
        invariant Heard() && TakesNoControl()
        invariant Silent() && reply.callbacks == [] ==> Here() == old(Here())
      {
        Interfere();
        Hear(reply.callbacks[i]);
      }
      failure := reply.failure;
      r := if reply.throws then Thrown else Returned(reply);
    }

    /** The command leaves: parameters or a stop command never under a report of an emergency stop. */
    method Issue(rpc: Rpc)
      requires Valid() && (rpc.SetParams? || rpc.StopAction? ==> seen.action != EmergencyStop)
      modifies `log, `ledger
      ensures Went() && Told(rpc)
    {
      hide Section.Agrees, Section.Apply, Section.Fold, Section.Fine;
      IssuedKeeps(shared, seen, ledger, rpc, now);
      Note(Issued(rpc));
    }

    /** A command to the robot under control, and its answer. */
    method Transmit(rpc: Rpc) returns (r: Outcome<bool>)
      requires Valid() && (rpc.SetParams? || rpc.StopAction? ==> seen.action != EmergencyStop)
      modifies `shared, `now, `seen, `failure, `tick, `log, `ledger
      ensures Went() && TakesNoControl() && Told(rpc)
      ensures Cooperates() ==> r == Returned(true) && Unmoved() && seen == old(seen)
    {
      hide Section.Inv, Section.Reaches, Section.Hears;
      ReachesOn();
      Interfere();
      ghost var w := Here();
      HearsWire(old(Here()), w);
      Issue(rpc);
      ghost var issued := Here();
      var reply := Exchange();
      HearsWire(issued, Here());
      r := if reply.Thrown? then Thrown else Returned(reply.value.ok);
    }

    /** A command to the robot, refused without control. */
    method Call(rpc: Rpc) returns (r: Outcome<bool>)
      requires Valid() && (rpc.SetParams? || rpc.StopAction? ==> seen.action != EmergencyStop)
      modifies `shared, `now, `seen, `failure, `tick, `log, `ledger
      ensures Went() && TakesNoControl()
      ensures if old(seen).client == Controlled then Told(rpc) else Heard() && r == Returned(false)
      ensures ledger.wire.offs == old(ledger).wire.offs
      ensures Cooperates() && old(seen).client == Controlled ==> r == Returned(true) && Unmoved() && seen == old(seen)
    {
      hide Section.Inv, Section.Reaches, Section.Hears;
      ReachesOn();
      if seen.client != Controlled {
        StillHears(Here());
        failure := OtherFailure;
        return Returned(false);
      }
      r := Transmit(rpc);
    }

    method QueryMotion() returns (r: Outcome<Option<Report>>)
      requires Valid()
      modifies `shared, `now, `seen, `failure, `tick, `log, `ledger
      ensures Heard() && TakesNoControl()
      ensures Silent() && Answers() ==> Here() == old(Here()) && r.Returned?
      ensures Silent() && Answers() && seen.client != Disconnected ==> r.value.Some? && Walks(r.value.value)
      ensures Cooperates() && old(seen).client != Disconnected ==>
        Here() == old(Here()) && r == Returned(Some(Answer()))
    {
      hide Section.Agrees, Section.Hears;
      if seen.client == Disconnected {
        StillHears(Here());
        return Returned(None);
      }
      var reply :- Exchange();
      r := Returned(if reply.ok then Some(reply.report) else None);
    }

    method StartControl() returns (r: Outcome<bool>)
      requires Valid()
      modifies `shared, `now, `seen, `failure, `tick, `log, `ledger
      ensures Heard() && (r == Returned(true) ==> seen.client == Controlled)
      ensures r == Returned(false) ==> seen.client != Controlled
      ensures Cooperates() && old(seen).client != Disconnected ==>
        r == Returned(true) && shared == old(shared) && now == old(now) && seen == old(seen).(client := Controlled)
    {
      hide Section.Inv, Section.Hears, Stillness;
      HearsOn();
      StillHears(Here());
      if seen.client == Disconnected { return Returned(false); }
      if seen.client == Controlled { return Returned(true); }
      var reply :- Exchange();
      if reply.ok {
        TakeControl();
        return Returned(true);
      }
      Disown();
      r := Returned(false);
    }

    /** Control is refused: motion off, and the robot is not ours. */
    method Disown()
      requires Valid()
      modifies `shared, `now, `seen, `tick, `log, `ledger
      ensures Heard() && seen == old(seen).(owned := false)
    {
      hide Section.Agrees, Section.Hears, Section.Apply;
      HearsOn();
      InhibitSection(Inhibited);
      Interfere();
      Mark(seen.(owned := false));
    }

    method TakeControl()
      requires Valid()
      modifies `seen, `log, `ledger
      ensures Heard() && seen == old(seen).(client := Controlled) && log == old(log) + [Stamp(now, Gained)]
    {
      hide Section.Agrees, Section.Hears, Section.Fold, Section.Fine;
      GainIsHeard(Here());
      seen := seen.(client := Controlled);
      Note(Gained);
    }

    /** The order to release: only listening, as far as motion goes. */
    method OrderRelease() returns (r: Outcome<bool>)
      requires Valid()
      modifies `shared, `now, `seen, `failure, `tick, `log, `ledger
      ensures Heard() && TakesNoControl()
      ensures old(seen).client == Controlled ==> ledger.wire.releases > old(ledger).wire.releases
      ensures Cooperates() && old(seen).client == Controlled ==> r == Returned(true)
    {
      hide Section.Inv, Section.Hears, Section.Reaches;
      r := Call(ReleaseCall);
      if old(seen).client == Controlled { ToldIsHeard(old(Here()), Here()); }
    }

    method ReleaseControl() returns (r: Outcome<bool>)
      requires Valid()
      modifies `shared, `now, `seen, `failure, `tick, `log, `ledger
      ensures Heard() && TakesNoControl()
      ensures r == Returned(true) ==> seen.client != Controlled
      ensures old(seen).client == Controlled ==> ledger.wire.releases > old(ledger).wire.releases
      ensures Cooperates() && old(seen).client == Controlled ==> r == Returned(true)
    {
      hide Section.Inv, Section.Hears, Section.Reaches;
      HearsOn();
      var ok :- OrderRelease();
      if !ok { return Returned(false); }
      ghost var w := Here();
      DropControl();
      Interfere();
      Mark(seen.(owned := false));
      HearsWire(w, Here());
      r := Returned(true);
    }

    /** Steps that enable nothing, but may send velocities or leave control without a callback. */
    twostate predicate Drove()
      reads `shared, `seen, `now, `log, `ledger
    {
      Valid() && Sends(old(Here()), Here())
    }

    /** Steps that only listen, but may leave control without a callback. */
    twostate predicate Left()
      reads `shared, `seen, `now, `log, `ledger
    {
      Valid() && Leaves(old(Here()), Here())
    }

    /** May leave control without the callback, so it is only called with motion off. */
    method DisconnectClient() returns (r: Outcome<()>)
      requires Valid() && (shared.ready ==> shared.quitting)
      modifies `shared, `now, `seen, `failure, `tick, `log, `ledger
      ensures Left() && TakesNoControl()
      ensures r.Returned? ==> seen.client == Disconnected
      ensures old(seen).client == Controlled ==> ledger.wire.releases > old(ledger).wire.releases
      ensures Cooperates() ==> r.Returned?
    {
      hide Section.Agrees, Section.Leaves;
      LeavesOn();
      StillHears(Here());
      if seen.client == Controlled { var _ :- ReleaseControl(); }
      EndSession();
      r := Returned(());
    }

    /** The client forgets its session; control that was still held ends with it. */
    method EndSession()
      requires Valid() && (shared.ready ==> shared.quitting)
      modifies `seen, `log, `ledger
      ensures Left() && seen == old(seen).(client := Disconnected)
      ensures ledger.wire.releases == old(ledger).wire.releases
    {
      hide Section.Agrees, Section.Apply, Section.Leaves, Section.Fold, Section.Fine;
      if seen.client == Controlled {
        LeavingLeaves(Here());
        seen := seen.(client := Disconnected);
        Note(Entry.Left);
      } else {
        SeenAlone(Here(), seen.(client := Disconnected));
        See(seen.(client := Disconnected));
      }
    }

    // ---------- Worker helpers ----------

    method Interrupted(token: nat) returns (b: bool)
      requires Valid()
      modifies `shared, `now, `tick, `log, `ledger
      ensures Heard() && b == (shared.quitting || shared.generation != token)
      ensures Silent() ==> Here() == old(Here())
    {
      hide Section.Agrees, Section.Hears;
      Interfere();
      b := shared.quitting || shared.generation != token;
    }

    predicate Still()
      reads `seen, `now
    {
      seen.still || now - seen.replyAt > opts.telemetryTimeout
    }

    method CancelQueries()
      requires Valid()
      modifies `seen
      ensures Heard() && seen == old(seen).(pendingMotion := None, pendingSystem := None)
    {
      hide Section.Agrees, Section.Hears;
      Mark(seen.(pendingMotion := None, pendingSystem := None));
    }

    /** Waiting for a notification, at most 20 ms; time passes. */
    method Pause()
      requires Valid()
      modifies `shared, `now, `tick, `log, `ledger
      ensures Heard() && now > old(now)
    {
      hide Section.Agrees, Section.Hears;
      HearsOn();
      Interfere();
      HearsTime(old(Here()), Here());
      TimePasses(Here(), now + 1);
      now := now + 1;
    }

    /** Whether the last report is the awaited one. */
    predicate Reached(action: Action, zero: bool, profile: Option<Profile>)
      reads `seen, `now
    {
      && seen.action == action && (zero ==> Still())
      && (profile == None || seen.reported == None || seen.reported == profile)
    }

    /** The last report does not contradict that profile. */
    predicate Profiled(profile: Profile)
      reads `seen
    {
      seen.reported == None || seen.reported == Some(profile)
    }

    /** Success of a confirmation: the report, and control held or lost with a new generation. */
    twostate predicate Confirmed(action: Action, zero: bool, profile: Option<Profile>)
      reads `shared, `seen, `now, `ledger
    {
      && Reached(action, zero, profile)
      && (seen.client == Controlled || shared.generation > old(shared).generation)
      && Reports(action)
    }

    /** Nothing keeps that confirmation from being had at once. */
    ghost predicate Confirmable(action: Action, token: nat, canCancel: bool, profile: Option<Profile>)
      reads `shared, `seen
    {
      && Cooperates() && Fits(profile) && Answer().action == action
      && seen.client == Controlled && (canCancel ==> Current(token)) && (action == Walking || !shared.ready)
    }

    /** One pass of the confirmation loop: an answer, or None to go on. */
    method Check(action: Action, zero: bool, token: nat, canCancel: bool, profile: Option<Profile>)
      returns (r: Outcome<Option<bool>>)
      requires Valid()
      modifies `shared, `now, `seen, `failure, `tick, `log, `ledger
      ensures Heard() && TakesNoControl()
      ensures r == Returned(Some(true)) ==> Confirmed(action, zero, profile)
      ensures old(Confirmable(action, token, canCancel, profile)) ==> r == Returned(Some(true)) && Unmoved()
    {
      hide Section.Inv, Section.Hears;
      HearsOn();
      StillHears(Here());
      if canCancel {
        var stopped := Interrupted(token);
        if stopped { return Returned(Some(false)); }
      }
      if seen.client != Controlled { return Returned(Some(false)); }
      HearsTime(old(Here()), Here());
      HearsWire(old(Here()), Here());
      var reached :- Look(action, zero, profile);
      r := Returned(if reached then Some(true) else None);
    }

    /** One look at the robot under control. */
    method Look(action: Action, zero: bool, profile: Option<Profile>) returns (r: Outcome<bool>)
      requires Valid() && seen.client == Controlled
      modifies `shared, `now, `seen, `failure, `tick, `log, `ledger
      ensures Heard() && TakesNoControl()
      ensures r == Returned(true) ==> Confirmed(action, zero, profile)
      ensures old(Confirmable(action, 0, false, profile)) ==> r == Returned(true) && Unmoved()
    {
      hide Section.Inv, Section.Hears, Stillness;
      HearsOn();
      var told :- AskReport();
      HearsControl(old(Here()), Here());
      r := Returned(told && Reached(action, zero, profile));
    }

    /** A motion report that is asked for and parsed; false when there is none. */
    method AskReport() returns (r: Outcome<bool>)
      requires Valid()
      modifies `shared, `now, `seen, `failure, `tick, `log, `ledger
      ensures Heard() && TakesNoControl() && (r == Returned(true) ==> Reports(seen.action))
      ensures Cooperates() && old(seen).client != Disconnected && (Answer().action == Walking || !old(shared).ready) ==>
        && r == Returned(true) && Unmoved()
        && seen.action == Answer().action && seen.still && seen.reported == Answer().profile
    {
      hide Section.Inv, Section.Hears;
      HearsOn();
      var report :- QueryMotion();
      if report == None { return Returned(false); }
      HearsWire(old(Here()), Here());
      var _ :- UpdateMotion(report.value);
      ghost var w := Here();
      Interfere();
      HearsWire(w, Here());
      r := Returned(true);
    }

    /** Polls until the robot reports the action; success means the last report does. */
    method Confirm(action: Action, zero: bool, token: nat, canCancel: bool, profile: Option<Profile>)
      returns (r: Outcome<bool>)
      requires Valid()
      modifies `shared, `now, `seen, `failure, `tick, `log, `ledger
      ensures Heard() && TakesNoControl()
      ensures r == Returned(true) ==> Confirmed(action, zero, profile)
      ensures old(Confirmable(action, token, canCancel, profile)) ==> r == Returned(true) && Unmoved()
    {
      hide Section.Inv, Section.Hears, Stillness;
      HearsOn();
      Interfere();
      var end := now + opts.actionTimeout;
      while now < end
        invariant Heard() && TakesNoControl()
        invariant old(Confirmable(action, token, canCancel, profile)) ==> Here() == old(Here())
        decreases end - now
      {
        HearsTime(old(Here()), Here());
        HearsWire(old(Here()), Here());
        var answer :- Attempt(action, zero, token, canCancel, profile);
        if answer.Some? { return Returned(answer.value); }
      }
      r := Returned(false);
    }

    /** One pass, and the pause after it. */
    method Attempt(action: Action, zero: bool, token: nat, canCancel: bool, profile: Option<Profile>)
      returns (r: Outcome<Option<bool>>)
      requires Valid()
      modifies `shared, `now, `seen, `failure, `tick, `log, `ledger
      ensures Heard() && TakesNoControl() && (r == Returned(None) ==> now > old(now))
      ensures r == Returned(Some(true)) ==> Confirmed(action, zero, profile)
      ensures old(Confirmable(action, token, canCancel, profile)) ==> r == Returned(Some(true)) && Unmoved()
    {
      hide Section.Inv, Section.Hears, Stillness;
      HearsOn();
      var answer :- Check(action, zero, token, canCancel, profile);
      if answer.Some? { return Returned(answer); }
      HearsTime(old(Here()), Here());
      ghost var w := Here();
      var _ :- Exchange();
      HearsTime(w, Here());
      Pause();
      r := Returned(None);
    }

    // ---------- Stopping ----------

    /** What a successful stop found: the robot walking in place, or standing still in its own emergency stop. */
    ghost predicate Stopped(before: Seen, generation: nat)
      reads `shared, `seen, `plan, `now
    {
      && !plan.halt && Still()
      && (seen.client == Controlled || shared.generation > generation)
      && seen.action == (if before.latched && before.action == EmergencyStop then EmergencyStop else Walking)
    }

    /** A robot still under control is not left moving, unless something newer takes over. */
    twostate predicate LeftStopped(token: nat)
      reads `shared, `seen, `now, `log, `ledger
    {
      shared.generation == token && !shared.quitting && seen.client == Controlled ==> Stops(old(Here()), Here())
    }

    /** Standing still, as the last report has it. */
    predicate AtRest()
      reads `seen, `now
    {
      (seen.action == Walking || seen.action == EmergencyStop) && Still()
    }

    /** Something newer than that preparation takes over; the worker has not switched motion off by itself. */
    twostate predicate Overtaken(token: nat)
      reads `shared, `ledger
    {
      ledger.wire.offs == old(ledger).wire.offs && (shared.quitting || shared.generation != token)
    }

    /** A robot still under control was last told to stop, or it reported an emergency stop. */
    twostate predicate LastStopped()
      reads `seen, `ledger
    {
      seen.client == Controlled ==>
        || ledger.wire.latest == Order(StopAction)
        || old(seen).action == EmergencyStop || old(ledger).wire.estops < ledger.wire.estops
    }

    /** And it was then seen standing, or the stop is left to recover. */
    twostate predicate GivenUp()
      reads `seen, `now, `ledger, `plan
    {
      LastStopped() && (seen.client == Controlled ==> plan.halt || AtRest())
    }

    method ConfirmStopped(action: Action, canCancel: bool) returns (r: Outcome<bool>)
      requires Valid()
      modifies `shared, `now, `seen, `plan, `failure, `tick, `log, `ledger
      ensures Heard() && TakesNoControl()
      ensures r == Thrown ==> plan == old(plan)
      ensures r.Returned? ==> plan == old(plan).(halt := !r.value)
      ensures r == Returned(true) ==> seen.action == action && Still() && Reports(action)
      ensures r == Returned(true) ==> seen.client == Controlled || shared.generation > old(shared).generation
      ensures old(Confirmable(action, shared.generation, canCancel, None)) ==>
        r == Returned(true) && Unmoved()
    {
      hide Section.Inv, Section.Hears;
      HearsOn();
      Interfere();
      HearsTime(old(Here()), Here());
      HearsWire(old(Here()), Here());
      var ok :- Confirm(action, true, shared.generation, canCancel, None);
      plan := plan.(halt := !ok);
      r := Returned(ok);
    }

    /** A stopping command and its confirmation; a stop that is not confirmed stays to be recovered. */
    method StopWith(rpc: Rpc, action: Action, canCancel: bool) returns (r: Outcome<bool>)
      requires Valid() && (rpc == StopAction || rpc == EmergencyStopCall)
      requires rpc == StopAction ==> seen.action != EmergencyStop
      modifies `shared, `now, `seen, `plan, `failure, `tick, `log, `ledger
      ensures Went() && TakesNoControl()
      ensures r == Thrown ==> plan == old(plan)
      ensures r.Returned? ==> plan == old(plan).(halt := !r.value)
      ensures r == Returned(true) ==> seen.action == action && Still() && Reports(action) && Told(rpc)
      ensures r == Returned(true) ==> seen.client == Controlled || shared.generation > old(shared).generation
      ensures old(seen).client == Controlled ==> Told(rpc)
      ensures old(Confirmable(action, shared.generation, canCancel, None)) ==> r == Returned(true) && Unmoved()
    {
      hide Section.Inv, Section.Hears, Section.Reaches;
      ReachesOn();
      var sent :- Call(rpc);
      if !sent {
        plan := plan.(halt := true);
        return Returned(false);
      }
      ghost var w := Here();
      ReachesMeans(old(Here()), w);
      r := ConfirmStopped(action, canCancel);
      HearsWire(w, Here());
    }

    /** The wire shows the stop and the report that confirmed it. */
    twostate predicate Halts()
      reads `ledger
    {
      Halting(old(ledger).wire, ledger.wire)
    }

    /** The stop command to a robot that is not in an emergency stop. */
    method StopWalking(canCancel: bool) returns (r: Outcome<bool>)
      requires Valid() && seen.client == Controlled && seen.action != EmergencyStop
      modifies `shared, `now, `seen, `plan, `failure, `tick, `log, `ledger
      ensures Went() && Told(StopAction)
      ensures plan == old(plan).(halt := plan.halt, escalated := plan.escalated)
      ensures r == Returned(false) ==> plan.halt
      ensures r == Thrown ==> plan.halt == old(plan).halt
      ensures r == Returned(true) ==> Stopped(old(seen), old(shared).generation) && !plan.escalated && Halts()
      ensures old(Confirmable(Walking, shared.generation, canCancel, None)) ==> r == Returned(true) && Unmoved()
    {
      hide Section.Inv, Section.Hears, Section.Reaches, Section.Halting;
      r := StopWith(StopAction, Walking, canCancel);
      if r == Returned(true) {
        StopHalts(old(ledger).wire, ledger.wire);
        plan := plan.(escalated := false);
      }
    }

    /** The report that confirms a stop. */
    ghost function Rest(): Action
      reads `seen
    {
      if seen.latched && seen.action == EmergencyStop then EmergencyStop else Walking
    }

    /** A cooperative robot reports what the stop waits for. */
    ghost predicate Stoppable(canCancel: bool)
      reads `shared, `seen
    {
      Confirmable(Rest(), shared.generation, canCancel, None)
    }

    method StopOwned(canCancel: bool) returns (r: Outcome<bool>)
      requires Valid() && seen.client == Controlled
      modifies `shared, `now, `seen, `plan, `failure, `tick, `log, `ledger
      ensures Went() && Halted()
      ensures plan == old(plan).(halt := plan.halt, escalated := plan.escalated)
      ensures r == Returned(false) ==> plan.halt
      ensures r == Thrown ==> plan.halt == old(plan).halt
      ensures r == Returned(true) ==> Stopped(old(seen), old(shared).generation) && Halts()
      ensures r == Returned(true) && !(old(seen).latched && old(seen).action == EmergencyStop) ==> !plan.escalated
      ensures !(old(seen).latched && old(seen).action == EmergencyStop) ==> Told(StopAction)
      ensures ledger.wire.offs == old(ledger).wire.offs && (r == Returned(true) || r == Returned(false) ==> GivenUp())
      ensures old(Stoppable(canCancel)) ==> r == Returned(true) && Unmoved()
    {
      hide Section.Agrees, Section.Hears, Section.Reaches;
      ReachesOn();
      if seen.latched && seen.action == EmergencyStop {
        r := ConfirmStopped(EmergencyStop, canCancel);
        HearsWire(old(Here()), Here());
      } else {
        r := StopWalking(canCancel);
      }
    }

    /** Without control there is nothing of ours to stop. */
    method Stop(canCancel: bool) returns (r: Outcome<bool>)
      requires Valid()
      modifies `shared, `now, `seen, `plan, `failure, `tick, `log, `ledger
      ensures Went() && Halted() && TakesNoControl()
      ensures plan == old(plan).(active := false, halt := plan.halt, escalated := plan.escalated)
      ensures r == Returned(false) ==> plan.halt
      ensures r == Thrown ==> plan.halt == old(plan).halt
      ensures r == Returned(true) && old(seen).client == Controlled ==>
        Stopped(old(seen), old(shared).generation) && Halts()
      ensures r == Returned(true) && old(seen).client != Controlled ==>
        plan.halt == old(plan).halt && Here() == old(Here())
      ensures old(seen).client == Controlled && !(old(seen).latched && old(seen).action == EmergencyStop) ==>
        Told(StopAction)
      ensures old(Orderly()) && r == Returned(true) ==> Orderly()
      ensures ledger.wire.offs == old(ledger).wire.offs && (r == Returned(true) || r == Returned(false) ==> GivenUp())
      ensures old(Stoppable(canCancel)) ==> r == Returned(true) && Unmoved()
    {
      hide Section.Agrees, Section.Hears, Section.Reaches, Section.Stops;
      ReachesOn();
      plan := plan.(active := false);
      if seen.client != Controlled {
        StillHears(Here());
        return Returned(true);
      }
      r := StopOwned(canCancel);
      ReachesMeans(old(Here()), Here());
    }

    /** Control that is still held is given back. */
    method LetGo() returns (r: Outcome<bool>)
      requires Valid()
      modifies `shared, `now, `seen, `failure, `tick, `log, `ledger
      ensures Heard() && (r == Returned(true) ==> seen.client != Controlled && !seen.owned)
      ensures r == Returned(true) && old(seen).client == Controlled ==> ledger.wire.releases > old(ledger).wire.releases
      ensures r == Returned(false) ==> ledger.wire.releases > old(ledger).wire.releases
      ensures Cooperates() ==> r == Returned(true)
    {
      hide Section.Inv, Section.Hears, Section.Reaches;
      HearsOn();
      StillHears(Here());
      if seen.client == Controlled {
        var released :- ReleaseControl();
        if !released { return Returned(false); }
      }
      ghost var w := Here();
      Interfere();
      HearsWire(w, Here());
      Mark(seen.(owned := false));
      r := Returned(true);
    }

    /** A robot under control is stopped, then released; or control was lost on the way. */
    method Release(canCancel: bool) returns (r: Outcome<bool>)
      requires Valid()
      modifies `shared, `now, `seen, `plan, `failure, `tick, `log, `ledger
      ensures Went() && Halted()
      ensures plan == old(plan).(active := plan.active, halt := plan.halt, escalated := plan.escalated)
      ensures r == Returned(true) ==> seen.client != Controlled
      ensures r == Returned(true) && old(seen).client == Controlled ==>
        !plan.halt && ledger.wire.losses > old(ledger).wire.losses && Halts()
      ensures r == Returned(false) ==>
        old(seen).client == Controlled && (plan.halt || ledger.wire.releases > old(ledger).wire.releases)
      ensures old(seen.client == Controlled ==> Stoppable(canCancel)) && Cooperates() ==> r == Returned(true)
    {
      hide Section.Inv, Section.Hears, Section.Reaches, Section.Stops, Section.Halting, Stillness;
      ReachesOn();
      StopsOn();
      CancelQueries();
      if seen.client != Controlled { return Returned(true); }
      ghost var w := Here();
      HearsWire(old(Here()), w);
      CancelStops(old(Here()), w);
      r := StopAndLetGo(canCancel);
      if r == Returned(true) { HaltingFrom(old(ledger).wire, w.ledger.wire, ledger.wire); }
    }

    method StopAndLetGo(canCancel: bool) returns (r: Outcome<bool>)
      requires Valid() && seen.client == Controlled
      modifies `shared, `now, `seen, `plan, `failure, `tick, `log, `ledger
      ensures Went() && Halted()
      ensures plan == old(plan).(active := plan.active, halt := plan.halt, escalated := plan.escalated)
      ensures r == Returned(true) ==> seen.client != Controlled
      ensures r == Returned(true) ==> !plan.halt && ledger.wire.losses > old(ledger).wire.losses && Halts()
      ensures r == Returned(false) ==> plan.halt || ledger.wire.releases > old(ledger).wire.releases
      ensures old(Stoppable(canCancel)) ==> r == Returned(true)
    {
      hide Section.Inv, Section.Hears, Section.Reaches, Section.Stops, Section.Halting, Stillness;
      ReachesOn();
      StopsOn();
      var stopped :- Stop(canCancel);
      if !stopped { return Returned(false); }
      ghost var w := Here();
      ReachesMeans(old(Here()), w);
      r := LetGo();
      HearsWire(w, Here());
      HaltingOn(old(ledger).wire, w.ledger.wire, ledger.wire);
      ReachesMeans(old(Here()), Here());
    }

    method SoftEstop() returns (r: Outcome<bool>)
      requires Valid() && !shared.ready
      modifies `shared, `now, `seen, `plan, `failure, `tick, `log, `ledger
      ensures Went() && seen.latched
      ensures plan == old(plan).(active := false, halt := plan.halt)
      ensures r == Returned(true) ==> seen.action == EmergencyStop && Still() && !plan.halt
      ensures r == Returned(true) ==> Told(EmergencyStopCall) && Reports(EmergencyStop)
      ensures r == Returned(false) ==> plan.halt || old(seen).client != Controlled
      ensures old(seen).client == Controlled ==> Told(EmergencyStopCall)
      ensures old(Confirmable(EmergencyStop, shared.generation, false, None)) ==> r == Returned(true)
    {
      hide Section.Inv, Section.Hears, Section.Reaches;
      ReachesOn();
      CancelQueries();
      Mark(seen.(latched := true));
      ghost var w := Here();
      plan := plan.(active := false);
      if seen.client != Controlled { return Returned(false); }
      r := StopWith(EmergencyStopCall, EmergencyStop, false);
      ReachesMeans(w, Here());
    }

    method AbortOnException()
      requires Valid()
      modifies `shared, `now, `seen, `plan, `failure, `tick, `log, `ledger
      ensures Went() && !shared.ready && TakesNoControl()
      ensures plan == old(plan).(active := plan.active, halt := plan.halt)
      ensures old(seen).client == Controlled ==> plan.halt && !plan.active && seen.latched
      ensures old(seen).client == Controlled ==>
        ledger.wire.latest == Order(EmergencyStopCall) && ledger.wire.emergencies > old(ledger).wire.emergencies
    {
      hide Section.Inv, Section.Hears, Section.Reaches;
      ReachesOn();
      DisableMotion();
      if seen.client != Controlled { return; }
      plan := plan.(active := false, halt := true);
      Mark(seen.(latched := true));
      ghost var w := Here();
      ReachesMeans(old(Here()), w);
      var _ := Call(EmergencyStopCall);
      ReachesMeans(w, Here());
    }

    // ---------- Preparing ----------

    /** Why control is not had: overtaken, not connected, not capable, or not given. */
    predicate Unavailable(token: nat)
      reads `shared, `seen, `plan
    {
      shared.quitting || shared.generation != token || !seen.connected || !plan.capable || seen.client != Controlled
    }

    /** Control can be had for that request. */
    ghost predicate Available(token: nat)
      reads `shared, `seen, `plan
    {
      Cooperates() && Current(token) && seen.connected && plan.capable && seen.client != Disconnected
    }

    method Acquire(token: nat) returns (r: Outcome<bool>)
      requires Valid()
      modifies `shared, `now, `seen, `failure, `tick, `log, `ledger
      ensures Heard() && (r == Returned(true) ==> seen.client == Controlled && seen.owned && Current(token))
      ensures !old(seen).connected || !plan.capable ==> r == Returned(false) && seen == old(seen)
      ensures r == Returned(false) && token <= old(shared).generation ==> Unavailable(token)
      ensures old(Available(token)) ==>
        && r == Returned(true) && shared == old(shared) && now == old(now)
        && seen == old(seen).(client := Controlled, owned := true)
    {
      hide Section.Agrees, Section.Hears;
      HearsOn();
      var canceled := Interrupted(token);
      HearsTime(old(Here()), Here());
      if canceled || !seen.connected || !plan.capable { return Returned(false); }
      var taken :- StartControl();
      if !taken { return Returned(false); }
      canceled := Interrupted(token);
      if canceled { return Returned(false); }
      Mark(seen.(owned := true));
      r := Returned(true);
    }

    /** Steps of one job that may enable motion. */
    twostate predicate Proceeded()
      reads `shared, `seen, `now, `log, `ledger
    {
      Valid() && Proceeds(old(Here()), Here())
    }

    /** Motion off, and the token of the running preparation. */
    ghost predicate Preparing(token: nat)
      reads `shared, `seen, `now, `log, `ledger
    {
      Prepping(Here(), token)
    }

    /** The section at the end of a preparation. */
    method EnableMotion(token: nat) returns (enabled: bool)
      requires Valid() && Preparing(token)
      requires seen.action == Walking && (seen.client == Controlled || shared.generation > token)
      requires ledger.wire.latest != Motion.Drive
      modifies `shared, `now, `tick, `log, `ledger
      ensures Proceeded() && (!enabled ==> Heard() && (shared.quitting || shared.generation != token))
      ensures enabled ==> shared.ready && !shared.quitting && shared.generation == token && shared.stops == 0
      ensures enabled ==> ledger.gate.failing == None && ledger.wire.latest == old(ledger).wire.latest
      ensures ledger.hand == if enabled then Enabling(old(ledger).hand) else old(ledger).hand
      ensures enabled ==> log != [] && log[|log| - 1] == Stamp(now, Enabled(token))
      ensures Silent() && old(Current(token)) ==> enabled
    {
      hide Section.Agrees, Section.Hears, Section.Reaches, Section.Proceeds, Section.Prepping;
      PreparingOn();
      ReachesOn();
      ProceedsOn();
      Interfere();
      HearsTime(old(Here()), Here());
      HearsWire(old(Here()), Here());
      if shared.quitting || shared.generation != token { return false; }
      enabled := Enable(token);
    }

    method Enable(token: nat) returns (enabled: bool)
      requires Valid() && Preparing(token) && !shared.quitting && shared.generation == token
      requires seen.action == Walking && seen.client == Controlled && ledger.wire.latest != Motion.Drive
      modifies `shared, `log, `ledger
      ensures enabled && Proceeded() && shared == old(shared).(velocity := None, ready := true) && shared.stops == 0
      ensures ledger.gate.failing == None && ledger.wire == old(ledger).wire
      ensures ledger.hand == Enabling(old(ledger).hand) && log == old(log) + [Stamp(now, Enabled(token))]
    {
      hide Section.Agrees;
      EnableKeeps(shared, seen, ledger, now);
      Commit(shared.(velocity := None, ready := true), Enabled(token));
      enabled := true;
    }

    /** Motion comes on exactly when the preparation succeeds, and then in good order. */
    twostate predicate Settles(new r: Outcome<bool>)
      reads `shared, `seen, `now, `log, `ledger, `plan
    {
      && Proceeded()
      && (shared.ready <==> r == Returned(true))
      && (ledger.hand.run == if r == Returned(true) then Enabling(old(ledger).hand).run else old(ledger).hand.run)
      && Orderly()
    }

    /** A new controller needs the action started, an owned walking session may do with parameters. */
    ghost predicate Started(latest: Motion, existing: bool) {
      latest == Order(StartAction(Walking)) || (existing && latest == Order(SetParams(opts.profile)))
    }

    /** A cooperative robot is walking in place, in that profile. */
    ghost predicate Walkable(profile: Profile)
    {
      Cooperates() && Fits(Some(profile)) && Answer().action == Walking
    }

    /** An owned walking session only needs parameters; any other needs the action started. */
    method StartWalking(existing: bool, token: nat) returns (r: Outcome<bool>)
      requires Valid()
      modifies `shared, `now, `seen, `failure, `tick, `log, `ledger
      ensures Went()
      ensures r == Returned(true) ==> Confirmed(Walking, true, Some(opts.profile))
      ensures r == Returned(true) ==>
        var rpc := if existing && old(seen).action == Walking then SetParams(opts.profile) else StartAction(Walking);
        ledger.wire.latest == Order(rpc)
      ensures old(Confirmable(Walking, token, true, Some(opts.profile))) ==> r == Returned(true) && Unmoved()
    {
      hide Section.Agrees, Section.Hears, Section.Reaches;
      ReachesOn();
      var rpc := if existing && seen.action == Walking then SetParams(opts.profile) else StartAction(Walking);
      var accepted :- Call(rpc);
      if !accepted { return Returned(false); }
      ghost var w := Here();
      ReachesMeans(old(Here()), w);
      r := Confirm(Walking, true, token, true, Some(opts.profile));
      HearsWire(w, Here());
    }

    /** Control and a first report; None when canceled or refused, false when the report failed. */
    method AskFirst(token: nat) returns (r: Outcome<Option<bool>>)
      requires Valid()
      modifies `shared, `now, `seen, `failure, `tick, `log, `ledger
      ensures Heard()
      ensures Walkable(opts.profile) && old(Available(token)) ==>
        && r == Returned(Some(true)) && shared == old(shared) && now == old(now) && seen.client == Controlled
        && seen.action == Walking
    {
      hide Section.Agrees, Section.Hears;
      HearsOn();
      var acquired :- Acquire(token);
      if !acquired { return Returned(None); }
      var report :- QueryMotion();
      if report == None { return Returned(Some(false)); }
      var _ :- UpdateMotion(report.value);
      var canceled := Interrupted(token);
      r := Returned(if canceled then None else Some(true));
    }

    /** The robot's side of stand: control, a first report, walking; None when canceled or refused. */
    method PrepareWalking(token: nat) returns (r: Outcome<Option<bool>>)
      requires Valid()
      modifies `shared, `now, `seen, `failure, `tick, `log, `ledger
      ensures Went()
      ensures r == Returned(None) ==> Heard()
      ensures r == Returned(Some(true)) ==> Confirmed(Walking, true, Some(opts.profile))
      ensures r == Returned(Some(true)) ==> Started(ledger.wire.latest, old(seen).client == Controlled)
      ensures Walkable(opts.profile) && old(Available(token)) ==>
        && r == Returned(Some(true)) && shared == old(shared) && now == old(now) && seen.client == Controlled
        && seen.action == Walking
      ensures Walkable(opts.profile) && old(Available(token) && seen.client == Controlled) ==>
        ledger.wire.latest == Order(SetParams(opts.profile))
    {
      hide Section.Agrees, Section.Hears, Section.Reaches;
      ReachesOn();
      var existing := seen.client == Controlled;
      var first :- AskFirst(token);
      if first != Some(true) { return Returned(first); }
      HearsTime(old(Here()), Here());
      var walking :- StartWalking(existing, token);
      r := Returned(Some(walking));
    }

    method StopAndRelease(token: nat) returns (r: Outcome<()>)
      requires Valid()
      modifies `shared, `now, `seen, `plan, `failure, `tick, `log, `ledger
      ensures Went() && LeftStopped(token) && (r.Returned? ==> LastStopped() || Overtaken(token))
    {
      hide Section.Inv, Section.Hears, Section.Reaches, Section.Stops;
      ReachesOn();
      StopsOn();
      var canceled := Interrupted(token);
      HearsTime(old(Here()), Here());
      HearsWire(old(Here()), Here());
      if canceled { return Returned(()); }
      ReachesMeans(old(Here()), Here());
      var stopped :- Stop(false);
      assert if stopped then LastStopped() else LastStopped();
      ghost var w := Here();
      StillHears(w);
      if stopped { var _ :- ReleaseControl(); }
      HearsWire(w, Here());
      r := Returned(());
    }

    method Stand(token: nat) returns (r: Outcome<bool>)
      requires Valid() && Preparing(token)
      modifies `shared, `now, `seen, `plan, `failure, `tick, `log, `ledger
      ensures Settles(r) && (old(plan).halt ==> r == Returned(false) && Here() == old(Here()))
      ensures r == Returned(true) ==>
        !seen.latched && seen.action == Walking && Still() && plan.selected == opts.profile && Profiled(opts.profile)
      ensures r == Returned(true) ==> Started(ledger.wire.latest, old(seen).client == Controlled)
      ensures r == Returned(false) ==> LeftStopped(token) || ledger.wire.latest == old(ledger).wire.latest
      ensures r == Returned(false) ==>
        LastStopped() || shared.quitting || shared.generation != token || ledger.wire.latest == old(ledger).wire.latest
      ensures Walkable(opts.profile) && old(Available(token) && !plan.halt) ==> r == Returned(true)
      ensures Walkable(opts.profile) && old(Available(token) && seen.client == Controlled && !plan.halt) ==>
        ledger.wire.latest == Order(SetParams(opts.profile))
    {
      hide Section.Inv, Section.Hears, Section.Reaches, Section.Proceeds, Section.Prepping, Section.Stops;
      ReachesOn();
      PreparingOn();
      ProceedsOn();
      StopsOn();
      if plan.halt {
        StillHears(Here());
        PreparingMeans(Here(), token);
        return Returned(false);
      }
      CancelQueries();
      HearsWire(old(Here()), Here());
      CancelStops(old(Here()), Here());
      r := WalkAndEnable(token);
    }

    /** Walking confirmed, then motion enabled; or the robot is stopped again. */
    method WalkAndEnable(token: nat) returns (r: Outcome<bool>)
      requires Valid() && Preparing(token) && !plan.halt
      modifies `shared, `now, `seen, `plan, `failure, `tick, `log, `ledger
      ensures Settles(r)
      ensures r == Returned(true) ==>
        !seen.latched && seen.action == Walking && Still() && plan.selected == opts.profile && Profiled(opts.profile)
      ensures r == Returned(true) ==> Started(ledger.wire.latest, old(seen).client == Controlled)
      ensures r == Returned(false) ==> LeftStopped(token) || ledger.wire.latest == old(ledger).wire.latest
      ensures r == Returned(false) ==>
        LastStopped() || shared.quitting || shared.generation != token || ledger.wire.latest == old(ledger).wire.latest
      ensures Walkable(opts.profile) && old(Available(token)) ==> r == Returned(true)
      ensures Walkable(opts.profile) && old(Available(token) && seen.client == Controlled) ==>
        ledger.wire.latest == Order(SetParams(opts.profile))
    {
      hide Section.Agrees, Section.Hears, Section.Reaches, Section.Proceeds, Section.Prepping, Section.Stops;
      hide Stillness, Section.Fresh;
      ReachesOn();
      PreparingOn();
      ProceedsOn();
      StopsOn();
      RunOn();
      ghost var w := Here();
      var walking :- PrepareWalking(token);
      if walking == None {
        HearsWire(w, Here());
        return Returned(false);
      }
      ghost var w1 := Here();
      ReachesMeans(w, w1);
      if !walking.value {
        var _ :- StopAndRelease(token);
        ReachesMeans(w1, Here());
        return Returned(false);
      }
      PreparingMeans(w, token);
      r := EnableStanding(token);
    }

    /** The end of a successful stand. */
    method EnableStanding(token: nat) returns (r: Outcome<bool>)
      requires Valid() && Preparing(token) && !plan.halt && ledger.wire.latest != Motion.Drive
      requires seen.action == Walking && Still() && (seen.client == Controlled || shared.generation > token)
      requires Profiled(opts.profile)
      modifies `shared, `now, `seen, `plan, `failure, `tick, `log, `ledger
      ensures Settles(r) && (r == Returned(true) || r == Returned(false))
      ensures r == Returned(true) ==>
        !seen.latched && seen.action == Walking && Still() && plan.selected == opts.profile && Profiled(opts.profile)
      ensures r == Returned(true) ==> ledger.wire.latest == old(ledger).wire.latest
      ensures r == Returned(false) ==> shared.quitting || shared.generation != token
      ensures Silent() && old(Current(token)) ==> r == Returned(true)
    {
      hide Section.Agrees, Section.Hears, Section.Reaches, Section.Proceeds, Section.Prepping;
      ReachesOn();
      ProceedsOn();
      PreparingMeans(Here(), token);
      var enabled := EnableMotion(token);
      ProceedsMeans(old(Here()), Here());
      if !enabled {
        HearsReady(old(Here()), Here());
        return Returned(false);
      }
      plan := plan.(selected := opts.profile, active := false);
      SeenAlone(Here(), seen.(latched := false));
      See(seen.(latched := false));
      r := Returned(true);
    }

    /** The new parameters, with zero velocity, and their confirmation. */
    method ApplyParams(profile: Profile, token: nat) returns (r: Outcome<bool>)
      requires Valid() && seen.action == Walking
      modifies `shared, `now, `seen, `failure, `tick, `log, `ledger
      ensures Went()
      ensures r == Returned(true) ==> Confirmed(Walking, true, Some(profile))
      ensures r == Returned(true) ==> ledger.wire.latest == Order(SetParams(profile))
      ensures ledger.wire.offs == old(ledger).wire.offs
      ensures old(Confirmable(Walking, token, true, Some(profile))) ==> r == Returned(true) && Unmoved()
    {
      hide Section.Inv, Section.Hears, Section.Reaches;
      ReachesOn();
      var sent :- Call(SetParams(profile));
      if !sent { return Returned(false); }
      ghost var w := Here();
      ReachesMeans(old(Here()), w);
      r := Confirm(Walking, true, token, true, Some(profile));
      HearsWire(w, Here());
    }

    /** After the stop of a profile change; None when canceled. */
    method Reapply(stopped: bool, profile: Profile, token: nat) returns (r: Outcome<Option<bool>>)
      requires Valid() && (stopped ==> seen.action == Walking) && token <= shared.generation
      modifies `shared, `now, `seen, `failure, `tick, `log, `ledger
      ensures Went()
      ensures r == Returned(Some(true)) ==> stopped && seen.action == Walking && Still() && Profiled(profile)
      ensures r == Returned(Some(true)) ==> seen.client == Controlled || shared.generation > old(shared).generation
      ensures r == Returned(Some(true)) ==> ledger.wire.latest == Order(SetParams(profile))
      ensures r == Returned(None) ==> Overtaken(token)
      ensures ledger.wire.offs == old(ledger).wire.offs
      ensures stopped && old(Confirmable(Walking, token, true, Some(profile))) ==>
        r == Returned(Some(true)) && Unmoved()
    {
      hide Section.Inv, Section.Hears, Section.Reaches;
      ReachesOn();
      var ok := stopped;
      var canceled := Interrupted(token);
      ghost var w0 := Here();
      HearsTime(old(Here()), w0);
      HearsWire(old(Here()), w0);
      StillHears(w0);
      if ok && !canceled { ok :- ApplyParams(profile, token); }
      ghost var w := Here();
      ReachesMeans(w0, w);
      canceled := Interrupted(token);
      HearsWire(w, Here());
      if canceled { return Returned(None); }
      HearsTime(w, Here());
      r := Returned(Some(ok));
    }

    /** Stopping, the new parameters and their confirmation; None when canceled. */
    method ChangeParams(profile: Profile, token: nat) returns (r: Outcome<Option<bool>>)
      requires Valid() && seen.client == Controlled && !seen.latched && token <= shared.generation
      modifies `shared, `now, `seen, `plan, `failure, `tick, `log, `ledger
      ensures Went() && ledger.wire.stops > old(ledger).wire.stops
      ensures r == Returned(Some(true)) ==> seen.action == Walking && Still() && !plan.halt && Profiled(profile)
      ensures r == Returned(Some(true)) ==> seen.client == Controlled || shared.generation > old(shared).generation
      ensures r == Returned(Some(true)) ==> ledger.wire.latest == Order(SetParams(profile))
      ensures r == Returned(None) ==> Overtaken(token)
      ensures ledger.wire.offs == old(ledger).wire.offs
      ensures old(Confirmable(Walking, token, true, Some(profile))) ==> r == Returned(Some(true)) && Unmoved()
    {
      hide Section.Inv, Section.Hears, Section.Reaches;
      ReachesOn();
      CancelQueries();
      HearsWire(old(Here()), Here());
      ghost var w0 := Here();
      var stopped :- Stop(true);
      ghost var w1 := Here();
      ReachesMeans(w0, w1);
      r := Reapply(stopped, profile, token);
      ReachesMeans(w1, Here());
    }

    /** A controlled walking session with a recent report, and no stop to recover. */
    ghost predicate Healthy()
      reads `seen, `plan, `now
    {
      && !plan.halt && !seen.latched && seen.client == Controlled && seen.action == Walking
      && now - seen.replyAt <= opts.telemetryTimeout
    }

    /** The source's test before a profile change. */
    method Switchable(token: nat) returns (ok: bool)
      requires Valid()
      modifies `shared, `now, `tick, `log, `ledger
      ensures Heard()
      ensures ok ==> !plan.halt && !seen.latched && seen.client == Controlled && seen.action == Walking
      ensures ok ==> now - seen.replyAt <= opts.telemetryTimeout
      ensures Silent() ==> Here() == old(Here()) && (ok <==> old(Current(token) && Healthy()))
    {
      hide Section.Agrees, Section.Hears;
      HearsOn();
      var canceled := Interrupted(token);
      Interfere();
      ok := !canceled && !plan.halt && !seen.latched && seen.client == Controlled && seen.action == Walking
            && now - seen.replyAt <= opts.telemetryTimeout;
    }

    method StopUnlessCanceled(token: nat) returns (r: Outcome<bool>)
      requires Valid()
      modifies `shared, `now, `seen, `plan, `failure, `tick, `log, `ledger
      ensures Went() && r != Returned(true) && LeftStopped(token)
      ensures r == Returned(false) ==> GivenUp() || Overtaken(token)
    {
      hide Section.Agrees, Section.Hears, Section.Reaches, Section.Stops;
      ReachesOn();
      StopsOn();
      var canceled := Interrupted(token);
      ghost var w := Here();
      HearsTime(old(Here()), w);
      HearsWire(old(Here()), w);
      ReachesMeans(old(Here()), w);
      if canceled || seen.client != Controlled { return Returned(false); }
      var stopped := Stop(false);
      ReachesMeans(w, Here());
      if stopped.Thrown? { return Thrown; }
      assert if stopped.value then stopped == Returned(true) else stopped == Returned(false);
      r := Returned(false);
    }

    /** Motion off, then a stop. */
    method DisableAndStop(canCancel: bool) returns (r: Outcome<()>)
      requires Valid()
      modifies `shared, `now, `seen, `plan, `failure, `tick, `log, `ledger
      ensures Went() && !shared.ready && Halted() && shared.generation > old(shared).generation
      ensures TakesNoControl() && ledger.wire.offs > old(ledger).wire.offs
      ensures r.Returned? ==> GivenUp()
      ensures plan == old(plan).(active := false, halt := plan.halt, escalated := plan.escalated)
    {
      hide Section.Inv, Section.Hears, Section.Reaches, Section.Stops;
      ReachesOn();
      StopsOn();
      Interfere();
      ghost var w0 := Here();
      HearsWire(old(Here()), w0);
      HearsTime(old(Here()), w0);
      DisableMotion();
      ghost var w := Here();
      var stopped := Stop(canCancel);
      ReachesMeans(w, Here());
      ReachesMeans(old(Here()), w);
      if stopped.Thrown? { return Thrown; }
      assert if stopped.value then stopped == Returned(true) else stopped == Returned(false);
      r := Returned(());
    }

    /** The change itself, in a session fit for it. */
    method ChangeProfile(profile: Profile, token: nat) returns (r: Outcome<bool>)
      requires Valid() && Preparing(token) && seen.client == Controlled && !seen.latched && !plan.halt
      modifies `shared, `now, `seen, `plan, `failure, `tick, `log, `ledger
      ensures Settles(r) && ledger.wire.stops > old(ledger).wire.stops
      ensures r == Returned(true) ==> seen.action == Walking && Still() && plan.selected == profile && Profiled(profile)
      ensures r == Returned(true) ==> ledger.wire.latest == Order(SetParams(profile))
      ensures r == Returned(false) ==> GivenUp() || Overtaken(token)
      ensures Walkable(profile) && old(Current(token)) ==> r == Returned(true)
    {
      hide Stillness, Section.Inv, Section.Hears, Section.Reaches, Section.Proceeds, Section.Prepping, Section.Stops;
      ReachesOn();
      PreparingOn();
      ProceedsOn();
      PreparingMeans(Here(), token);
      RunOn();
      var changed :- ChangeParams(profile, token);
      ghost var w := Here();
      if changed == None { return Returned(false); }
      if !changed.value {
        ReachesMeans(old(Here()), w);
        r := GiveUpChange();
        ReachesMeans(w, Here());
        return;
      }
      var enabled := EnableMotion(token);
      ProceedsMeans(w, Here());
      if !enabled {
        HearsWire(w, Here());
        return Returned(false);
      }
      plan := plan.(selected := profile);
      r := Returned(true);
    }

    /** An unconfirmed change: motion off, and the robot stopped. */
    method GiveUpChange() returns (r: Outcome<bool>)
      requires Valid()
      modifies `shared, `now, `seen, `plan, `failure, `tick, `log, `ledger
      ensures Went() && !shared.ready && r != Returned(true)
      ensures r == Returned(false) ==> GivenUp()
    {
      hide Section.Inv, Section.Hears, Section.Reaches, Section.Stops;
      var stopped :- DisableAndStop(false);
      r := Returned(false);
    }

    method SwitchProfile(profile: Profile, token: nat) returns (r: Outcome<bool>)
      requires Valid() && Preparing(token)
      modifies `shared, `now, `seen, `plan, `failure, `tick, `log, `ledger
      ensures Settles(r)
      ensures r == Returned(true) ==>
        seen.action == Walking && Still() && plan.selected == profile && Profiled(profile) && !old(seen).latched
      ensures r == Returned(true) ==>
        ledger.wire.latest == Order(SetParams(profile)) && ledger.wire.stops > old(ledger).wire.stops
      ensures r == Returned(false) ==> LeftStopped(token) && (GivenUp() || Overtaken(token))
      ensures Walkable(profile) && old(Current(token) && Healthy()) ==> r == Returned(true)
    {
      hide Section.Inv, Section.Hears, Section.Reaches, Section.Proceeds, Section.Prepping;
      ReachesOn();
      PreparingOn();
      ProceedsOn();
      StopsOn();
      RunOn();
      var ok := Switchable(token);
      ghost var w := Here();
      HearsWire(old(Here()), w);
      ReachesMeans(old(Here()), w);
      if !ok {
        r := StopUnlessCanceled(token);
        return;
      }
      r := ChangeProfile(profile, token);
    }

    // ---------- Velocities ----------

    /** The worker's copy of the cached velocity, under the mutex. */
    method CopyVelocity() returns (c: Option<Velocity>)
      requires Valid() && ledger.hand.running == None
      modifies `log, `ledger
      ensures Drove() && c == shared.velocity && ledger.wire == old(ledger).wire && ledger.gate == old(ledger).gate
      ensures c == None ==> ledger == old(ledger)
      ensures c.Some? ==> Copied(c.value) && ledger.hand == Take(old(ledger).hand, c.value)
      ensures c.Some? && old(ledger).hand.copy.Some? ==>
        old(ledger).hand.copy == c || old(ledger).hand.copy.value.id < c.value.id
    {
      hide Section.Agrees;
      c := shared.velocity;
      if c.Some? {
        CopyKeeps(shared, seen, ledger, now);
        VelocitySends(Here(), Read(c.value));
        Note(Read(c.value));
      }
    }

    method DropVelocity()
      requires Valid()
      modifies `shared
      ensures Heard() && shared == old(shared).(velocity := None)
    {
      hide Section.Agrees;
      DropKeeps(shared, seen, ledger);
      shared := shared.(velocity := None);
    }

    /** The copy was accepted in the enabled generation, and has not failed unless it failed last. */
    ghost predicate Copied(c: Velocity)
      reads `shared, `ledger
    {
      && ledger.hand.copy == Some(c) && !ledger.hand.spent && c.generation <= shared.generation
      && (c.generation == shared.generation ==> shared.ready)
      && (c.id in ledger.hand.failed ==> ledger.gate.failing.Some? && ledger.gate.failing.value.id == c.id)
    }

    /** The reading of the clock for the age test. */
    ghost method ReadClock()
      requires Valid() && ledger.hand.copy.Some?
      modifies `log, `ledger
      ensures Drove() && ledger == old(ledger).(clock := now, hand := ledger.hand)
      ensures ledger.hand == old(ledger).hand.(timed := Some(now))
    {
      hide Section.Agrees;
      HandKeeps(shared, seen, ledger, Stamp(now, Timed));
      VelocitySends(Here(), Timed);
      Note(Timed);
    }

    /** The copy is still of the enabled generation. */
    ghost method PassTest(c: Velocity)
      requires Valid() && ledger.hand.copy == Some(c) && shared.ready && c.generation == shared.generation
      modifies `log, `ledger
      ensures Drove() && ledger == old(ledger).(clock := now, hand := ledger.hand)
      ensures ledger.hand == old(ledger).hand.(tested := Some(c))
    {
      hide Section.Agrees;
      HandKeeps(shared, seen, ledger, Stamp(now, Tested(c)));
      VelocitySends(Here(), Tested(c));
      Note(Tested(c));
    }

    /** A copy that may be sent: in time, tested, not failed before, and newer than the one that failed last. */
    ghost predicate Sendable(c: Velocity)
      reads `ledger
    {
      && ledger.hand.copy == ledger.hand.tested == Some(c) && !ledger.hand.spent && c.id !in ledger.hand.failed
      && ledger.hand.timed.Some? && ledger.hand.timed.value - c.at <= opts.cmdVelTimeout
      && (ledger.gate.failing.Some? ==>
          && ledger.gate.failing.value.id < c.id && ledger.gate.failing.value.at < c.at
          && ledger.gate.failing.value.generation == c.generation)
    }

    ghost method NoteSent(c: Velocity)
      requires Valid() && Sendable(c) && seen.action == Walking
      modifies `log, `ledger
      ensures Drove() && log == old(log) + [Stamp(now, Sent(c))]
      ensures ledger.gate.failing == None && ledger.wire.latest == Motion.Drive
      ensures ledger.wire.sent == old(ledger).wire.sent + 1
      ensures ledger.hand == old(ledger).hand.(spent := true, timed := None, tested := None)
    {
      hide Section.Agrees;
      SentKeeps(shared, seen, ledger, c, now);
      VelocitySends(Here(), Sent(c));
      Note(Sent(c));
    }

    ghost method NoteFailed(c: Velocity)
      requires Valid() && ledger.gate.failing == None && ledger.hand.copy == Some(c)
      modifies `log, `ledger
      ensures Drove() && log == old(log) + [Stamp(now, Failed(c))] && ledger.wire == old(ledger).wire
      ensures ledger.gate.failing == Some(c)
      ensures ledger.hand == old(ledger).hand.(failed := old(ledger).hand.failed + {c.id})
    {
      hide Section.Agrees;
      FailedKeeps(shared, seen, ledger, c, now);
      VelocitySends(Here(), Failed(c));
      Note(Failed(c));
    }

    /** One velocity on the wire, and the memory of it when it did not get through. */
    method SendVelocity(c: Velocity) returns (r: Outcome<bool>)
      requires Valid() && Sendable(c) && seen.client == Controlled && seen.action == Walking
      modifies `shared, `now, `seen, `failure, `tick, `log, `ledger
      ensures Drove() && (seen.client == Controlled || !shared.ready)
      ensures ledger.wire.sent == old(ledger).wire.sent + 1 && ledger.wire.latest == Motion.Drive
      ensures ledger.gate.failing == (if r == Returned(true) then None else Some(c)) && ledger.hand.copy == Some(c)
      ensures ledger.hand.failed == old(ledger).hand.failed + if r == Returned(true) then {} else {c.id}
    {
      hide Stillness, Section.Inv, Section.Hears, Section.Reaches, Section.Sends;
      HearsOn();
      SendsOn();
      Interfere();
      HearsGate(old(Here()), Here());
      HearsWire(old(Here()), Here());
      NoteSent(c);
      ghost var w := Here();
      var reply := Exchange();
      HearsGate(w, Here());
      HearsWire(w, Here());
      HearsControl(w, Here());
      HearsReady(w, Here());
      if reply.Returned? && reply.value.ok { return Returned(true); }
      NoteFailed(c);
      r := if reply.Thrown? then Thrown else Returned(false);
    }

    /** Nothing but that velocity can have failed in the current generation. */
    ghost predicate Failing(c: Velocity)
      reads `ledger
    {
      ledger.hand.copy == Some(c) && (ledger.gate.failing.Some? ==> ledger.gate.failing == Some(c))
    }

    /** Motion is enabled under control, and a fresh velocity newer than the failed one is cached. */
    ghost predicate Renewable(c: Velocity)
      reads `shared, `seen, `now
    {
      && shared.ready && seen.client == Controlled && !shared.quitting && shared.generation == c.generation
      && shared.velocity.Some? && shared.velocity.value.generation == shared.generation
      && shared.velocity.value.at > c.at && now - shared.velocity.value.at <= opts.cmdVelTimeout
    }

    /** The one retry inside a dispatch, after a timeout and a good report; only a newer velocity is sent. */
    method Retry(command: Velocity, report: Report) returns (recovered: bool)
      requires Valid() && Failing(command) && ledger.hand.running == None
      modifies `shared, `now, `seen, `failure, `tick, `log, `ledger
      ensures Drove() && TakesNoControl()
      ensures recovered ==>
        ledger.gate.failing == None && ledger.hand.copy.Some? && ledger.hand.copy.value.at > command.at
      ensures ledger.wire.sent == old(ledger).wire.sent || ledger.wire.sent == old(ledger).wire.sent + 1
      ensures recovered ==> ledger.wire.sent > old(ledger).wire.sent
      ensures Silent() && Walks(report) && old(Renewable(command)) ==> ledger.wire.sent > old(ledger).wire.sent
    {
      hide Section.Agrees, Section.Hears, Section.Reaches, Section.Sends;
      HearsOn();
      SendsOn();
      var updated := UpdateMotion(report);
      HearsWire(old(Here()), Here());
      if updated.Thrown? { return false; }
      Interfere();
      HearsGate(old(Here()), Here());
      HearsWire(old(Here()), Here());
      var latest := CopyVelocity();
      if latest == None || latest.value.at <= command.at { return false; }
      recovered := SendIfFresh(latest.value, command);
    }

    /** The newer velocity goes out if nothing has changed since the failed one. */
    method SendIfFresh(latest: Velocity, command: Velocity) returns (sent: bool)
      requires Valid() && Copied(latest) && latest.id > command.id && latest.at > command.at
      requires ledger.gate.failing.Some? ==> ledger.gate.failing == Some(command)
      modifies `shared, `now, `seen, `failure, `tick, `log, `ledger
      ensures Drove() && TakesNoControl()
      ensures sent ==> ledger.gate.failing == None && ledger.hand.copy == Some(latest)
      ensures ledger.wire.sent == old(ledger).wire.sent || ledger.wire.sent == old(ledger).wire.sent + 1
      ensures sent ==> ledger.wire.sent > old(ledger).wire.sent
      ensures Silent() && old(seen.action == Walking && shared.velocity == Some(latest) && Renewable(command)) ==>
        ledger.wire.sent > old(ledger).wire.sent
    {
      hide Section.Agrees, Section.Hears, Section.Reaches, Section.Sends;
      HearsOn();
      SendsOn();
      Interfere();
      HearsGate(old(Here()), Here());
      HearsWire(old(Here()), Here());
      if !shared.ready || latest.generation != command.generation || shared.quitting ||
         shared.generation != latest.generation {
        return false;
      }
      PassTest(latest);
      ghost var w := Here();
      Interfere();
      HearsGate(w, Here());
      HearsWire(w, Here());
      if seen.client != Controlled || seen.action != Walking || now - latest.at > opts.cmdVelTimeout { return false; }
      ReadClock();
      var ok := SendVelocity(latest);
      sent := ok == Returned(true);
    }

    /** A timeout need not end a healthy session: asks for a report, then retries. */
    method TryAgain(command: Velocity) returns (r: Outcome<bool>)
      requires Valid() && Failing(command) && ledger.hand.running == None
      modifies `shared, `now, `seen, `failure, `tick, `log, `ledger
      ensures Drove() && TakesNoControl()
      ensures r == Returned(true) ==> ledger.gate.failing == None
      ensures old(ledger).wire.sent <= ledger.wire.sent <= old(ledger).wire.sent + 1
      ensures Silent() && Answers() && old(failure == RpcTimeout && Renewable(command)) ==>
        ledger.wire.sent > old(ledger).wire.sent
    {
      hide Section.Agrees, Section.Hears, Section.Reaches, Section.Sends;
      HearsOn();
      SendsOn();
      StillHears(Here());
      if failure != RpcTimeout { return Returned(false); }
      var canceled := Interrupted(command.generation);
      HearsWire(old(Here()), Here());
      if !shared.ready || canceled || seen.client != Controlled { return Returned(false); }
      var answer := QueryMotion();
      HearsGate(old(Here()), Here());
      HearsWire(old(Here()), Here());
      var report :- answer;
      if report == None { return Returned(false); }
      var recovered := Retry(command, report.value);
      r := Returned(recovered);
    }

    /** A velocity is given up: motion off, and a stop. */
    method StopFailed() returns (r: Outcome<bool>)
      requires Valid()
      modifies `shared, `now, `seen, `plan, `failure, `tick, `log, `ledger
      ensures Drove() && TakesNoControl() && r != Returned(true) && ledger.wire.sent == old(ledger).wire.sent
      ensures !shared.ready && !plan.active && Halted()
      ensures plan == old(plan).(active := false, halt := plan.halt, escalated := plan.escalated)
    {
      hide Section.Inv, Section.Hears, Section.Reaches, Section.Sends, Section.Stops;
      SendsOn();
      var stopped := DisableAndStop(true);
      ReachesMeans(old(Here()), Here());
      r := if stopped.Thrown? then Thrown else Returned(false);
    }

    /** After a failed velocity: a lost session, one retry, or motion off and a stop. */
    method AfterFailure(command: Velocity) returns (r: Outcome<bool>)
      requires Valid() && Failing(command) && (seen.client == Controlled || !shared.ready)
      requires ledger.hand.running == None
      modifies `shared, `now, `seen, `plan, `failure, `tick, `log, `ledger
      ensures Drove() && TakesNoControl()
      ensures r == Returned(true) ==> ledger.gate.failing == None && plan == old(plan)
      ensures r == Returned(false) ==> !shared.ready && !plan.active && (seen.client == Controlled ==> Halted())
      ensures old(ledger).wire.sent <= ledger.wire.sent <= old(ledger).wire.sent + 1
      ensures Silent() && Answers() && old(failure == RpcTimeout && Renewable(command)) ==>
        ledger.wire.sent > old(ledger).wire.sent
      ensures plan == old(plan).(active := plan.active, halt := plan.halt, escalated := plan.escalated)
    {
      hide Section.Inv, Section.Hears, Section.Reaches, Section.Sends, Section.Stops;
      SendsOn();
      StopsOn();
      if seen.client != Controlled && (failure == SessionExpired || failure == SessionRevoked) {
        ReachesOn();
        StillHears(Here());
        plan := plan.(active := false);
        return Returned(false);
      }
      var recovered :- TryAgain(command);
      if recovered { return Returned(true); }
      SendsMeans(old(Here()), Here());
      r := StopFailed();
    }

    /** A cached velocity that is too old, or from before. */
    method DropStale(checked: int)
      requires Valid()
      modifies `shared, `now, `tick, `log, `ledger
      ensures Heard()
    {
      hide Section.Agrees, Section.Hears;
      HearsOn();
      Interfere();
      if shared.velocity.Some? && (shared.velocity.value.generation != shared.generation ||
         checked - shared.velocity.value.at > opts.cmdVelTimeout) {
        DropVelocity();
      }
    }

    /** Nothing fresh to send: drop what is stale, and stop what is still moving. */
    method StopIfIdle(checked: int) returns (r: Outcome<()>)
      requires Valid() && Orderly()
      modifies `shared, `now, `seen, `plan, `failure, `tick, `log, `ledger
      ensures Went() && TakesNoControl()
      ensures old(plan).active ==> Halted()
      ensures r.Returned? ==> Orderly() && !plan.active
      ensures plan == old(plan).(active := false, halt := plan.halt, escalated := plan.escalated)
    {
      hide Section.Agrees, Section.Hears, Section.Reaches, Section.Stops;
      ReachesOn();
      StopsOn();
      OrderOn();
      DropStale(checked);
      if !plan.active { return Returned(()); }
      var stopped :- Stop(true);
      if !stopped { MotionOff(); }
      r := Returned(());
    }

    method MotionOff()
      requires Valid()
      modifies `shared, `now, `tick, `log, `ledger
      ensures Went() && !shared.ready
    {
      hide Section.Agrees, Section.Hears, Section.Reaches;
      ReachesOn();
      HearsOn();
      Interfere();
      DisableMotion();
    }

    /** Motion is enabled under control, and the cached velocity is fresh and due. */
    ghost predicate Due()
      reads `shared, `seen, `plan, `now
    {
      && shared.ready && seen.client == Controlled && shared.velocity.Some?
      && now - shared.velocity.value.at <= opts.cmdVelTimeout && now >= plan.nextVelocity
    }

    /** Motion is enabled under control, the robot was last told to move, and no fresh velocity is there. */
    ghost predicate Overdue()
      reads `shared, `seen, `plan, `now
    {
      && shared.ready && seen.client == Controlled && plan.active
      && (shared.velocity == None || now - shared.velocity.value.at > opts.cmdVelTimeout)
    }

    /** A dispatch ends in good order, and it forgets a moving robot only when that was stopped. */
    twostate predicate Dispatched(new r: Outcome<()>)
      reads `shared, `seen, `now, `log, `ledger, `plan
    {
      && Drove() && ledger.wire.sent <= old(ledger).wire.sent + 2
      && TakesNoControl()
      && (r.Returned? ==> Orderly())
      && (r.Returned? && old(plan).active && !plan.active && seen.client == Controlled && shared.ready ==> Halted())
    }

    /** The command rate is kept. */
    twostate predicate Paced()
      reads `now, `ledger, `plan
    {
      ledger.wire.sent > old(ledger).wire.sent ==>
        now >= old(plan).nextVelocity && plan.nextVelocity >= old(now) + opts.period
    }

    method DispatchCommand(command: Velocity) returns (r: Outcome<()>)
      requires Valid() && Orderly() && Sendable(command) && ledger.gate.failing == None && ledger.hand.running == None
      requires seen.action == Walking && seen.client == Controlled && plan.active
      modifies `shared, `now, `seen, `plan, `failure, `tick, `log, `ledger
      ensures Dispatched(r) && ledger.wire.sent > old(ledger).wire.sent
      ensures plan.nextVelocity == old(plan).nextVelocity
    {
      hide Section.Agrees, Section.Hears, Section.Reaches, Section.Sends, Section.Stops;
      SendsOn();
      var sent := SendVelocity(command);
      SendsMeans(old(Here()), Here());
      if sent.Thrown? { return Thrown; }
      if sent.value { return Returned(()); }
      ghost var w := Here();
      var recovered :- AfterFailure(command);
      SendsMeans(w, Here());
      r := Returned(());
    }

    /** The copy, taken a moment after the tests for enabled motion and control. */
    method TakeCopy() returns (command: Option<Velocity>)
      requires Valid() && Orderly() && ledger.hand.running == None
      modifies `shared, `now, `tick, `log, `ledger
      ensures Drove() && Orderly() && ledger.wire.sent == old(ledger).wire.sent
      ensures command.Some? ==> Copied(command.value) && ledger.gate.failing == None
      ensures command.Some? ==> command.value.id !in ledger.hand.failed
      ensures Silent() ==> shared == old(shared) && now == old(now) && command == shared.velocity
    {
      hide Section.Agrees, Section.Hears, Section.Reaches, Section.Sends;
      HearsOn();
      SendsOn();
      OrderOn();
      Interfere();
      assert Orderly();
      HearsWire(old(Here()), Here());
      command := CopyVelocity();
    }

    /** The copy and the time of its age test; services run between all these steps. */
    method ReadCommand() returns (command: Option<Velocity>, checked: int)
      requires Valid() && Orderly() && ledger.hand.running == None
      modifies `shared, `now, `tick, `log, `ledger
      ensures Drove() && Orderly() && ledger.wire.sent == old(ledger).wire.sent && old(now) <= checked <= now
      ensures command.Some? ==> Copied(command.value) && ledger.hand.timed == Some(checked)
      ensures command.Some? ==> ledger.gate.failing == None && command.value.id !in ledger.hand.failed
      ensures Silent() ==> shared == old(shared) && now == old(now) == checked && command == shared.velocity
    {
      hide Section.Agrees, Section.Hears, Section.Reaches, Section.Sends;
      SendsOn();
      command := TakeCopy();
      ghost var w := Here();
      SendsMeans(old(Here()), w);
      Interfere();
      checked := now;
      StillListens(w, Here(), plan.halt, plan.active);
      if command.Some? { ReadClock(); }
      assert Orderly();
      ghost var w1 := Here();
      Interfere();
      StillListens(w1, Here(), plan.halt, plan.active);
    }

    /** A velocity in time, of the current generation; it goes out when it is due. */
    method DispatchTimed(command: Velocity, checked: int) returns (r: Outcome<()>)
      requires Valid() && Orderly() && seen.action == Walking && seen.client == Controlled
      requires Copied(command) && command.generation == shared.generation
      requires ledger.hand.timed == Some(checked) && checked - command.at <= opts.cmdVelTimeout
      requires ledger.gate.failing == None && command.id !in ledger.hand.failed && ledger.hand.running == None
      modifies `shared, `now, `seen, `plan, `failure, `tick, `log, `ledger
      ensures Dispatched(r)
      ensures ledger.wire.sent > old(ledger).wire.sent <==> checked >= old(plan).nextVelocity
      ensures checked >= old(plan).nextVelocity ==> plan.nextVelocity == checked + opts.period
    {
      hide Section.Inv, Section.Hears, Section.Reaches, Section.Sends, Section.Stops;
      SendsOn();
      StopsOn();
      PassTest(command);
      assert Drove() && Orderly();
      if checked < plan.nextVelocity { return Returned(()); }
      plan := plan.(nextVelocity := checked + opts.period, active := true);
      r := DispatchCommand(command);
    }

    /** The worker has seen motion enabled and control held; services may have changed that since. */
    method DispatchLatest() returns (r: Outcome<()>)
      requires Valid() && Orderly() && seen.action == Walking && seen.client == Controlled
      requires ledger.hand.running == None
      modifies `shared, `now, `seen, `plan, `failure, `tick, `log, `ledger
      ensures Dispatched(r) && Paced()
      ensures Silent() && old(Due()) ==> ledger.wire.sent > old(ledger).wire.sent
      ensures Silent() && old(Overdue()) ==> Halted()
    {
      hide Section.Agrees, Section.Hears, Section.Reaches, Section.Sends, Section.Stops;
      SendsOn();
      StopsOn();
      var command, checked := ReadCommand();
      SendsMeans(old(Here()), Here());
      ghost var w := Here();
      if command == None || command.value.generation != shared.generation ||
         checked - command.value.at > opts.cmdVelTimeout {
        r := StopIfIdle(checked);
        ReachesMeans(w, Here());
        return;
      }
      r := DispatchTimed(command.value, checked);
      SendsMeans(w, Here());
    }

    /** Services run, and then the worker looks whether motion is enabled under control. */
    method LookEnabled() returns (enabled: bool)
      requires Valid() && Orderly()
      modifies `shared, `now, `tick, `log, `ledger
      ensures Heard() && Orderly() && enabled == (shared.ready && seen.client == Controlled)
      ensures enabled ==> seen.action == Walking && old(shared).ready
      ensures Silent() ==> Here() == old(Here())
      ensures old(now) <= now && ledger.wire.sent == old(ledger).wire.sent && ledger.hand == old(ledger).hand
    {
      hide Section.Hears, Section.Reaches;
      HearsOn();
      OrderOn();
      Interfere();
      HearsReady(old(Here()), Here());
      HearsWire(old(Here()), Here());
      HearsTime(old(Here()), Here());
      enabled := shared.ready && seen.client == Controlled;
    }

    /** Without enabled motion or control the worker forgets that the robot may move. */
    method ForgetMotion()
      requires Valid() && Orderly() && (!shared.ready || seen.client != Controlled)
      modifies `plan
      ensures Orderly() && plan == old(plan).(active := false)
    {
      plan := plan.(active := false);
    }

    /**
     Sends the latest velocity if it is fresh and due, and stops a moving robot when
     there is none. Services may withdraw a velocity at any step; when they are
     silent a due one is certainly sent, and an overdue robot certainly stopped.
     Without enabled motion or control it only forgets that the robot may move.
     */
    method DispatchVelocity() returns (r: Outcome<()>)
      requires Valid() && Orderly() && ledger.hand.running == None
      modifies `shared, `now, `seen, `plan, `failure, `tick, `log, `ledger
      ensures Dispatched(r) && Paced()
      ensures !old(shared).ready || old(seen).client != Controlled ==>
        r == Returned(()) && Heard() && seen == old(seen) && plan == old(plan).(active := false)
      ensures Silent() && old(Due()) ==> ledger.wire.sent > old(ledger).wire.sent
      ensures Silent() && old(Overdue()) ==> Halted()
    {
      hide Section.Inv, Section.Hears, Section.Reaches, Section.Sends, Section.Stops, Section.InOrder;
      HearsOn();
      SendsOn();
      StopsOn();
      var enabled := LookEnabled();
      if !enabled {
        ForgetMotion();
        return Returned(());
      }
      r := DispatchLatest();
    }

    /**
     What the code allows: a preparation accepted behind a velocity ends its
     generation, and the next dispatch only forgets the motion. The robot under
     control was last told to drive, and neither a stop nor an emergency stop goes out.
     */
    method ForgetDrive(preparation: Task) returns (id: Option<nat>, r: Outcome<()>)
      requires Valid() && Orderly() && ledger.hand.running == None && Prepares(preparation)
      requires shared.ready && Admits(shared, plan.halt, preparation)
      modifies `shared, `now, `seen, `plan, `failure, `tick, `log, `ledger
      ensures id.Some? && r == Returned(()) && !shared.ready && shared.generation > old(shared).generation
      ensures !plan.active && !plan.halt && seen == old(seen)
      ensures WireKept(old(ledger).wire, ledger.wire)
    {
      hide Section.Inv, Section.Hears, Section.Reaches;
      OrderOn();
      HearsOn();
      id := Submit(preparation);
      ghost var w := Here();
      HearsWire(old(Here()), w);
      assert Orderly();
      r := DispatchVelocity();
      HearsWire(w, Here());
      HearsReady(w, Here());
      HearsTime(w, Here());
    }

    // ---------- Recovering a stop ----------

    /** The emergency stop, once. */
    method EscalateOnce() returns (r: Outcome<()>)
      requires Valid()
      modifies `shared, `now, `seen, `plan, `failure, `tick, `log, `ledger
      ensures Went() && plan == old(plan).(escalated := true) && TakesNoControl()
      ensures old(plan).escalated ==> Here() == old(Here())
      ensures old(seen).client == Controlled && !old(plan).escalated ==> seen.latched && Told(EmergencyStopCall)
      ensures Cooperates() && old(seen).client == Controlled ==> r == Returned(()) && Unmoved()
    {
      hide Section.Agrees, Section.Hears, Section.Reaches;
      ReachesOn();
      if plan.escalated {
        StillHears(Here());
        return Returned(());
      }
      plan := plan.(escalated := true);
      Mark(seen.(latched := true));
      ghost var w := Here();
      var told := Call(EmergencyStopCall);
      ReachesMeans(w, Here());
      r := if told.Thrown? then Thrown else Returned(());
    }

    /** A cooperative robot reports that it stands still, walking in place or in the emergency stop. */
    ghost predicate Stands()
      reads `shared, `seen
    {
      && Cooperates() && seen.client == Controlled
      && (Answer().action == Walking || (Answer().action == EmergencyStop && !shared.ready))
    }

    method StandsStill() returns (r: Outcome<bool>)
      requires Valid()
      modifies `shared, `now, `seen, `failure, `tick, `log, `ledger
      ensures Heard() && TakesNoControl()
      ensures r == Returned(true) ==> AtRest()
      ensures old(Stands()) ==> r == Returned(true)
    {
      hide Section.Agrees, Section.Hears;
      HearsOn();
      var report :- QueryMotion();
      if report == None { return Returned(false); }
      var _ :- UpdateMotion(report.value);
      Interfere();
      r := Returned((seen.action == Walking || seen.action == EmergencyStop) && Still());
    }

    /** What one attempt at recovery leaves: a robot seen standing, or one more stop and a later attempt. */
    twostate predicate Retried()
      reads `shared, `seen, `now, `log, `ledger, `plan
    {
      if plan.halt then
        plan.nextHalt >= old(now) + 200 && (seen.client == Controlled ==> Halted())
      else
        AtRest() || seen.client != Controlled
    }

    method RetryStop() returns (r: Outcome<()>)
      requires Valid() && plan.halt
      modifies `shared, `now, `seen, `plan, `failure, `tick, `log, `ledger
      ensures Went() && TakesNoControl() && (r.Returned? ==> Retried())
      ensures old(seen).client == Controlled && !old(plan).escalated ==>
        ledger.wire.emergencies > old(ledger).wire.emergencies
      ensures old(Stands()) ==> r == Returned(()) && !plan.halt
    {
      hide Section.Inv, Section.Hears, Section.Reaches, Section.Stops;
      ReachesOn();
      StopsOn();
      var escalated := EscalateOnce();
      ghost var w := Here();
      ReachesMeans(old(Here()), w);
      if escalated.Thrown? { return Thrown; }
      r := RecoverOrStop();
      ReachesMeans(w, Here());
    }

    method StopAgain() returns (r: Outcome<()>)
      requires Valid() && plan.halt
      modifies `shared, `now, `seen, `plan, `failure, `tick, `log, `ledger
      ensures Went() && (r.Returned? ==> Retried()) && TakesNoControl()
    {
      hide Section.Inv, Section.Hears, Section.Reaches, Section.Stops;
      ReachesOn();
      StopsOn();
      var stopped :- Stop(false);
      ghost var w := Here();
      ReachesMeans(old(Here()), w);
      Interfere();
      HearsTime(w, Here());
      plan := plan.(nextHalt := now + 200);
      r := Returned(());
    }

    method RecoverOrStop() returns (r: Outcome<()>)
      requires Valid() && plan.halt
      modifies `shared, `now, `seen, `plan, `failure, `tick, `log, `ledger
      ensures Went() && (r.Returned? ==> Retried()) && TakesNoControl()
      ensures old(Stands()) ==> r == Returned(()) && !plan.halt
    {
      hide Section.Inv, Section.Hears, Section.Reaches, Section.Stops;
      ReachesOn();
      StopsOn();
      var standing :- StandsStill();
      if standing {
        plan := plan.(halt := false, escalated := false);
        return Returned(());
      }
      HearsTime(old(Here()), Here());
      r := StopAgain();
    }

    /** A stop that was not confirmed: an emergency stop once, then stopping again until the robot stands. */
    method RecoverStop() returns (r: Outcome<()>)
      requires Valid() && Orderly()
      modifies `shared, `now, `seen, `plan, `failure, `tick, `log, `ledger
      ensures Went() && TakesNoControl() && (r.Returned? ==> Orderly())
      ensures !old(plan).halt ==> r == Returned(()) && Here() == old(Here()) && plan == old(plan)
      ensures old(plan).halt && old(seen).client != Controlled ==>
        r == Returned(()) && !plan.halt && Here() == old(Here())
      ensures old(Recovering()) && r.Returned? ==> Retried()
      ensures old(Recovering()) && !old(plan).escalated ==> ledger.wire.emergencies > old(ledger).wire.emergencies
      ensures r.Returned? && !plan.halt ==>
        !old(plan).halt || old(seen).client != Controlled || seen.client != Controlled || AtRest()
      ensures old(Stands() && Recovering()) ==> r == Returned(()) && !plan.halt
    {
      hide Section.Inv, Section.Hears, Section.Reaches, Section.Stops;
      ReachesOn();
      if !plan.halt {
        StillHears(Here());
        return Returned(());
      }
      if seen.client != Controlled {
        StillHears(Here());
        plan := plan.(halt := false, escalated := false);
        return Returned(());
      }
      r := RecoverOwned();
    }

    method RecoverOwned() returns (r: Outcome<()>)
      requires Valid() && Orderly() && plan.halt && seen.client == Controlled
      modifies `shared, `now, `seen, `plan, `failure, `tick, `log, `ledger
      ensures Went() && TakesNoControl() && (r.Returned? ==> Orderly())
      ensures r.Returned? && (old(now) >= old(plan).nextHalt || !plan.halt) ==> Retried()
      ensures old(now) >= old(plan).nextHalt && !old(plan).escalated ==>
        ledger.wire.emergencies > old(ledger).wire.emergencies
      ensures old(Stands() && now >= plan.nextHalt) ==> r == Returned(()) && !plan.halt
    {
      hide Section.Inv, Section.Hears, Section.Reaches, Section.Stops;
      ReachesOn();
      StopsOn();
      Interfere();
      ghost var w := Here();
      HearsReady(old(Here()), w);
      HearsTime(old(Here()), w);
      HearsWire(old(Here()), w);
      if now < plan.nextHalt { return Returned(()); }
      r := RetryStop();
      ReachesMeans(w, Here());
    }

    /** A stop of a robot under control waits to be recovered, and it is time for the next attempt. */
    ghost predicate Recovering()
      reads `seen, `plan, `now
    {
      plan.halt && seen.client == Controlled && now >= plan.nextHalt
    }

    // ---------- The other jobs ----------

    /** The last motion command was given since then, and was to lie down. */
    twostate predicate Laid()
      reads `ledger
    {
      old(ledger).wire.orders < ledger.wire.orders && ledger.wire.latest == Order(StartAction(Laying))
    }

    /** Success means laying was reported, and no other motion command went out since. */
    method StartLaying(token: nat) returns (r: Outcome<bool>)
      requires Valid()
      modifies `shared, `now, `seen, `failure, `tick, `log, `ledger
      ensures Went()
      ensures r == Returned(true) ==> seen.action == Laying && Reports(Laying) && Laid()
      ensures old(Confirmable(Laying, token, true, None)) ==> r == Returned(true) && Unmoved()
    {
      hide Section.Inv, Section.Hears, Section.Reaches;
      ReachesOn();
      var accepted :- Call(StartAction(Laying));
      if !accepted { return Returned(false); }
      ghost var w := Here();
      ReachesMeans(old(Here()), w);
      r := Confirm(Laying, false, token, true, None);
      HearsWire(w, Here());
    }

    /** Laid down and released; an unconfirmed laying is stopped, unless something newer takes over. */
    method LieAndRelease(token: nat) returns (r: Outcome<bool>)
      requires Valid()
      modifies `shared, `now, `seen, `plan, `failure, `tick, `log, `ledger
      ensures Went()
      ensures r == Returned(true) ==> seen.client != Controlled && Reports(Laying) && Laid()
      ensures r == Returned(false) ==> LeftStopped(token) || Reports(Laying)
      ensures old(Confirmable(Laying, token, true, None)) ==> r == Returned(true)
    {
      hide Section.Inv, Section.Hears, Section.Reaches, Section.Stops;
      ReachesOn();
      StopsOn();
      var lying :- StartLaying(token);
      ghost var w := Here();
      if lying {
        r := ReleaseControl();
        HearsWire(w, Here());
        return;
      }
      var _ :- StopAndRelease(token);
      r := Returned(false);
    }

    /** One of the stops: a request that something newer has overtaken only stops the robot. */
    method Lie(token: nat) returns (r: Outcome<bool>)
      requires Valid() && token <= shared.generation
      modifies `shared, `now, `seen, `plan, `failure, `tick, `log, `ledger
      ensures Went()
      ensures old(shared).quitting || old(shared).generation != token ==> Halted() && r != Returned(true)
      ensures r == Returned(true) ==> seen.client != Controlled && Reports(Laying) && Laid()
      ensures r == Returned(false) ==>
        LeftStopped(token) || Reports(Laying) || !plan.laying || Unavailable(token)
      ensures old(Available(token) && plan.laying && Answer().action == Laying && !shared.ready) ==> r == Returned(true)
    {
      hide Section.Inv, Section.Hears, Section.Reaches, Section.Stops;
      HearsOn();
      ReachesOn();
      StopsOn();
      CancelQueries();
      var canceled := Interrupted(token);
      HearsTime(old(Here()), Here());
      HearsWire(old(Here()), Here());
      if canceled {
        CancelStops(old(Here()), Here());
        var _ :- Stop(false);
        return Returned(false);
      }
      if !plan.laying { return Returned(false); }
      var acquired :- Acquire(token);
      HearsWire(old(Here()), Here());
      if !acquired { return Returned(false); }
      r := LieAndRelease(token);
    }

    method StartSession() returns (r: Outcome<bool>)
      requires Valid() && seen.client == Disconnected
      modifies `shared, `now, `seen, `failure, `tick, `log, `ledger
      ensures Heard() && seen.client != Controlled
      ensures Cooperates() ==> r == Returned(true)
    {
      hide Section.Agrees, Section.Hears;
      HearsOn();
      var found :- Exchange();
      if !found.ok { return Returned(false); }
      var session :- Exchange();
      if session.ok { Join(); }
      r := Returned(session.ok);
    }

    method Join()
      requires Valid() && seen.client != Controlled
      modifies `seen
      ensures Heard() && seen == old(seen).(client := Connected)
    {
      hide Section.Agrees;
      See(seen.(client := Connected));
    }

    /** The capability query, tried twice. */
    method AskCapabilities() returns (r: Outcome<Reply>)
      requires Valid()
      modifies `shared, `now, `seen, `failure, `tick, `log, `ledger
      ensures Heard() && TakesNoControl()
      ensures Cooperates() ==> r.Returned? && r.value.ok
      ensures r.Returned? ==> Said(r.value)
    {
      hide Section.Agrees, Section.Hears;
      HearsOn();
      var answer :- Exchange();
      if answer.ok { return Returned(answer); }
      r := Exchange();
    }

    /** Session, capabilities and status; false when one of them failed. */
    /** What the worker holds the robot capable of is what it answered. */
    ghost predicate Learned(capable: bool, laying: bool) {
      exists reply :: Said(reply) && reply.ok && capable == reply.capable && laying == reply.laying
    }

    method OpenSession() returns (r: Outcome<bool>)
      requires Valid() && seen.client == Disconnected
      modifies `shared, `now, `seen, `plan, `failure, `tick, `log, `ledger
      ensures Heard() && seen.client != Controlled
      ensures plan == old(plan).(capable := plan.capable, laying := plan.laying)
      ensures Cooperates() ==> r == Returned(true)
      ensures r == Returned(true) ==> Learned(plan.capable, plan.laying)
    {
      hide Section.Inv, Section.Hears, Stillness;
      HearsOn();
      var started :- StartSession();
      if !started { return Returned(false); }
      var learned :- Learn();
      if !learned { return Returned(false); }
      r := AskStatus();
    }

    method Learn() returns (r: Outcome<bool>)
      requires Valid()
      modifies `shared, `now, `seen, `plan, `failure, `tick, `log, `ledger
      ensures Heard() && TakesNoControl() && plan == old(plan).(capable := plan.capable, laying := plan.laying)
      ensures r == Returned(true) ==> Learned(plan.capable, plan.laying)
      ensures Cooperates() ==> r == Returned(true)
    {
      hide Section.Inv, Section.Hears, Stillness;
      HearsOn();
      var answer :- AskCapabilities();
      if !answer.ok { return Returned(false); }
      plan := plan.(capable := answer.capable, laying := answer.laying);
      r := Returned(true);
    }

    method AskStatus() returns (r: Outcome<bool>)
      requires Valid()
      modifies `shared, `now, `seen, `failure, `tick, `log, `ledger
      ensures Heard() && TakesNoControl() && (r.Returned? ==> seen.systemAt == now)
      ensures Cooperates() ==> r == Returned(true)
    {
      hide Section.Inv, Section.Hears;
      HearsOn();
      var status :- Exchange();
      Mark(seen.(systemAt := now));
      r := Returned(status.ok);
    }

    method DropSession() returns (r: Outcome<bool>)
      requires Valid() && seen.client != Controlled
      modifies `shared, `now, `seen, `failure, `tick, `log, `ledger
      ensures Left() && seen.client != Controlled && (r.Returned? ==> !r.value && seen.client == Disconnected)
    {
      hide Section.Agrees, Section.Leaves;
      LeavesOn();
      StillHears(Here());
      if seen.client != Disconnected { var _ :- DisconnectClient(); }
      r := Returned(false);
    }

    method Observe() returns (r: Outcome<bool>)
      requires Valid()
      modifies `shared, `now, `seen, `plan, `failure, `tick, `log, `ledger
      ensures Heard() && plan == old(plan).(observing := plan.observing)
      ensures TakesNoControl()
      ensures if r.Returned? then r.value && seen.connected && !seen.owned else plan == old(plan)
      ensures Cooperates() ==> r == Returned(true)
      ensures r.Returned? ==> (plan.observing ==> opts.observe) && (Cooperates() ==> plan.observing == opts.observe)
    {
      hide Section.Agrees, Section.Hears;
      HearsOn();
      var observing :- Exchange();
      plan := plan.(observing := opts.observe && observing.ok);
      Interfere();
      Mark(seen.(owned := false, connected := true));
      r := Returned(true);
    }

    /** Read-only: it never takes control, and commands no motion. */
    method ConnectRobot() returns (r: Outcome<bool>)
      requires Valid()
      modifies `shared, `now, `seen, `plan, `failure, `tick, `log, `ledger
      ensures Left() && plan.started && TakesNoControl()
      ensures plan.halt == old(plan).halt && plan.active == old(plan).active && plan.escalated == old(plan).escalated
      ensures plan.selected == old(plan).selected && plan.nextConnect == old(plan).nextConnect
      ensures old(seen).client != Disconnected ==> r == Returned(true) && Here() == old(Here())
      ensures old(seen).client == Disconnected && r.Returned? ==>
        if r.value then seen.connected && !seen.owned else seen.client == Disconnected
      ensures Cooperates() ==> r == Returned(true)
      ensures old(seen).client == Disconnected && r == Returned(true) ==>
        && Learned(plan.capable, plan.laying) && (plan.observing ==> opts.observe)
        && (Cooperates() ==> plan.observing == opts.observe)
    {
      hide Section.Inv, Section.Leaves, Stillness;
      LeavesOn();
      StillHears(Here());
      plan := plan.(started := true);
      if seen.client != Disconnected { return Returned(true); }
      r := Establish();
    }

    /** A new session, or none. */
    method Establish() returns (r: Outcome<bool>)
      requires Valid() && seen.client == Disconnected
      modifies `shared, `now, `seen, `plan, `failure, `tick, `log, `ledger
      ensures Left() && seen.client != Controlled
      ensures plan == old(plan).(capable := plan.capable, laying := plan.laying, observing := plan.observing)
      ensures r.Returned? ==> if r.value then seen.connected && !seen.owned else seen.client == Disconnected
      ensures Cooperates() ==> r == Returned(true)
      ensures r == Returned(true) ==>
        && Learned(plan.capable, plan.laying) && (plan.observing ==> opts.observe)
        && (Cooperates() ==> plan.observing == opts.observe)
    {
      hide Section.Inv, Section.Leaves, Section.Hears, Stillness, Learned, Cooperates;
      LeavesOn();
      var open :- OpenSession();
      if open { r := Observe(); } else { r := DropSession(); }
    }

    /** Leaves the robot and forgets what it said. */
    method Leave() returns (r: Outcome<()>)
      requires Valid() && (shared.ready ==> shared.quitting)
      modifies `shared, `now, `seen, `plan, `failure, `tick, `log, `ledger
      ensures Left() && TakesNoControl() && plan == old(plan).(observing := false)
      ensures r.Returned? ==> seen.client == Disconnected && !seen.owned && !seen.connected
      ensures Cooperates() ==> r.Returned?
    {
      hide Section.Agrees, Section.Leaves;
      LeavesOn();
      StillHears(Here());
      plan := plan.(observing := false);
      var _ :- DisconnectClient();
      Interfere();
      Forget();
      r := Returned(());
    }

    method Forget()
      requires Valid() && seen.client == Disconnected
      modifies `seen
      ensures Heard() && seen == old(seen).(owned := false, connected := false, still := true)
    {
      hide Section.Agrees;
      See(seen.(owned := false, connected := false, still := true));
    }

    /** Success: a robot under control was stopped and released, and the session is gone. */
    method DisconnectJob() returns (r: Outcome<bool>)
      requires Valid() && !shared.ready
      modifies `shared, `now, `seen, `plan, `failure, `tick, `log, `ledger
      ensures Drove() && Halted() && !plan.started
      ensures r == Returned(true) ==> seen.client == Disconnected && !seen.owned && !plan.observing
      ensures r == Returned(true) && old(seen).client == Controlled ==>
        !plan.halt && ledger.wire.losses > old(ledger).wire.losses && Halts()
      ensures r == Returned(false) ==>
        old(seen).client == Controlled && (plan.halt || ledger.wire.releases > old(ledger).wire.releases)
      ensures old(seen.client == Controlled ==> Stoppable(false)) && Cooperates() ==> r == Returned(true)
    {
      hide Section.Agrees, Section.Hears, Section.Reaches, Section.Stops, Section.Sends, Section.Leaves;
      hide Section.Halting;
      SendsOn();
      StopsOn();
      HearsOn();
      plan := plan.(started := false);
      var released :- Release(false);
      ghost var w := Here();
      ReachesMeans(old(Here()), w);
      if !released { return Returned(false); }
      r := Part();
      LeavesSends(w, Here());
      SendsMeans(w, Here());
      if old(seen).client == Controlled { HaltingOn(old(ledger).wire, w.ledger.wire, ledger.wire); }
    }

    /** Observations off, then the session. */
    method Part() returns (r: Outcome<bool>)
      requires Valid() && !shared.ready
      modifies `shared, `now, `seen, `plan, `failure, `tick, `log, `ledger
      ensures Left() && plan == old(plan).(observing := plan.observing) && r != Returned(false)
      ensures r == Returned(true) ==> seen.client == Disconnected && !seen.owned && !plan.observing
      ensures Cooperates() ==> r == Returned(true)
    {
      hide Section.Agrees, Section.Hears, Section.Leaves;
      HearsOn();
      LeavesOn();
      StillHears(Here());
      if plan.observing { var _ :- Exchange(); }
      HearsReady(old(Here()), Here());
      var _ :- Leave();
      r := Returned(true);
    }

    // ---------- Jobs ----------

    /** Steps of the worker that may pop and settle jobs. */
    twostate predicate Worked()
      reads `shared, `seen, `now, `log, `ledger
    {
      Valid() && Works(old(Here()), Here())
    }

    method PopUrgent() returns (job: Job)
      requires Valid() && ledger.hand.running == None && shared.urgent != []
      modifies `shared, `log, `ledger
      ensures Worked() && shared == old(shared).(urgent := old(shared).urgent[1..]) && job == old(shared).urgent[0]
      ensures Startable(Here(), job) && ledger.hand.lastStop == job.id && Urgent(job.task) && !shared.ready
      ensures log == old(log) + [Stamp(now, Popped(job.id, true, job.task))]
    {
      hide Section.Agrees;
      PopUrgentKeeps(shared, seen, ledger, now);
      job := shared.urgent[0];
      Commit(shared.(urgent := shared.urgent[1..]), Popped(job.id, true, job.task));
    }

    method PopPlain() returns (job: Job)
      requires Valid() && ledger.hand.running == None && shared.urgent == [] && shared.normal != []
      modifies `shared, `log, `ledger
      ensures Worked() && shared == old(shared).(normal := old(shared).normal[1..]) && job == old(shared).normal[0]
      ensures Startable(Here(), job) && ledger.gate == old(ledger).gate && ledger.wire == old(ledger).wire
      ensures log == old(log) + [Stamp(now, Popped(job.id, false, job.task))]
    {
      hide Section.Agrees;
      PopPlainKeeps(shared, seen, ledger, now);
      job := shared.normal[0];
      Commit(shared.(normal := shared.normal[1..]), Popped(job.id, false, job.task));
    }

    /** Takes the next job, a stop before anything else. */
    method PopJob() returns (job: Option<Job>)
      requires Valid() && Orderly() && ledger.hand.running == None
      modifies `shared, `now, `tick, `log, `ledger
      ensures Worked() && Orderly()
      ensures job == None ==> ledger.hand.running == None && old(shared).urgent == []
      ensures job == None && Silent() ==> old(shared).normal == []
      ensures job.Some? ==> Startable(Here(), job.value)
      ensures old(shared).urgent != [] ==> job == Some(old(shared).urgent[0]) && ledger.hand.lastStop == job.value.id
      ensures Silent() && old(shared.urgent + shared.normal) == [] ==> job == None && Here() == old(Here())
    {
      hide Section.Inv, Section.Hears, Section.Reaches, Section.Works, Section.Startable;
      HearsOn();
      WorksOn();
      OrderOn();
      Interfere();
      HearsGate(old(Here()), Here());
      assert Orderly();
      job := None;
      if shared.urgent != [] {
        var first := PopUrgent();
        job := Some(first);
      } else if shared.normal != [] {
        var first := PopPlain();
        job := Some(first);
      }
    }

    /** Sets the promise of the running job: its one result. */
    method Settle(id: nat, how: How)
      requires Valid() && Orderly() && ledger.hand.running == Some(id) && !how.Drained?
      requires how.Superseded? ==> !ledger.hand.urgent
      requires ledger.hand.run.Some? && Earned(ledger.hand.run.value, ledger.wire, how)
      requires how.Threw? ==>
        !shared.ready && (seen.client == Controlled ==> ledger.wire.latest == Order(EmergencyStopCall))
      modifies `shared, `log, `ledger
      ensures ledger.wire == old(ledger).wire && ledger.hand.run == old(ledger).hand.run
      ensures Worked() && Orderly() && ledger.hand.running == None && id in ledger.settled
      ensures shared == old(shared).(answered := old(shared).answered + {id})
      ensures log == old(log) + [Stamp(now, Settled(id, how))]
    {
      hide Section.Agrees;
      SettleKeeps(shared, seen, ledger, id, how, now);
      Commit(shared.(answered := shared.answered + {id}), Settled(id, how));
    }

    /** What a stop does to a robot under control, whatever happens to it. */
    twostate predicate Served(task: Task)
      reads `shared, `seen, `now, `log, `ledger
    {
      old(seen).client == Controlled ==>
        && (task.Disconnect? || task.Release? ==> Stops(old(Here()), Here()))
        && (task.SoftEstop? ==> ledger.wire.emergencies > old(ledger).wire.emergencies)
    }

    /** Standing still at that moment, as the last report has it. */
    ghost predicate StoodStill(w: World) {
      w.seen.still || w.now - w.seen.replyAt > opts.telemetryTimeout
    }

    /** What the success of a job means between two moments: for the wire, and for what the worker knows and plans. */
    ghost predicate Succeeded(a: World, b: World, p: Plan, task: Task) {
      && Fulfilled(task, a.ledger.wire, b.ledger.wire)
      && match task
         case Connect => a.seen.client != Disconnected || (b.seen.connected && !b.seen.owned)
         case Disconnect =>
           && b.seen.client == Disconnected && !b.seen.owned && !p.observing
           && (a.seen.client == Controlled ==> !p.halt)
         case TakeControl => b.seen.client == Controlled && b.seen.owned
         case Stand =>
           && b.seen.action == Walking && StoodStill(b) && !b.seen.latched && p.selected == opts.profile
           && (b.seen.reported == None || b.seen.reported == Some(opts.profile))
           && Started(b.ledger.wire.latest, a.seen.client == Controlled)
         case SetProfile(profile) =>
           && b.seen.action == Walking && StoodStill(b) && p.selected == profile
           && (b.seen.reported == None || b.seen.reported == Some(profile))
           && b.ledger.wire.latest == Order(SetParams(profile)) && b.ledger.wire.stops > a.ledger.wire.stops
         case Lie => b.seen.client != Controlled
         case Release => b.seen.client != Controlled && (a.seen.client == Controlled ==> !p.halt)
         case SoftEstop => b.seen.action == EmergencyStop && StoodStill(b) && !p.halt
    }

    /** Control is not to be had for that request: overtaken, not connected, not capable, or not given. */
    ghost predicate Denied(b: World, p: Plan, token: nat) {
      || b.shared.quitting || b.shared.generation != token
      || !b.seen.connected || !p.capable || b.seen.client != Controlled
    }

    /** A robot still under control was told to stop in between, unless something newer takes over. */
    ghost predicate Abandoned(a: World, b: World, token: nat) {
      b.shared.generation == token && !b.shared.quitting && b.seen.client == Controlled ==> Stops(a, b)
    }

    /** Why a job fails, and what it has done about a robot under control. */
    ghost predicate FellShort(a: World, b: World, p: Plan, job: Job) {
      match job.task
      case Connect => b.seen.client == Disconnected
      case TakeControl => Denied(b, p, job.generation)
      case Stand =>
        !b.shared.ready && (Abandoned(a, b, job.generation) || b.ledger.wire.latest == a.ledger.wire.latest)
      case SetProfile(_) => !b.shared.ready && Abandoned(a, b, job.generation)
      case Lie =>
        || Abandoned(a, b, job.generation) || b.ledger.wire.lays > a.ledger.wire.lays
        || !p.laying || Denied(b, p, job.generation)
      case SoftEstop => p.halt || a.seen.client != Controlled
      case _ => a.seen.client == Controlled && (p.halt || b.ledger.wire.releases > a.ledger.wire.releases)
    }

    /** A robot that accepts every call and reports what the job waits for, and a job that nothing has overtaken. */
    ghost predicate Able(job: Job)
      reads `shared, `seen, `plan, `now
    {
      && Cooperates()
      && match job.task
         case Connect => Current(job.generation)
         case TakeControl => Available(job.generation)
         case Stand => Available(job.generation) && Walkable(opts.profile) && !plan.halt
         case SetProfile(profile) => Current(job.generation) && Walkable(profile) && Healthy()
         case Lie => Available(job.generation) && plan.laying && Answer().action == Laying
         case SoftEstop => seen.client == Controlled && Answer().action == EmergencyStop
         case _ => seen.client == Controlled ==> Answer().action == Rest()
    }

    method PerformStop(job: Job) returns (r: Outcome<bool>)
      requires Valid() && !shared.ready && Urgent(job.task) && job.generation <= shared.generation
      modifies `shared, `now, `seen, `plan, `failure, `tick, `log, `ledger
      ensures Drove() && Served(job.task)
      ensures r == Returned(true) ==> Succeeded(old(Here()), Here(), plan, job.task)
      ensures r == Returned(false) ==> FellShort(old(Here()), Here(), plan, job)
      ensures old(Able(job)) ==> r == Returned(true)
    {
      hide Section.Agrees, Section.Hears, Section.Reaches, Section.Sends, Section.Stops, Section.Halting;
      SendsOn();
      match job.task
      case Disconnect => r := DisconnectJob();
      case Lie => r := Lie(job.generation);
      case Release => r := Release(false);
      case SoftEstop => r := SoftEstop();
    }

    method PerformWork(job: Job) returns (r: Outcome<bool>)
      requires Valid() && Orderly() && !Urgent(job.task) && job.generation <= shared.generation
      requires Prepares(job.task) ==> Preparing(job.generation)
      modifies `shared, `now, `seen, `plan, `failure, `tick, `log, `ledger
      ensures Proceeded() && (r.Returned? ==> Orderly()) && Enables(job.task, r)
      ensures shared.ready && !old(shared).ready ==> Prepares(job.task) && r == Returned(true)
      ensures r == Returned(true) ==> Succeeded(old(Here()), Here(), plan, job.task)
      ensures r == Returned(false) ==> FellShort(old(Here()), Here(), plan, job)
      ensures old(Able(job)) ==> r == Returned(true)
    {
      hide Section.Agrees, Section.Hears, Section.Reaches, Section.Leaves;
      hide Section.Sends, Section.Proceeds, Section.Prepping;
      ProceedsOn();
      RunOn();
      match job.task
      case Connect =>
        LeavesOn();
        r := ConnectRobot();
        LeavesSends(old(Here()), Here());
        SendsMeans(old(Here()), Here());
      case TakeControl =>
        HearsOn();
        OrderOn();
        r := Acquire(job.generation);
        HearsReady(old(Here()), Here());
      case Stand => r := Stand(job.generation);
      case SetProfile(profile) => r := SwitchProfile(profile, job.generation);
    }

    /** A successful preparation has enabled motion, and no other job has. */
    twostate predicate Enables(task: Task, new r: Outcome<bool>)
      reads `ledger
    {
      ledger.hand.run ==
      if Prepares(task) && r == Returned(true) then Enabling(old(ledger).hand).run else old(ledger).hand.run
    }

    /** A job once it has started; only a successful preparation enables motion. */
    method Perform(job: Job) returns (r: Outcome<bool>)
      requires Valid() && Orderly() && Startable(Here(), job)
      requires Prepares(job.task) ==> Preparing(job.generation)
      modifies `shared, `now, `seen, `plan, `failure, `tick, `log, `ledger
      ensures Proceeded() && (r.Returned? ==> Orderly()) && Served(job.task) && Enables(job.task, r)
      ensures shared.ready && !old(shared).ready ==> Prepares(job.task) && r == Returned(true)
      ensures r == Returned(true) ==> Succeeded(old(Here()), Here(), plan, job.task)
      ensures r == Returned(false) ==> FellShort(old(Here()), Here(), plan, job)
      ensures old(Able(job)) ==> r == Returned(true)
    {
      hide Section.Inv, Section.Sends, Section.Proceeds, Section.Stops;
      ProceedsOn();
      if Urgent(job.task) {
        r := PerformStop(job);
        SendsMeans(old(Here()), Here());
      } else {
        r := PerformWork(job);
      }
    }

    /** After an exception: motion off, and under control the emergency stop was the last command, to be recovered. */
    ghost predicate Aborted(b: World, p: Plan) {
      && !b.shared.ready
      && (b.seen.client == Controlled ==>
          p.halt && !p.active && b.seen.latched && b.ledger.wire.latest == Order(EmergencyStopCall))
    }

    /** What each result means. */
    ghost predicate Means(a: World, b: World, p: Plan, job: Job, how: How) {
      match how
      case Ran(success) => if success then Succeeded(a, b, p, job.task) else FellShort(a, b, p, job)
      case Threw => Aborted(b, p)
      case Superseded => !Urgent(job.task) && (b.shared.quitting || b.shared.generation != job.generation)
      case Drained => false
    }

    /** The promise of a job that threw, after the emergency stop. */
    method FinishThrown(id: nat)
      requires Valid() && ledger.hand.running == Some(id) && ledger.hand.run.Some? && !ledger.hand.run.value.enabled
      modifies `shared, `now, `seen, `plan, `failure, `tick, `log, `ledger
      ensures Worked() && Orderly() && ledger.hand.running == None && id in ledger.settled
      ensures log != [] && log[|log| - 1] == Stamp(now, Settled(id, Threw)) && Aborted(Here(), plan)
      ensures ledger.hand.run == old(ledger).hand.run
    {
      hide Section.Inv, Section.Hears, Section.Reaches, Section.Works;
      WorksOn();
      AbortOnException();
      ReachesMeans(old(Here()), Here());
      Settle(id, Threw);
    }

    /** The promise of any other job. */
    method FinishReturned(id: nat, ok: bool)
      requires Valid() && Orderly() && ledger.hand.running == Some(id) && ledger.hand.run.Some?
      requires Earned(ledger.hand.run.value, ledger.wire, Ran(ok))
      modifies `shared, `now, `tick, `log, `ledger
      ensures Worked() && Orderly() && ledger.hand.running == None && id in ledger.settled
      ensures log != [] && log[|log| - 1] == Stamp(now, Settled(id, Ran(ok)))
      ensures ledger.hand.run == old(ledger).hand.run
      ensures WireKept(old(ledger).wire, ledger.wire)
      ensures shared.ready ==> old(shared).ready
    {
      hide Section.Agrees, Section.Hears, Section.Reaches, Section.Works, Section.Fulfilled;
      HearsOn();
      OrderOn();
      WorksOn();
      Interfere();
      HearsGate(old(Here()), Here());
      HearsWire(old(Here()), Here());
      HearsReady(old(Here()), Here());
      if ok { FulfilledOn(old(Here()), Here(), ledger.hand.run.value.task, ledger.hand.run.value.since); }
      Settle(id, Ran(ok));
    }

    /** Services running, and the result being given, change nothing about what it means. */
    lemma MeansOn(a: World, b: World, c: World, p: Plan, job: Job, ok: bool)
      requires Inv(b.shared, b.seen, b.ledger) && Inv(c.shared, c.seen, c.ledger) && c.seen == b.seen
      requires Works(b, c) && WireKept(b.ledger.wire, c.ledger.wire) && (c.shared.ready ==> b.shared.ready)
      requires job.generation <= b.shared.generation && Means(a, b, p, job, Ran(ok))
      ensures Means(a, c, p, job, Ran(ok))
    {
      hide Section.Agrees;
    }

    /** What a job did since it started it did since the worker had a look at the generation. */
    lemma MeansFrom(a: World, b: World, c: World, p: Plan, job: Job, how: How)
      requires Inv(a.shared, a.seen, a.ledger) && Inv(b.shared, b.seen, b.ledger)
      requires Hears(a, b) && b.seen == a.seen && Means(b, c, p, job, how)
      ensures Means(a, c, p, job, how)
    {
      hide Section.Agrees;
    }

    /** A returned result was earned by what the job did since it was taken. */
    lemma IsEarned(a: World, b: World, p: Plan, job: Job, ok: bool)
      requires Startable(a, job) && Inv(a.shared, a.seen, a.ledger) && b.ledger.hand.run.Some?
      requires ok ==> Succeeded(a, b, p, job.task)
      requires b.ledger.hand.run ==
        if Prepares(job.task) && ok then Enabling(a.ledger.hand).run else a.ledger.hand.run
      ensures Earned(b.ledger.hand.run.value, b.ledger.wire, Ran(ok))
    {
      hide Section.Inv, Section.Fulfilled;
      if ok { FulfilledFrom(a, a.ledger.hand.run.value, b.ledger.wire); }
    }

    /** The job's promise gets exactly what the job returned, or that it threw. */
    method Finish(ghost a: World, job: Job, r: Outcome<bool>) returns (ghost how: How)
      requires Valid() && ledger.hand.running == Some(job.id) && ledger.hand.run.Some?
      requires if r.Thrown? then !ledger.hand.run.value.enabled
        else
          && Orderly() && Earned(ledger.hand.run.value, ledger.wire, Ran(r.value))
          && Means(a, Here(), plan, job, Ran(r.value))
      requires job.generation <= shared.generation
      modifies `shared, `now, `seen, `plan, `failure, `tick, `log, `ledger
      ensures Worked() && Orderly() && ledger.hand.running == None && job.id in ledger.settled
      ensures how == if r.Thrown? then Threw else Ran(r.value)
      ensures log != [] && log[|log| - 1] == Stamp(now, Settled(job.id, how)) && Means(a, Here(), plan, job, how)
      ensures ledger.hand.run == old(ledger).hand.run
    {
      hide Section.Inv, Section.Works, Section.Stops, Section.Fulfilled;
      if r.Thrown? {
        FinishThrown(job.id);
        return Threw;
      }
      FinishReturned(job.id, r.value);
      MeansOn(a, old(Here()), Here(), plan, job, r.value);
      how := Ran(r.value);
    }

    /**
     Runs a job to its result, the one entry it leaves at the end. Work that stops
     have overtaken is not started; a stop always is. Only the success of a
     preparation has enabled motion.
     */
    method RunJob(job: Job) returns (ghost how: How)
      requires Valid() && Orderly() && Startable(Here(), job)
      modifies `shared, `now, `seen, `plan, `failure, `tick, `log, `ledger
      ensures Worked() && Orderly() && Served(job.task)
      ensures ledger.hand.running == None && job.id in ledger.settled
      ensures log != [] && log[|log| - 1] == Stamp(now, Settled(job.id, how))
      ensures Means(old(Here()), Here(), plan, job, how)
      ensures ledger.hand.run.Some? && (ledger.hand.run.value.enabled <==> Prepares(job.task) && how == Ran(true))
      ensures !Urgent(job.task) && (old(shared).quitting || old(shared).generation != job.generation) ==>
        how == Superseded
      ensures how == Superseded ==> seen == old(seen) && plan == old(plan) && WireKept(old(ledger).wire, ledger.wire)
      ensures old(Able(job)) ==> how == Ran(true)
    {
      hide Section.Inv, Section.Hears, Section.Reaches, Section.Works;
      hide Section.Proceeds, Section.Stops, Section.Prepping, Section.InOrder, Section.WireOn;
      HearsOn();
      OrderOn();
      ProceedsOn();
      WorksOn();
      StopsOn();
      var canceled := Interrupted(job.generation);
      ghost var w := Here();
      StartableOn(old(Here()), w, job);
      HearsTime(old(Here()), w);
      HearsWire(old(Here()), w);
      CancelStops(old(Here()), w);
      if !Urgent(job.task) && canceled {
        Supersede(job);
        return Superseded;
      }
      how := RunStarted(job);
      ghost var w1 := Here();
      WorksMeans(w, w1);
      MeansFrom(old(Here()), w, w1, plan, job, how);
    }

    /** Overtaken work gets its result without having commanded anything. */
    method Supersede(job: Job)
      requires Valid() && Orderly() && Startable(Here(), job) && !Urgent(job.task)
      modifies `shared, `log, `ledger
      ensures Worked() && Orderly() && ledger.hand.running == None && job.id in ledger.settled
      ensures shared == old(shared).(answered := shared.answered) && ledger.wire == old(ledger).wire
      ensures ledger.hand.run == old(ledger).hand.run
      ensures log != [] && log[|log| - 1] == Stamp(now, Settled(job.id, Superseded))
    {
      hide Section.Inv, Section.Works, Section.InOrder;
      Settle(job.id, Superseded);
    }

    /** The job itself, and its result. */
    method RunStarted(job: Job) returns (ghost how: How)
      requires Valid() && Orderly() && Startable(Here(), job)
      requires Prepares(job.task) ==> Preparing(job.generation)
      modifies `shared, `now, `seen, `plan, `failure, `tick, `log, `ledger
      ensures Worked() && Orderly() && Served(job.task)
      ensures ledger.hand.running == None && job.id in ledger.settled
      ensures log != [] && log[|log| - 1] == Stamp(now, Settled(job.id, how))
      ensures Means(old(Here()), Here(), plan, job, how)
      ensures ledger.hand.run.Some? && (ledger.hand.run.value.enabled <==> Prepares(job.task) && how == Ran(true))
      ensures how != Superseded
      ensures old(Able(job)) ==> how == Ran(true)
    {
      hide Section.Inv, Section.Hears, Section.Reaches, Section.Works;
      hide Section.Proceeds, Section.Stops, Section.Prepping;
      ProceedsOn();
      WorksOn();
      StopsOn();
      var r := Perform(job);
      ghost var w := Here();
      ProceedsMeans(old(Here()), w);
      if r.Returned? { IsEarned(old(Here()), Here(), plan, job, r.value); }
      how := Finish(old(Here()), job, r);
      WorksMeans(w, Here());
    }

    // ---------- The worker's loop ----------

    method Refresh() returns (r: Outcome<()>)
      requires Valid()
      modifies `shared, `now, `seen, `failure, `tick, `log, `ledger
      ensures Heard()
      ensures Silent() && Answers() ==> seen.client == Disconnected || seen.replyAt == now
    {
      hide Section.Inv, Section.Hears;
      HearsOn();
      StillHears(Here());
      if seen.client != Disconnected {
        var report :- QueryMotion();
        if report.Some? { var _ :- UpdateMotion(report.value); }
      }
      r := Returned(());
    }

    /** One asynchronous query at a time; an overdue one is given up. */
    method AskMotion()
      requires Valid()
      modifies `shared, `now, `seen, `tick, `log, `ledger
      ensures Heard() && seen == old(seen).(pendingMotion := seen.pendingMotion)
      ensures seen.pendingMotion.Some? && seen.pendingMotion.value >= old(now)
      ensures seen.pendingMotion == old(seen).pendingMotion || seen.pendingMotion == Some(now + opts.rpcTimeout)
    {
      hide Section.Inv, Section.Hears;
      HearsOn();
      Interfere();
      if seen.pendingMotion == None || now > seen.pendingMotion.value {
        Mark(seen.(pendingMotion := Some(now + opts.rpcTimeout)));
      }
    }

    method AskSystem()
      requires Valid()
      modifies `shared, `now, `seen, `tick, `log, `ledger
      ensures Heard() && seen == old(seen).(pendingSystem := seen.pendingSystem)
      ensures seen.pendingSystem.Some? && seen.pendingSystem.value >= old(now)
      ensures seen.pendingSystem == old(seen).pendingSystem || seen.pendingSystem == Some(now + opts.rpcTimeout)
    {
      hide Section.Inv, Section.Hears;
      HearsOn();
      Interfere();
      if seen.pendingSystem == None || now > seen.pendingSystem.value {
        Mark(seen.(pendingSystem := Some(now + opts.rpcTimeout)));
      }
    }

    method PollMotion(at: int)
      requires Valid()
      modifies `shared, `now, `seen, `plan, `tick, `log, `ledger
      ensures Heard() && plan == old(plan).(nextMotion := plan.nextMotion)
      ensures seen == old(seen).(pendingMotion := seen.pendingMotion) && old(now) <= now
      ensures if at >= old(plan).nextMotion then
          plan.nextMotion == at + 100 && seen.pendingMotion.Some? && seen.pendingMotion.value >= old(now)
        else
          plan == old(plan) && seen == old(seen)
    {
      hide Section.Inv, Section.Hears;
      StillHears(Here());
      if at >= plan.nextMotion {
        plan := plan.(nextMotion := at + 100);
        AskMotion();
        HearsTime(old(Here()), Here());
      }
    }

    method PollSystem(at: int)
      requires Valid()
      modifies `shared, `now, `seen, `plan, `tick, `log, `ledger
      ensures Heard() && plan == old(plan).(nextSystem := plan.nextSystem)
      ensures seen == old(seen).(pendingSystem := seen.pendingSystem) && old(now) <= now
      ensures if at >= old(plan).nextSystem then
          plan.nextSystem == at + 1000 && seen.pendingSystem.Some? && seen.pendingSystem.value >= old(now)
        else
          plan == old(plan) && seen == old(seen)
    {
      hide Section.Inv, Section.Hears;
      StillHears(Here());
      if at >= plan.nextSystem {
        plan := plan.(nextSystem := at + 1000);
        AskSystem();
        HearsTime(old(Here()), Here());
      }
    }

    /** Asks for a motion report every 100 ms and for the system state every second, one query at a time. */
    method Poll(at: int)
      requires Valid()
      modifies `shared, `now, `seen, `plan, `tick, `log, `ledger
      ensures Heard() && plan == old(plan).(nextMotion := plan.nextMotion, nextSystem := plan.nextSystem)
      ensures seen == old(seen).(pendingMotion := seen.pendingMotion, pendingSystem := seen.pendingSystem)
      ensures if at >= old(plan).nextMotion then
          plan.nextMotion == at + 100 && seen.pendingMotion.Some? && seen.pendingMotion.value >= old(now)
        else
          plan.nextMotion == old(plan).nextMotion && seen.pendingMotion == old(seen).pendingMotion
      ensures if at >= old(plan).nextSystem then
          plan.nextSystem == at + 1000 && seen.pendingSystem.Some? && seen.pendingSystem.value >= old(now)
        else
          plan.nextSystem == old(plan).nextSystem && seen.pendingSystem == old(seen).pendingSystem
    {
      hide Section.Inv, Section.Hears;
      HearsOn();
      PollMotion(at);
      PollSystem(at);
    }

    /** One attempt to connect; the next is due an interval after it. */
    method TryConnect() returns (r: Outcome<()>)
      requires Valid()
      modifies `shared, `now, `seen, `plan, `failure, `tick, `log, `ledger
      ensures Left() && TakesNoControl() && plan.halt == old(plan).halt && plan.active == old(plan).active
      ensures r.Returned? ==> plan.nextConnect >= old(now) + opts.reconnect
      ensures Cooperates() && old(seen).client == Disconnected ==> r == Returned(()) && seen.connected
    {
      hide Section.Inv, Section.Hears, Section.Leaves;
      LeavesOn();
      plan := plan.(nextConnect := now + opts.reconnect);
      var _ :- ConnectRobot();
      Interfere();
      LeavesSends(old(Here()), Here());
      SendsMeans(old(Here()), Here());
      plan := plan.(nextConnect := now + opts.reconnect);
      r := Returned(());
    }

    /** Without a session: connects again when asked to before and when it is time. */
    method Reconnect() returns (r: Outcome<()>)
      requires Valid() && Orderly()
      modifies `shared, `now, `seen, `plan, `failure, `tick, `log, `ledger
      ensures Left() && Orderly() && TakesNoControl()
      ensures !old(plan).started ==> seen == old(seen)
      ensures old(plan).started && old(now) >= old(plan).nextConnect && r.Returned? ==>
        plan.nextConnect >= old(now) + opts.reconnect
      ensures Cooperates() && old(plan.started && now >= plan.nextConnect && seen.client == Disconnected) ==>
        r == Returned(()) && seen.connected
    {
      hide Section.Inv, Section.Hears, Section.Leaves;
      LeavesOn();
      Interfere();
      HearsTime(old(Here()), Here());
      assert Orderly();
      r := Returned(());
      if plan.started && now >= plan.nextConnect { r := TryConnect(); }
    }

    /** Walking reports have stopped coming: motion off, then stop. */
    method StopIfStale(at: int) returns (r: Outcome<()>)
      requires Valid() && Orderly()
      modifies `shared, `now, `seen, `plan, `failure, `tick, `log, `ledger
      ensures Went() && (r.Returned? ==> Orderly()) && TakesNoControl()
      ensures at - old(seen).replyAt > opts.telemetryTimeout ==> !shared.ready
      ensures !old(shared).ready || at - old(seen).replyAt <= opts.telemetryTimeout ==>
        r == Returned(()) && Heard() && seen == old(seen) && plan == old(plan) && (Silent() ==> Here() == old(Here()))
      ensures at - old(seen).replyAt > opts.telemetryTimeout && Silent() && old(shared).ready ==> Halted()
    {
      hide Section.Inv, Section.Hears, Section.Reaches, Section.Stops;
      ReachesOn();
      OrderOn();
      StopsOn();
      Interfere();
      ghost var w := Here();
      HearsReady(old(Here()), w);
      if shared.ready && at - seen.replyAt > opts.telemetryTimeout {
        var _ :- DisableAndStop(true);
      }
      r := Returned(());
    }

    /** No answer of any kind for too long. */
    predicate Mute(at: int): (mute: bool)
      reads `seen
      ensures mute <==> at - seen.systemAt > opts.telemetryTimeout && at - seen.replyAt > opts.telemetryTimeout
    {
      at - Max(seen.systemAt, seen.replyAt) > opts.telemetryTimeout
    }

    /** A stop, or else the emergency stop. */
    method StopOrEscalate() returns (r: Outcome<()>)
      requires Valid()
      modifies `shared, `now, `seen, `plan, `failure, `tick, `log, `ledger
      ensures Went() && Halted() && TakesNoControl()
      ensures r.Returned? && seen.client == Controlled && plan.halt ==>
        old(seen).client != Controlled || ledger.wire.emergencies > old(ledger).wire.emergencies
    {
      hide Section.Inv, Section.Hears, Section.Reaches, Section.Stops;
      ReachesOn();
      StopsOn();
      StillHears(Here());
      if seen.client != Controlled { return Returned(()); }
      var stopped :- Stop(true);
      if stopped { return Returned(()); }
      ghost var w := Here();
      ReachesMeans(old(Here()), w);
      var told := Call(EmergencyStopCall);
      r := if told.Thrown? then Thrown else Returned(());
    }

    /** No answer of any kind: motion off, stop, or the emergency stop, and start over without control. */
    method LeaveIfSilent(at: int) returns (r: Outcome<()>)
      requires Valid() && Orderly()
      modifies `shared, `now, `seen, `plan, `failure, `tick, `log, `ledger
      ensures Drove() && TakesNoControl() && (r.Returned? ==> Orderly())
      ensures !old(Mute(at)) ==> r == Returned(()) && Here() == old(Here()) && plan == old(plan)
      ensures old(Mute(at)) ==> Halted() && !shared.ready
      ensures old(Mute(at)) && r.Returned? ==> seen.client == Disconnected && !seen.owned && !seen.connected
    {
      hide Section.Inv, Section.Hears, Section.Reaches, Section.Stops, Section.Sends, Section.Leaves;
      SendsOn();
      HearsOn();
      StopsOn();
      StillHears(Here());
      if !Mute(at) { return Returned(()); }
      ReachesOn();
      DisableMotion();
      CancelQueries();
      ghost var w := Here();
      ReachesMeans(old(Here()), w);
      CancelStops(old(Here()), w);
      var halted := StopOrEscalate();
      ghost var w1 := Here();
      ReachesMeans(w, w1);
      if halted.Thrown? { return Thrown; }
      r := Leave();
      LeavesSends(w1, Here());
      SendsMeans(w1, Here());
    }

    /** The first half of supervision: stale reports, then velocities. */
    method Watch(at: int) returns (r: Outcome<()>)
      requires Valid() && Orderly() && ledger.hand.running == None
      modifies `shared, `now, `seen, `plan, `failure, `tick, `log, `ledger
      ensures Drove() && TakesNoControl() && (r.Returned? ==> Orderly())
      ensures at - old(seen).replyAt > opts.telemetryTimeout ==> !shared.ready
      ensures !old(shared).ready ==> r == Returned(()) && seen == old(seen) && plan == old(plan).(active := false)
      ensures at - old(seen).replyAt <= opts.telemetryTimeout && Silent() ==>
        && (old(Due()) ==> ledger.wire.sent > old(ledger).wire.sent) && (old(Overdue()) ==> Halted())
    {
      hide Section.Inv, Section.Hears, Section.Reaches, Section.Stops, Section.Sends;
      SendsOn();
      StopsOn();
      var _ :- StopIfStale(at);
      ghost var w := Here();
      ReachesMeans(old(Here()), w);
      r := DispatchVelocity();
      SendsMeans(w, Here());
    }

    /** The second half: a stop to recover, queries, and a robot that no longer answers. */
    method Mend(at: int) returns (r: Outcome<()>)
      requires Valid() && Orderly()
      modifies `shared, `now, `seen, `plan, `failure, `tick, `log, `ledger
      ensures Drove() && TakesNoControl() && (r.Returned? ==> Orderly())
      ensures old(Recovering()) && !old(plan).escalated ==> ledger.wire.emergencies > old(ledger).wire.emergencies
      ensures !old(plan).halt && old(Mute(at)) ==> Halted() && (r.Returned? ==> seen.client == Disconnected)
      ensures !old(plan).halt && !old(Mute(at)) ==> Polled(at)
    {
      hide Section.Inv, Section.Hears, Section.Reaches, Section.Stops, Section.Sends;
      SendsOn();
      StopsOn();
      var recovered := RecoverStop();
      ghost var w := Here();
      if recovered.Thrown? { return Thrown; }
      r := PollAndLeave(at);
      SendsMeans(w, Here());
    }

    method PollAndLeave(at: int) returns (r: Outcome<()>)
      requires Valid() && Orderly()
      modifies `shared, `now, `seen, `plan, `failure, `tick, `log, `ledger
      ensures Drove() && TakesNoControl() && (r.Returned? ==> Orderly())
      ensures old(Mute(at)) ==> Halted() && (r.Returned? ==> seen.client == Disconnected)
      ensures !old(Mute(at)) ==> Polled(at)
    {
      hide Section.Inv, Section.Hears, Section.Reaches, Section.Stops, Section.Sends;
      HearsOn();
      OrderOn();
      SendsOn();
      StopsOn();
      Poll(at);
      ghost var w := Here();
      HearsWire(old(Here()), w);
      CancelStops(old(Here()), w);
      r := LeaveIfSilent(at);
    }

    /**
     The part of a round that needs a session. An unconfirmed stop is escalated when
     due, motion is off under stale reports, and a robot that answers nothing is left.
     */
    method Supervise() returns (r: Outcome<()>)
      requires Valid() && Orderly() && ledger.hand.running == None
      modifies `shared, `now, `seen, `plan, `failure, `tick, `log, `ledger
      ensures Drove() && TakesNoControl() && (r.Returned? ==> Orderly())
      ensures old(now) - old(seen).replyAt > opts.telemetryTimeout ==> !shared.ready
      ensures old(Recovering()) && !old(plan).escalated ==> ledger.wire.emergencies > old(ledger).wire.emergencies
      ensures !old(plan).halt && !old(shared).ready && old(Mute(now)) ==>
        Halted() && (r.Returned? ==> seen.client == Disconnected)
      ensures old(now) - old(seen).replyAt <= opts.telemetryTimeout && Silent() ==>
        && (old(Due()) ==> ledger.wire.sent > old(ledger).wire.sent) && (old(Overdue()) ==> Halted())
      ensures Silent() && !old(plan).halt && !old(shared).ready && !old(Mute(now)) ==> Polled(old(now))
    {
      hide Section.Inv, Section.Hears, Section.Reaches, Section.Stops, Section.Sends;
      HearsOn();
      OrderOn();
      SendsOn();
      StopsOn();
      Interfere();
      ghost var w := Here();
      HearsReady(old(Here()), w);
      HearsTime(old(Here()), w);
      HearsWire(old(Here()), w);
      CancelStops(old(Here()), w);
      r := WatchAndMend(now);
    }

    method WatchAndMend(at: int) returns (r: Outcome<()>)
      requires Valid() && Orderly() && at == now && ledger.hand.running == None
      modifies `shared, `now, `seen, `plan, `failure, `tick, `log, `ledger
      ensures Drove() && TakesNoControl() && (r.Returned? ==> Orderly())
      ensures at - old(seen).replyAt > opts.telemetryTimeout ==> !shared.ready
      ensures old(Recovering()) && !old(plan).escalated ==> ledger.wire.emergencies > old(ledger).wire.emergencies
      ensures !old(plan).halt && !old(shared).ready && old(Mute(at)) ==>
        Halted() && (r.Returned? ==> seen.client == Disconnected)
      ensures at - old(seen).replyAt <= opts.telemetryTimeout && Silent() ==>
        && (old(Due()) ==> ledger.wire.sent > old(ledger).wire.sent) && (old(Overdue()) ==> Halted())
      ensures !old(plan).halt && !old(shared).ready && !old(Mute(at)) ==> Polled(at)
    {
      hide Section.Inv, Section.Hears, Section.Reaches, Section.Stops, Section.Sends;
      SendsOn();
      StopsOn();
      var watched := Watch(at);
      ghost var w := Here();
      SendsMeans(old(Here()), w);
      if watched.Thrown? { return Thrown; }
      if seen.action == old(seen).action { CancelStops(old(Here()), w); }
      r := Mend(at);
      SendsMeans(w, Here());
    }

    /** The next job, if any, and a report after it. */
    method ServeNext() returns (r: Outcome<()>)
      requires Valid() && Orderly() && ledger.hand.running == None
      modifies `shared, `now, `seen, `plan, `failure, `tick, `log, `ledger
      ensures Worked() && Orderly() && ledger.hand.running == None
      ensures old(shared).urgent != [] ==>
        ledger.hand.lastStop >= old(shared).urgent[0].id && Served(old(shared).urgent[0].task)
      ensures Silent() && Answers() && old(shared.urgent + shared.normal) != [] ==>
        seen.client == Disconnected || seen.replyAt == now
      ensures Silent() && old(shared.urgent + shared.normal) == [] ==>
        r == Returned(()) && Here() == old(Here()) && plan == old(plan)
    {
      hide Section.Inv, Section.Hears, Section.Reaches, Section.Works, Section.Stops, Section.Startable;
      HearsOn();
      OrderOn();
      WorksOn();
      StopsOn();
      var job := PopJob();
      ghost var w := Here();
      if job == None { return Returned(()); }
      WorksMeans(old(Here()), w);
      CancelStops(old(Here()), w);
      ghost var _ := RunJob(job.value);
      ghost var w1 := Here();
      WorksMeans(w, w1);
      assert Orderly();
      r := Refresh();
      HearsGate(w1, Here());
      HearsWire(w1, Here());
    }

    /** Services are silent, and the robot of an open session answers. */
    ghost predicate Attended()
      reads `shared, `seen
    {
      Silent() && Answers() && !shared.quitting && seen.client != Disconnected
    }

    /** Reports are recent. */
    ghost predicate Informed()
      reads `seen, `now
    {
      now - seen.replyAt <= opts.telemetryTimeout
    }

    /** A velocity went out if one was due, and a stop if one was overdue. */
    twostate predicate Dispatches()
      reads `shared, `seen, `now, `log, `ledger
    {
      && (old(Due()) ==> ledger.wire.sent > old(ledger).wire.sent)
      && (old(Overdue()) ==> Halted())
    }

    /** There is no session, and it is time to try for one. */
    ghost predicate Reconnecting()
      reads `shared, `seen, `plan, `now
    {
      Cooperates() && !shared.quitting && seen.client == Disconnected && plan.started && now >= plan.nextConnect
    }

    /** The queries that are due at that time are outstanding, and due again later. */
    twostate predicate Polled(at: int)
      reads `seen, `plan
    {
      && (at >= old(plan).nextMotion ==> plan.nextMotion == at + 100 && seen.pendingMotion.Some?)
      && (at >= old(plan).nextSystem ==> plan.nextSystem == at + 1000 && seen.pendingSystem.Some?)
    }

    /** The rest of a turn. */
    method Tend() returns (r: Outcome<()>)
      requires Valid() && Orderly() && ledger.hand.running == None
      modifies `shared, `now, `seen, `plan, `failure, `tick, `log, `ledger
      ensures Drove() && (r.Returned? ==> Orderly())
      ensures r.Returned? && old(plan.halt && !plan.escalated && now >= plan.nextHalt) ==>
        seen.client != Controlled || shared.quitting || ledger.wire.emergencies > old(ledger).wire.emergencies
      ensures old(Attended() && Informed()) ==> Dispatches()
      ensures old(Attended() && !Informed()) ==> !shared.ready
      ensures old(Reconnecting()) ==> r == Returned(()) && seen.connected
    {
      hide Section.Inv, Section.Hears, Section.Reaches, Section.Sends, Section.Leaves;
      HearsOn();
      OrderOn();
      SendsOn();
      Interfere();
      if shared.quitting { return Returned(()); }
      assert Orderly();
      var _ :- Exchange();
      ghost var w := Here();
      HearsTime(old(Here()), w);
      HearsWire(old(Here()), w);
      if seen.client == Disconnected {
        r := Reconnect();
        LeavesSends(w, Here());
        return;
      }
      r := Supervise();
    }

    /** The try block of one turn of the loop. */
    method Turn() returns (r: Outcome<()>)
      requires Valid() && Orderly() && ledger.hand.running == None
      modifies `shared, `now, `seen, `plan, `failure, `tick, `log, `ledger
      ensures Worked() && (r.Returned? ==> Orderly()) && ledger.hand.running == None
      ensures old(shared).urgent != [] ==>
        ledger.hand.lastStop >= old(shared).urgent[0].id && Served(old(shared).urgent[0].task)
      ensures old(shared.urgent + shared.normal == [] && Attended() && Informed()) ==> Dispatches()
      ensures old(shared.urgent + shared.normal == [] && Attended() && !Informed()) ==> !shared.ready
      ensures old(shared.urgent + shared.normal == [] && Reconnecting()) ==> r == Returned(()) && seen.connected
    {
      hide Section.Inv, Section.Sends, Section.Proceeds, Section.Works, Section.Stops;
      ProceedsOn();
      WorksOn();
      StopsOn();
      var served := ServeNext();
      if served.Thrown? { return Thrown; }
      ghost var w := Here();
      r := Tend();
      SendsMeans(w, Here());
      WorksMeans(w, Here());
    }

    /**
     One turn of the loop, with its catch. Every loop head is in good order again,
     and the stop that was first in the queue has run and done its work on a robot
     under control, whatever the robot answered and whatever else was asked.
     */
    method Round()
      requires Valid() && Orderly() && ledger.hand.running == None
      modifies `shared, `now, `seen, `plan, `failure, `tick, `log, `ledger
      ensures Worked() && Orderly() && ledger.hand.running == None
      ensures old(shared).urgent != [] ==>
        ledger.hand.lastStop >= old(shared).urgent[0].id && Served(old(shared).urgent[0].task)
      ensures old(shared.urgent + shared.normal == [] && Attended() && Informed()) ==> Dispatches()
      ensures old(shared.urgent + shared.normal == [] && Attended() && !Informed()) ==> !shared.ready
      ensures old(shared.urgent + shared.normal == [] && Reconnecting()) ==> seen.connected
    {
      hide Section.Inv, Section.Hears, Section.Reaches, Section.Works, Section.Stops;
      WorksOn();
      StopsOn();
      ReachesOn();
      var r := Turn();
      if r.Thrown? {
        ghost var w := Here();
        AbortOnException();
        ghost var w1 := Here();
        Pause();
        HearsReady(w1, Here());
        ReachesMeans(w, Here());
      }
    }

    // ---------- Shutdown ----------

    /** Under one lock, every queued job gets its result. */
    method Drain()
      requires Valid() && ledger.hand.running == None
      modifies `shared, `log, `ledger
      ensures Worked() && shared.urgent == [] && shared.normal == [] && ledger.hand.running == None
      ensures forall i :: 0 <= i < shared.accepted ==> i in ledger.settled
    {
      hide Section.Inv, Section.Works;
      DrainUrgent();
      DrainPlain();
      WorksOn();
      AllSettled(shared, seen, ledger);
    }

    method DrainUrgent()
      requires Valid() && ledger.hand.running == None
      modifies `shared, `log, `ledger
      ensures Worked() && shared.urgent == [] && ledger.hand.running == None
    {
      hide Section.Agrees;
      while shared.urgent != []
        invariant Worked() && ledger.hand.running == None
        decreases |shared.urgent|
      {
        DrainUrgentKeeps(shared, seen, ledger, now);
        var id := shared.urgent[0].id;
        Commit(shared.(urgent := shared.urgent[1..], answered := shared.answered + {id}), Settled(id, Drained));
      }
    }

    method DrainPlain()
      requires Valid() && ledger.hand.running == None && shared.urgent == []
      modifies `shared, `log, `ledger
      ensures Worked() && shared.urgent == [] && shared.normal == [] && ledger.hand.running == None
    {
      hide Section.Agrees;
      while shared.normal != []
        invariant Worked() && ledger.hand.running == None && shared.urgent == []
        decreases |shared.normal|
      {
        DrainPlainKeeps(shared, seen, ledger, now);
        var id := shared.normal[0].id;
        Commit(shared.(normal := shared.normal[1..], answered := shared.answered + {id}), Settled(id, Drained));
      }
    }

    /** What follows an unfinished last stop: the emergency stop. */
    method LastResort(released: Outcome<bool>)
      requires Valid()
      modifies `shared, `now, `seen, `plan, `failure, `tick, `log, `ledger
      ensures Went()
      ensures released != Returned(true) && old(seen).client == Controlled ==>
        ledger.wire.emergencies > old(ledger).wire.emergencies
    {
      hide Section.Inv, Section.Hears, Section.Reaches;
      ReachesOn();
      StillHears(Here());
      if released == Returned(true) { return; }
      var escalated := if released.Thrown? then Thrown else Returned(true);
      if released.Returned? { escalated := Call(EmergencyStopCall); }
      ghost var w := Here();
      StillHears(w);
      if escalated.Thrown? { AbortOnException(); }
      ReachesMeans(w, Here());
    }

    /** Stops and releases a robot still under control; a robot that stays under control got the emergency stop. */
    method LastStop()
      requires Valid()
      modifies `shared, `now, `seen, `plan, `failure, `tick, `log, `ledger
      ensures Went() && Halted()
    {
      hide Section.Inv, Section.Hears, Section.Reaches, Section.Stops;
      ReachesOn();
      StopsOn();
      CancelQueries();
      if seen.client != Controlled { return; }
      HearsWire(old(Here()), Here());
      CancelStops(old(Here()), Here());
      var released := Release(false);
      LastResort(released);
    }

    /** After the loop. Thrown is an exception nobody catches. */
    method Shutdown() returns (r: Outcome<()>)
      requires Valid() && shared.quitting && ledger.hand.running == None
      modifies `shared, `now, `seen, `plan, `failure, `tick, `log, `ledger
      ensures Worked() && Halted()
      ensures r.Returned? ==> forall i :: 0 <= i < shared.accepted ==> i in ledger.settled
      ensures r.Returned? ==> shared.urgent == [] && shared.normal == [] && seen.client == Disconnected
    {
      hide Section.Inv, Section.Hears, Section.Reaches, Section.Works;
      hide Section.Stops, Section.Leaves, Section.Sends, Section.Proceeds;
      HearsOn();
      WorksOn();
      StopsOn();
      LastStop();
      ghost var w := Here();
      ReachesMeans(old(Here()), w);
      r := Close();
    }

    /** The session ends, and every job left gets its result. */
    method Close() returns (r: Outcome<()>)
      requires Valid() && shared.quitting && ledger.hand.running == None
      modifies `shared, `now, `seen, `plan, `failure, `tick, `log, `ledger
      ensures Worked()
      ensures r.Returned? ==> forall i :: 0 <= i < shared.accepted ==> i in ledger.settled
      ensures r.Returned? ==> shared.urgent == [] && shared.normal == [] && seen.client == Disconnected
    {
      hide Section.Inv, Section.Hears, Section.Works, Section.Leaves, Section.Sends, Section.Proceeds;
      HearsOn();
      LeavesOn();
      WorksOn();
      ProceedsOn();
      StillHears(Here());
      if plan.observing { var _ :- Exchange(); }
      HearsTime(old(Here()), Here());
      var left := DisconnectClient();
      ghost var w := Here();
      LeavesSends(old(Here()), w);
      SendsMeans(old(Here()), w);
      if left.Thrown? { return Thrown; }
      Drain();
      r := Returned(());
    }

    /**
     The worker thread: rounds until the destructor is seen to quit, then the
     shutdown. `turns` bounds how much of an endless run is looked at.
     */
    method Run(turns: nat) returns (finished: bool)
      requires Valid() && Orderly() && ledger.hand.running == None
      modifies `shared, `now, `seen, `plan, `failure, `tick, `log, `ledger
      ensures Worked()
      ensures !finished && !shared.quitting ==> Orderly()
      ensures finished ==> shared.quitting && shared.urgent == [] && shared.normal == [] && seen.client == Disconnected
      ensures finished ==> forall i :: 0 <= i < shared.accepted ==> i in ledger.settled
    {
      hide Section.Inv, Section.Works;
      WorksOn();
      StillWorks(Here());
      var n := 0;
      while !shared.quitting && n < turns
        invariant Worked() && Orderly() && ledger.hand.running == None
      {
        Round();
        n := n + 1;
      }
      if !shared.quitting { return false; }
      ghost var w1 := Here();
      var closed := Shutdown();
      WorksMeans(w1, Here());
      finished := closed.Returned?;
    }
  }
}
