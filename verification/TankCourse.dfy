/**
 What each call of the TANK back end exchanges with the device, in order, from
 its request to the result its caller gets: the entries of one thread in the
 history of any run, whatever the other threads do in between.
 */
module TankCourse {
  import opened Prelude
  import opened TankState
  import opened TankProtocol
  import opened TankInvariant
  import opened TankSystem

  function By(e: Entry): Option<Tid> { if e.Accepted? then None else Some(e.sender) }

  /** The entries of thread t, in order. */
  function Own(log: seq<Entry>, t: Tid): seq<Entry> {
    if log == [] then []
    else
      var e := log[|log| - 1];
      Own(log[..|log| - 1], t) + if By(e) == Some(t) then [e] else []
  }

  lemma OwnAfter(log: seq<Entry>, entries: seq<Entry>, t: Tid)
    requires |entries| <= 1
    ensures Own(log + entries, t) ==
      if entries != [] && By(entries[0]) == Some(t) then Own(log, t) + entries else Own(log, t)
  {
    if entries == [] {
      assert log + entries == log;
    } else {
      assert (log + entries)[..|log|] == log;
    }
  }

  const ZERO := MoveFrame(0.0, 0.0, 0)

  // ---------- The courses ----------

  /** A stop, from its ticket test on: the brake is written and read back, or a zero velocity acknowledged. */
  function StopCourse(ticket: nat, t: Tid, emergency: bool): seq<Entry> {
    [Secured(ticket, t)] +
    if emergency then [Sent(BrakeFrame(true), t, ticket, true), BrakeRead(ticket, t, true)]
    else [Sent(ZERO, t, ticket, true)]
  }

  /** Idle commanded and read back, then the brake read. */
  function Observed(ticket: nat, t: Tid, brake: bool): seq<Entry> {
    [Sent(IdleFrame, t, ticket, true), StateRead(ticket, t, IDLE), BrakeRead(ticket, t, brake)]
  }

  /** An engaged brake is released by a ready whose ticket is still current, and read back. */
  function Released(ticket: nat, t: Tid): seq<Entry> {
    Observed(ticket, t, true)
    + [Tested(ticket, t), Sent(BrakeFrame(false), t, ticket, true), BrakeRead(ticket, t, false)]
  }

  /** All that precedes the commit of a preparation that ends with that brake reading. */
  predicate Prepared(explicit: bool, ticket: nat, t: Tid, brake: bool, done: seq<Entry>) {
    || done == Observed(ticket, t, brake) + [Sent(ZERO, t, ticket, true)]
    || (explicit && !brake && done == Released(ticket, t) + [Sent(ZERO, t, ticket, true)])
  }

  predicate ReadyCourse(ticket: nat, t: Tid, done: seq<Entry>) {
    && done != [] && done[|done| - 1] == Committed(ticket, t)
    && Prepared(true, ticket, t, false, done[..|done| - 1])
  }

  /** Success of a call is its whole course, no less and no more. */
  predicate Successful(call: Call, ticket: nat, t: Tid, done: seq<Entry>) {
    match call
    case Stop(emergency) => done == StopCourse(ticket, t, emergency)
    case _ => ReadyCourse(ticket, t, done)
  }

  // ---------- Where a thread is on its course ----------

  predicate PrepareDone(o: Options, t: Tid, pc: Pc, done: seq<Entry>)
    requires pc.Prepare?
  {
    if o.motionOutput then CommandDone(t, pc, done) else QueryDone(t, pc, done)
  }

  /** Without motion output connect and reconnect only read. */
  predicate QueryDone(t: Tid, pc: Pc, done: seq<Entry>)
    requires pc.Prepare?
  {
    var Prepare(stage, call, ticket, operation, brake) := pc;
    && !Explicit(call)
    && match stage
       case ToIdle => done == []
       case QueryState => done == []
       case QueryBrake => done == [StateRead(ticket, t, operation)]
       case TestRelease => done == [StateRead(ticket, t, operation), BrakeRead(ticket, t, brake)]
       case Commit => done == [StateRead(ticket, t, operation), BrakeRead(ticket, t, brake)]
       case _ => false
  }

  predicate CommandDone(t: Tid, pc: Pc, done: seq<Entry>)
    requires pc.Prepare?
  {
    var Prepare(stage, call, ticket, operation, brake) := pc;
    var idle := Sent(IdleFrame, t, ticket, true);
    match stage
    case ToIdle => done == []
    case QueryState => done == [idle]
    case QueryBrake => done == [idle, StateRead(ticket, t, IDLE)]
    case TestRelease => done == Observed(ticket, t, brake)
    case Release => done == Observed(ticket, t, true) + [Tested(ticket, t)]
    case ReadBack =>
      done == Observed(ticket, t, true) + [Tested(ticket, t), Sent(BrakeFrame(false), t, ticket, true)]
    case SendZero =>
      || done == Observed(ticket, t, brake)
      || (Explicit(call) && !brake && done == Released(ticket, t))
    case Commit => Prepared(Explicit(call), ticket, t, brake, done)
  }

  /** What the thread has exchanged since its call, or its poll, began. */
  predicate Done(o: Options, t: Tid, pc: Pc, done: seq<Entry>) {
    match pc
    case WantAction(_, _) => done == []
    case WantIo(_, _) => done == []
    case Check(_, _) => done == []
    case StopBrake(call, ticket) => call == Stop(true) && done == [Secured(ticket, t)]
    case StopReadBack(call, ticket) =>
      call == Stop(true) && done == [Secured(ticket, t), Sent(BrakeFrame(true), t, ticket, true)]
    case StopCommit(call, ticket) => call == Stop(true) && done == StopCourse(ticket, t, true)
    case StopZero(call, ticket) => call == Stop(false) && done == [Secured(ticket, t)]
    case Prepare(_, _, _, _, _) => PrepareDone(o, t, pc, done)
    case Failing(call, ticket) => !Successful(call, ticket, t, done)
    case Finish(call, ticket, ok) => Asked(call) ==> (ok <==> Successful(call, ticket, t, done))
    case FinishAction(call, ticket, ok) => Asked(call) ==> (ok <==> Successful(call, ticket, t, done))
    case Returned(call, ticket, ok) =>
      && done != [] && done[|done| - 1] == Answered(ticket, t, call, ok)
      && (ok <==> Successful(call, ticket, t, done[..|done| - 1]))
    case PollBrake(ticket, operation) => done == [StateRead(ticket, t, operation)]
    case PollTest(ticket, operation, brake) => done == [StateRead(ticket, t, operation), BrakeRead(ticket, t, brake)]
    case PollCommit(ticket, operation, brake) => done == [StateRead(ticket, t, operation), BrakeRead(ticket, t, brake)]
    case _ => true
  }

  predicate Asked(call: Call) { call == Ready || call.Stop? }

  /** A caller has done nothing but its one call; the workers begin anew with every call or poll. */
  ghost predicate OnCourse(o: Options, t: Tid, pc: Pc, own: seq<Entry>) {
    if t.Caller? then
      && o.motionOutput && ServicePc(pc)
      && own != [] && own[0] == Requested(pc.ticket, t, pc.call) && Done(o, t, pc, own[1..])
    else
      exists n: nat :: n <= |own| && Done(o, t, pc, own[n..])
  }

  // ---------- One step ----------

  lemma NotReady(ticket: nat, t: Tid, done: seq<Entry>)
    requires done == [] || !done[|done| - 1].Committed?
    ensures !ReadyCourse(ticket, t, done)
  {
  }

  lemma QueryOn(o: Options, t: Tid, g: Globals, pc: Pc, c: Choice, done: seq<Entry>)
    requires o.motionOutput && pc.Prepare? && !pc.call.Stop? && CommandDone(t, pc, done)
    requires pc.stage == ToIdle || pc.stage == QueryState || pc.stage == QueryBrake
    ensures var out := StepPrepare(o, t, g, pc, c); Done(o, t, out.pc, done + out.entries)
  {
    hide ReadyCourse, Prepared;
    NotReady(pc.ticket, t, done + StepPrepare(o, t, g, pc, c).entries);
  }

  lemma ReleaseOn(o: Options, t: Tid, g: Globals, pc: Pc, c: Choice, done: seq<Entry>)
    requires o.motionOutput && pc.Prepare? && !pc.call.Stop? && CommandDone(t, pc, done)
    requires pc.stage == TestRelease || pc.stage == Release || pc.stage == ReadBack
    requires pc.stage == Release || pc.stage == ReadBack ==> Explicit(pc.call)
    ensures var out := StepPrepare(o, t, g, pc, c); Done(o, t, out.pc, done + out.entries)
  {
    hide ReadyCourse, Prepared;
    NotReady(pc.ticket, t, done + StepPrepare(o, t, g, pc, c).entries);
  }

  lemma CommitOn(o: Options, t: Tid, g: Globals, pc: Pc, c: Choice, done: seq<Entry>)
    requires o.motionOutput && pc.Prepare? && !pc.call.Stop? && CommandDone(t, pc, done)
    requires pc.stage == SendZero || pc.stage == Commit
    requires Explicit(pc.call) ==> !pc.deviceBrake
    ensures var out := StepPrepare(o, t, g, pc, c); Done(o, t, out.pc, done + out.entries)
  {
    var all := done + StepPrepare(o, t, g, pc, c).entries;
    if all == done {
    } else {
      assert all[..|all| - 1] == done;
    }
    if !all[|all| - 1].Committed? { NotReady(pc.ticket, t, all); }
  }

  lemma CommandOn(o: Options, t: Tid, g: Globals, pc: Pc, c: Choice, done: seq<Entry>)
    requires o.motionOutput && pc.Prepare? && !pc.call.Stop? && CommandDone(t, pc, done)
    requires pc.stage == Release || pc.stage == ReadBack ==> Explicit(pc.call)
    requires pc.stage == SendZero || pc.stage == Commit ==> Explicit(pc.call) ==> !pc.deviceBrake
    ensures var out := StepPrepare(o, t, g, pc, c); Done(o, t, out.pc, done + out.entries)
  {
    hide StepPrepare, CommandDone, Done;
    match pc.stage
    case ToIdle => QueryOn(o, t, g, pc, c, done);
    case QueryState => QueryOn(o, t, g, pc, c, done);
    case QueryBrake => QueryOn(o, t, g, pc, c, done);
    case SendZero => CommitOn(o, t, g, pc, c, done);
    case Commit => CommitOn(o, t, g, pc, c, done);
    case _ => ReleaseOn(o, t, g, pc, c, done);
  }

  lemma PrepareOn(o: Options, t: Tid, g: Globals, pc: Pc, c: Choice, done: seq<Entry>)
    requires pc.Prepare? && !pc.call.Stop? && PrepareDone(o, t, pc, done)
    requires pc.stage == Release || pc.stage == ReadBack ==> Explicit(pc.call)
    requires pc.stage == SendZero || pc.stage == Commit ==> Explicit(pc.call) ==> !pc.deviceBrake
    ensures var out := StepPrepare(o, t, g, pc, c); Done(o, t, out.pc, done + out.entries)
  {
    hide CommandDone, StepPrepare, Done, ReadyCourse, Prepared;
    if o.motionOutput { CommandOn(o, t, g, pc, c, done); } else { DryOn(o, t, g, pc, c, done); }
  }

  /** A preparation without motion output. */
  lemma DryOn(o: Options, t: Tid, g: Globals, pc: Pc, c: Choice, done: seq<Entry>)
    requires !o.motionOutput && pc.Prepare? && !pc.call.Stop? && PrepareDone(o, t, pc, done)
    ensures var out := StepPrepare(o, t, g, pc, c); Done(o, t, out.pc, done + out.entries)
  {
    hide CommandDone, ReadyCourse, Prepared;
    NotReady(pc.ticket, t, done + StepPrepare(o, t, g, pc, c).entries);
  }

  lemma StopOn(o: Options, t: Tid, g: Globals, pc: Pc, c: Choice, done: seq<Entry>)
    requires pc.StopBrake? || pc.StopReadBack? || pc.StopCommit? || pc.StopZero?
    requires Done(o, t, pc, done)
    ensures var out := StepStop(o, t, g, pc, c); Done(o, t, out.pc, done + out.entries)
  {
    var all := done + StepStop(o, t, g, pc, c).entries;
    var course := StopCourse(pc.ticket, t, pc.call.emergency);
    assert all == course ==> all[|all| - 1] == course[|course| - 1];
  }

  lemma CheckOn(o: Options, t: Tid, g: Globals, pc: Pc, done: seq<Entry>)
    requires pc.Check? && Done(o, t, pc, done) && (Asked(pc.call) ==> o.motionOutput)
    ensures var out := StepCheck(o, t, g, pc); Done(o, t, out.pc, done + out.entries)
  {
  }

  lemma FinishOn(o: Options, t: Tid, g: Globals, pc: Pc, c: Choice, done: seq<Entry>)
    requires pc.FinishAction? && Done(o, t, pc, done)
    ensures var out := StepService(o, t, g, pc, c); Done(o, t, out.pc, done + out.entries)
  {
    hide Successful;
    var all := done + StepService(o, t, g, pc, c).entries;
    assert Asked(pc.call) ==> all[..|all| - 1] == done;
  }

  lemma ServiceOn(o: Options, t: Tid, g: Globals, d: Digest, pc: Pc, c: Choice, done: seq<Entry>)
    requires ThreadInv(o, g, d, t, pc) && ServicePc(pc) && !pc.Returned? && Done(o, t, pc, done)
    requires t.Caller? ==> o.motionOutput
    ensures var out := StepService(o, t, g, pc, c); Done(o, t, out.pc, done + out.entries)
  {
    hide StepPrepare, StepStop, StepCheck, PrepareDone, Successful, TickLocal, LifeLocal;
    if pc.Prepare? {
      PrepareOn(o, t, g, pc, c, done);
    } else if pc.Check? {
      CheckOn(o, t, g, pc, done);
    } else if pc.StopBrake? || pc.StopReadBack? || pc.StopCommit? || pc.StopZero? {
      StopOn(o, t, g, pc, c, done);
    } else if pc.FinishAction? {
      FinishOn(o, t, g, pc, c, done);
    } else {
      assert done + [] == done;
    }
  }

  /** Entries of a step carry the thread that takes it, never a request, and an answer only on return. */
  predicate Attributed(t: Tid, out: Outcome) {
    && |out.entries| <= 1
    && forall e :: e in out.entries ==>
        && By(e) == Some(t) && !e.Requested?
        && (e.Answered? ==> out.pc == Returned(e.call, e.ticket, e.ok))
  }

  lemma ServiceEntries(o: Options, t: Tid, g: Globals, pc: Pc, c: Choice)
    requires ServicePc(pc)
    ensures Attributed(t, StepService(o, t, g, pc, c))
  {
    hide StepPrepare;
    if pc.Prepare? { PrepareEntries(o, t, g, pc, c); }
  }

  lemma PrepareEntries(o: Options, t: Tid, g: Globals, pc: Pc, c: Choice)
    requires pc.Prepare?
    ensures Attributed(t, StepPrepare(o, t, g, pc, c))
  {
  }

  lemma EntriesAreOwn(o: Options, t: Tid, g: Globals, pc: Pc, c: Choice)
    ensures Attributed(t, StepThread(o, t, g, pc, c))
  {
    hide StepService;
    if ServicePc(pc) { ServiceEntries(o, t, g, pc, c); }
  }

  /** A ready or stop stays the same call with the same ticket until it returns. */
  lemma SameCall(o: Options, t: Tid, g: Globals, pc: Pc, c: Choice)
    requires ServicePc(pc) && Asked(pc.call)
    ensures var out := StepService(o, t, g, pc, c);
      ServicePc(out.pc) && out.pc.call == pc.call && out.pc.ticket == pc.ticket
  {
  }

  lemma CallerOn(o: Options, t: Tid, g: Globals, d: Digest, pc: Pc, c: Choice, own: seq<Entry>)
    requires ThreadInv(o, g, d, t, pc) && !Halted(pc) && t.Caller? && OnCourse(o, t, pc, own)
    ensures var out := StepThread(o, t, g, pc, c); OnCourse(o, t, out.pc, own + out.entries)
  {
    hide StepService, Done;
    ServiceOn(o, t, g, d, pc, c, own[1..]);
    SameCall(o, t, g, pc, c);
    var out := StepThread(o, t, g, pc, c);
    assert (own + out.entries)[1..] == own[1..] + out.entries;
  }

  /** The polls of the telemetry thread carry on exactly what they have read. */
  lemma PollOn(o: Options, t: Tid, g: Globals, pc: Pc, c: Choice, own: seq<Entry>, n: nat)
    requires PollPc(pc) && !t.Caller? && n <= |own| && Done(o, t, pc, own[n..])
    ensures var out := StepPoll(o, t, g, pc, c); OnCourse(o, t, out.pc, own + out.entries)
  {
    var out := StepPoll(o, t, g, pc, c);
    var all := own + out.entries;
    assert all[n..] == own[n..] + out.entries;
    assert all[|own|..] == out.entries;
    if pc.PollBrake? || pc.PollTest? {
      assert Done(o, t, out.pc, all[n..]);
    } else {
      assert Done(o, t, out.pc, all[|own|..]);
    }
  }

  lemma WorkerOn(o: Options, t: Tid, g: Globals, d: Digest, pc: Pc, c: Choice, own: seq<Entry>)
    requires ThreadInv(o, g, d, t, pc) && !Halted(pc) && !t.Caller? && OnCourse(o, t, pc, own)
    ensures var out := StepThread(o, t, g, pc, c); OnCourse(o, t, out.pc, own + out.entries)
  {
    hide StepService, StepPoll, Done, ThreadInv;
    var n: nat :| n <= |own| && Done(o, t, pc, own[n..]);
    var out := StepThread(o, t, g, pc, c);
    var all := own + out.entries;
    if ServicePc(pc) {
      ServiceOn(o, t, g, d, pc, c, own[n..]);
      assert all[n..] == own[n..] + out.entries;
    } else if PollPc(pc) {
      PollOn(o, t, g, pc, c, own, n);
    } else {
      assert all[|all|..] == [];
      Fresh(o, t, out.pc);
    }
  }

  /** The control thread and the phases of disconnect have no course to keep. */
  lemma Fresh(o: Options, t: Tid, pc: Pc)
    requires ControlPc(pc) || LifePc(pc) || (pc.WantAction? && !t.Caller?)
    ensures Done(o, t, pc, [])
  {
  }

  // ---------- Every run ----------

  /** The thread is on its course, or it has not been asked yet and has done nothing. */
  ghost predicate CourseOf(o: Options, s: State, u: Tid) {
    if u in s.pcs then OnCourse(o, u, s.pcs[u], Own(s.log, u)) else Own(s.log, u) == []
  }

  ghost predicate Courses(o: Options, s: State) { forall u: Tid :: CourseOf(o, s, u) }

  lemma StepOn(o: Options, t: Tid, g: Globals, d: Digest, pc: Pc, c: Choice, own: seq<Entry>)
    requires ThreadInv(o, g, d, t, pc) && !Halted(pc) && OnCourse(o, t, pc, own)
    ensures var out := StepThread(o, t, g, pc, c);
      OnCourse(o, t, out.pc, if out.entries == [] then own else own + out.entries)
  {
    hide StepThread, OnCourse, ThreadInv;
    assert own + [] == own;
    if t.Caller? { CallerOn(o, t, g, d, pc, c, own); } else { WorkerOn(o, t, g, d, pc, c, own); }
  }

  lemma StartOn(o: Options, t: Tid, pc: Pc, own: seq<Entry>)
    requires !t.Caller? && (pc == Top || pc == PollTop || pc == Down || pc == DisconnectInhibit || pc.WantAction?)
    ensures OnCourse(o, t, pc, own)
  {
    assert own[|own|..] == [];
    assert Done(o, t, pc, own[|own|..]);
  }

  /** Which counters a step can set besides its own: those of the workers that connect starts. */
  lemma OthersStand(o: Options, s: State, t: Tid, c: Choice, u: Tid)
    requires t in s.pcs
    ensures var s', out := ActThread(o, s, t, c), StepThread(o, t, s.g, s.pcs[t], c);
      u in s'.pcs ==>
        || (u == t && s'.pcs[u] == out.pc)
        || (u != t && u in s.pcs && s'.pcs[u] == s.pcs[u])
        || (!u.Caller? && (s'.pcs[u] == Top || s'.pcs[u] == PollTop))
    ensures u in s.pcs ==> u in ActThread(o, s, t, c).pcs
  {
    hide StepThread;
  }

  lemma ActCourse(o: Options, s: State, t: Tid, c: Choice, u: Tid)
    requires Runnable(o, s, t) && Courses(o, s)
    ensures CourseOf(o, ActThread(o, s, t, c), u)
  {
    hide StepThread, OnCourse, GlobalInv, Accounted, ShutDown, DigestOf, ThreadInv;
    var s', out := ActThread(o, s, t, c), StepThread(o, t, s.g, s.pcs[t], c);
    assert CourseOf(o, s, u) && CourseOf(o, s, t);
    EntriesAreOwn(o, t, s.g, s.pcs[t], c);
    OwnAfter(s.log, out.entries, u);
    OthersStand(o, s, t, c, u);
    assert out.entries != [] ==> out.entries[0] in out.entries;
    hide ActThread, Courses, Own, By;
    if u in s'.pcs && u == t && s'.pcs[u] == out.pc {
      assert ThreadInv(o, s.g, DigestOf(s.log), t, s.pcs[t]);
      StepOn(o, t, s.g, DigestOf(s.log), s.pcs[t], c, Own(s.log, t));
    } else if u in s'.pcs && !u.Caller? && (s'.pcs[u] == Top || s'.pcs[u] == PollTop) {
      StartOn(o, u, s'.pcs[u], Own(s'.log, u));
    }
  }

  lemma SpawnCourse(o: Options, s: State, id: nat, call: Call, emergency: bool, u: Tid)
    requires o.motionOutput && (call == Ready || call == Stop(emergency)) && Courses(o, s) && Caller(id) !in s.pcs
    ensures CourseOf(o, Spawn(s, id, call, emergency), u)
  {
    var s' := Spawn(s, id, call, emergency);
    assert CourseOf(o, s, u);
    OwnAfter(s.log, [Requested(s'.g.sh.epoch, Caller(id), call)], u);
  }

  /** Events that add nothing to the log but an acceptance, and may start the lifecycle thread anew. */
  lemma OtherCourse(o: Options, s: State, s': State, entries: seq<Entry>, u: Tid)
    requires Courses(o, s) && s'.log == s.log + entries && |entries| <= 1 && forall e :: e in entries ==> By(e) == None
    requires forall v :: v in s.pcs || v in s'.pcs ==>
      && v in s.pcs && v in s'.pcs
      && (s'.pcs[v] == s.pcs[v] || (v == Lifecycle && (s'.pcs[v].WantAction? || s'.pcs[v] == DisconnectInhibit)))
    ensures CourseOf(o, s', u)
  {
    hide OnCourse;
    assert CourseOf(o, s, u);
    OwnAfter(s.log, entries, u);
    assert entries != [] ==> entries[0] in entries;
    if u in s.pcs && s'.pcs[u] != s.pcs[u] { StartOn(o, u, s'.pcs[u], Own(s'.log, u)); }
  }

  lemma StepCourse(o: Options, s: State, e: Event, u: Tid)
    requires o.Valid() && Sys(o, s) && Courses(o, s)
    ensures CourseOf(o, Step(o, s, e), u)
  {
    assert CourseOf(o, s, u);
    hide Sys, OnCourse, Own, ActThread, Spawn, Move, Courses;
    match e
    case Act(t, c) => if t in s.pcs && Enabled(s, t) { ActCourse(o, s, t, c, u); }
    case CallReady(id) => if o.motionOutput && Caller(id) !in s.pcs { SpawnCourse(o, s, id, Ready, false, u); }
    case CallStop(id, emergency) =>
      if o.motionOutput && Caller(id) !in s.pcs { SpawnCourse(o, s, id, Stop(emergency), emergency, u); }
    case CmdVel(_, _, _, _) => OtherCourse(o, s, Step(o, s, e), Step(o, s, e).log[|s.log|..], u);
    case _ =>
      assert s.log + [] == s.log;
      OtherCourse(o, s, Step(o, s, e), [], u);
  }

  lemma {:induction false} RunCourses(o: Options, events: seq<Event>)
    requires o.Valid()
    ensures Courses(o, Run(o, events))
  {
    hide CourseOf;
    if events == [] {
      forall u: Tid ensures CourseOf(o, Init(o), u) { StartCourse(o, u); }
    } else {
      var s := Run(o, events[..|events| - 1]);
      RunCourses(o, events[..|events| - 1]);
      RunKeeps(o, events[..|events| - 1]);
      forall u: Tid ensures CourseOf(o, Run(o, events), u) { StepCourse(o, s, events[|events| - 1], u); }
    }
  }

  lemma StartCourse(o: Options, u: Tid)
    ensures CourseOf(o, Init(o), u)
  {
    if u in Init(o).pcs { assert Own([], u) == [] && Done(o, u, Init(o).pcs[u], [][0..]); }
  }

  // ---------- Which event leaves an entry ----------

  lemma StepLogs(o: Options, s: State, e: Event)
    ensures var log := Step(o, s, e).log; s.log <= log && |log| <= |s.log| + 1
  {
    hide StepThread, Spawn, Move;
    match e
    case Act(t, c) => if t in s.pcs && Enabled(s, t) { EntriesAreOwn(o, t, s.g, s.pcs[t], c); }
    case CallReady(id) => SpawnLogs(s, id, Ready, false);
    case CallStop(id, emergency) => SpawnLogs(s, id, Stop(emergency), emergency);
    case _ =>
  }

  lemma SpawnLogs(s: State, id: nat, call: Call, emergency: bool)
    ensures var s' := Spawn(s, id, call, emergency); s'.log == s.log + [Requested(s.g.sh.epoch + 1, Caller(id), call)]
  {
  }

  /** The event that left entry r, and the run just before it. */
  lemma {:induction false} LeftBy(o: Options, events: seq<Event>, r: nat) returns (k: nat)
    requires r < |Run(o, events).log|
    ensures k < |events|
    ensures var s := Run(o, events[..k]);
      && s.log == Run(o, events).log[..r]
      && Step(o, s, events[k]) == Run(o, events[..k + 1])
      && Run(o, events[..k + 1]).log == s.log + [Run(o, events).log[r]]
  {
    hide Step;
    var n := |events| - 1;
    var s := Run(o, events[..n]);
    StepLogs(o, s, events[n]);
    if r < |s.log| {
      k := LeftBy(o, events[..n], r);
      assert events[..n][..k] == events[..k] && events[..n][..k + 1] == events[..k + 1];
    } else {
      k := n;
      assert events[..n + 1] == events;
    }
  }

  /** An entry that a thread's step leaves is its own. */
  lemma ActLeaves(o: Options, s: State, event: Event, e: Entry)
    requires event.Act? && Step(o, s, event).log == s.log + [e]
    ensures By(e) == Some(event.t) && !e.Requested?
    ensures event.t in s.pcs && event.t in Step(o, s, event).pcs
    ensures e.Answered? ==> Step(o, s, event).pcs[event.t] == Returned(e.call, e.ticket, e.ok)
  {
    hide StepThread;
    var t := event.t;
    assert t in s.pcs && Enabled(s, t);
    var out := StepThread(o, t, s.g, s.pcs[t], event.c);
    EntriesAreOwn(o, t, s.g, s.pcs[t], event.c);
    assert Step(o, s, event).log[|s.log|..] == out.entries;
    assert e in out.entries;
  }

  /** A request is the entry of the call that an event starts, with the next ticket. */
  lemma RequestedMeans(o: Options, events: seq<Event>, q: nat) returns (k: nat)
    requires q < |Run(o, events).log| && Run(o, events).log[q].Requested?
    ensures k < |events|
    ensures var e := Run(o, events).log[q]; var s := Run(o, events[..k]);
      && s.log == Run(o, events).log[..q] && e.ticket == s.g.sh.epoch + 1
      && e.sender.Caller? && e.sender !in s.pcs
      && match events[k]
         case CallReady(id) => e.sender == Caller(id) && e.call == Ready
         case CallStop(id, emergency) => e.sender == Caller(id) && e.call == Stop(emergency)
         case _ => false
  {
    hide StepThread, Spawn, Run;
    k := LeftBy(o, events, q);
    var s, e := Run(o, events[..k]), Run(o, events).log[q];
    assert Step(o, s, events[k]).log[|s.log|] == e;
    match events[k]
    case Act(_, _) => ActLeaves(o, s, events[k], e);
    case CallReady(id) => SpawnLogs(s, id, Ready, false);
    case CallStop(id, emergency) => SpawnLogs(s, id, Stop(emergency), emergency);
    case _ =>
  }

  // ---------- What an answer means ----------

  /**
   A ready or stop succeeds exactly when, after its request, its thread has gone
   through the whole course of that call and done nothing else.
   */
  lemma AnswerMeans(o: Options, events: seq<Event>, r: nat)
    requires o.Valid() && r < |Run(o, events).log| && Run(o, events).log[r].Answered?
    ensures var log := Run(o, events).log; var e := log[r]; var own := Own(log[..r], e.sender);
      && own != [] && own[0] == Requested(e.ticket, e.sender, e.call)
      && (e.ok <==> Successful(e.call, e.ticket, e.sender, own[1..]))
  {
    var k := LeftBy(o, events, r);
    var s, e := Run(o, events[..k]), Run(o, events).log[r];
    AnsweredByAct(o, s, events[k], e);
    RunKeeps(o, events[..k + 1]);
    OnlyCallersReturn(o, Run(o, events[..k + 1]), e.sender);
    RunCourses(o, events[..k + 1]);
    AnsweredCourse(o, Run(o, events[..k + 1]), s.log, e);
  }

  lemma AnsweredByAct(o: Options, s: State, event: Event, e: Entry)
    requires e.Answered? && Step(o, s, event).log == s.log + [e]
    ensures e.sender in Step(o, s, event).pcs && Step(o, s, event).pcs[e.sender] == Returned(e.call, e.ticket, e.ok)
  {
    hide StepThread, Spawn;
    assert Step(o, s, event).log[|s.log|] == e;
    match event
    case Act(_, _) => ActLeaves(o, s, event, e);
    case CallReady(id) => SpawnLogs(s, id, Ready, false);
    case CallStop(id, emergency) => SpawnLogs(s, id, Stop(emergency), emergency);
    case _ =>
  }

  lemma OnlyCallersReturn(o: Options, s: State, t: Tid)
    requires Sys(o, s) && t in s.pcs && s.pcs[t].Returned?
    ensures t.Caller?
  {
    hide GlobalInv, Accounted, ShutDown, DigestOf, ServiceLocal, TickLocal, LifeLocal;
    assert ThreadInv(o, s.g, DigestOf(s.log), t, s.pcs[t]);
  }

  lemma AnsweredCourse(o: Options, s: State, log: seq<Entry>, e: Entry)
    requires Courses(o, s) && e.Answered? && s.log == log + [e]
    requires e.sender in s.pcs && e.sender.Caller? && s.pcs[e.sender] == Returned(e.call, e.ticket, e.ok)
    ensures var own := Own(log, e.sender);
      && own != [] && own[0] == Requested(e.ticket, e.sender, e.call)
      && (e.ok <==> Successful(e.call, e.ticket, e.sender, own[1..]))
  {
    hide Successful;
    assert CourseOf(o, s, e.sender);
    OwnAfter(log, [e], e.sender);
    var own := Own(log, e.sender);
    assert (own + [e])[0].Requested?;
    assert (own + [e])[1..][..|own| - 1] == own[1..];
  }

  /**
   A stop succeeds exactly when it was secured and then either the software brake
   was written, acknowledged and read back engaged, or, for a stop that is no
   emergency, a zero velocity was acknowledged, in this order and before the answer.
   */
  lemma StopAnswer(o: Options, events: seq<Event>, r: nat) returns (q: nat, i: nat, a: nat, b: nat)
    requires o.Valid() && r < |Run(o, events).log|
    requires var e := Run(o, events).log[r]; e.Answered? && e.call.Stop? && e.ok
    ensures q < i < a <= b < r
    ensures var log := Run(o, events).log; var e := log[r];
      && log[q] == Requested(e.ticket, e.sender, e.call) && log[i] == Secured(e.ticket, e.sender)
      && if e.call.emergency then
           && log[a] == Sent(BrakeFrame(true), e.sender, e.ticket, true)
           && a < b && log[b] == BrakeRead(e.ticket, e.sender, true)
         else
           log[a] == Sent(MoveFrame(0.0, 0.0, 0), e.sender, e.ticket, true)
  {
    var log := Run(o, events).log;
    var e, own := log[r], Own(log[..r], log[r].sender);
    AnswerMeans(o, events, r);
    assert own[1] == own[1..][0] && own[2] == own[1..][1];
    q := OwnAt(log[..r], e.sender, 0);
    i := OwnAt(log[..r], e.sender, 1);
    a := OwnAt(log[..r], e.sender, 2);
    OwnOrder(log[..r], e.sender, 0, q, 1, i);
    OwnOrder(log[..r], e.sender, 1, i, 2, a);
    b := a;
    if e.call.emergency {
      assert own[3] == own[1..][2];
      b := OwnAt(log[..r], e.sender, 3);
      OwnOrder(log[..r], e.sender, 2, a, 3, b);
    }
  }

  lemma {:induction false} OwnGrows(log: seq<Entry>, t: Tid, p: nat, p': nat)
    requires p <= p' <= |log|
    ensures |Own(log[..p], t)| <= |Own(log[..p'], t)|
    decreases p'
  {
    if p < p' {
      OwnGrows(log, t, p, p' - 1);
      assert log[..p'][..p' - 1] == log[..p' - 1];
    }
  }

  lemma OwnOrder(log: seq<Entry>, t: Tid, m: nat, p: nat, m': nat, p': nat)
    requires p < |log| && p' < |log| && m < m' && |Own(log[..p], t)| == m && |Own(log[..p'], t)| == m'
    ensures p < p'
  {
    if p' <= p { OwnGrows(log, t, p', p); }
  }

  /** Where the thread's entry number m is in the log. */
  lemma {:induction false} OwnAt(log: seq<Entry>, t: Tid, m: nat) returns (p: nat)
    requires m < |Own(log, t)|
    ensures p < |log| && log[p] == Own(log, t)[m] && Own(log[..p], t) == Own(log, t)[..m]
  {
    var n := |log| - 1;
    if m < |Own(log[..n], t)| {
      p := OwnAt(log[..n], t, m);
      assert log[..n][..p] == log[..p];
    } else {
      p := n;
    }
  }

  // ---------- What the record rests on ----------

  predicate EndsWith(own: seq<Entry>, done: seq<Entry>) { |done| <= |own| && own[|own| - |done|..] == done }

  lemma PrepareGains(o: Options, t: Tid, g: Globals, pc: Pc, c: Choice)
    requires pc.Prepare? && !g.sh.owned && StepPrepare(o, t, g, pc, c).g.sh.owned
    ensures o.motionOutput && pc.stage == Commit && CommitAllowed(g.sh, pc.ticket)
    ensures !pc.deviceBrake && (Explicit(pc.call) || (g.sh.want && !g.sh.estop))
  {
  }

  lemma ServiceGains(o: Options, t: Tid, g: Globals, pc: Pc, c: Choice)
    requires ServicePc(pc) && !pc.Prepare? && !g.sh.owned
    ensures !StepService(o, t, g, pc, c).g.sh.owned
  {
  }

  lemma WorkerGains(o: Options, t: Tid, g: Globals, pc: Pc, c: Choice)
    requires !g.sh.owned
    ensures ControlPc(pc) ==> !StepControl(o, t, g, pc, c).g.sh.owned
    ensures PollPc(pc) ==> !StepPoll(o, t, g, pc, c).g.sh.owned
  {
  }

  lemma GainsAtCommit(o: Options, t: Tid, g: Globals, pc: Pc, c: Choice)
    requires !g.sh.owned && StepThread(o, t, g, pc, c).g.sh.owned
    ensures o.motionOutput && pc.Prepare? && pc.stage == Commit && CommitAllowed(g.sh, pc.ticket)
    ensures !pc.deviceBrake && (Explicit(pc.call) || (g.sh.want && !g.sh.estop))
  {
    hide StepService, StepPrepare, StepControl, StepPoll;
    if pc.Prepare? {
      PrepareStep(o, t, g, pc, c);
      PrepareGains(o, t, g, pc, c);
    } else if ServicePc(pc) {
      ServiceGains(o, t, g, pc, c);
    } else {
      WorkerGains(o, t, g, pc, c);
    }
  }

  lemma PrepareStep(o: Options, t: Tid, g: Globals, pc: Pc, c: Choice)
    requires pc.Prepare?
    ensures StepThread(o, t, g, pc, c) == StepPrepare(o, t, g, pc, c)
  {
  }

  lemma CourseEnds(o: Options, t: Tid, pc: Pc, own: seq<Entry>) returns (done: seq<Entry>)
    requires OnCourse(o, t, pc, own)
    ensures EndsWith(own, done) && Done(o, t, pc, done)
  {
    hide Done;
    if t.Caller? {
      done := own[1..];
    } else {
      var n: nat :| n <= |own| && Done(o, t, pc, own[n..]);
      done := own[n..];
    }
  }

  /**
   Permission is gained only by a preparation that went through its course: Idle
   was commanded and read back, the brake was read released and a zero velocity
   acknowledged, since its thread took the locks, and its ticket is still current.
   A reconnection gains it only if it is wished and no emergency stop stands.
   */
  lemma PermissionIsEarned(o: Options, events: seq<Event>, e: Event) returns (call: Call, done: seq<Entry>)
    requires o.Valid() && !Run(o, events).g.sh.owned && Step(o, Run(o, events), e).g.sh.owned
    ensures var s := Run(o, events);
      && e.Act? && EndsWith(Own(s.log, e.t), done) && Prepared(Explicit(call), s.g.sh.epoch, e.t, false, done)
      && s.g.sh.running && (Explicit(call) || (s.g.sh.want && !s.g.sh.estop))
  {
    hide StepThread, Done, OnCourse, Prepared;
    var s := Run(o, events);
    assert e.Act? && e.t in s.pcs;
    var pc := s.pcs[e.t];
    GainsAtCommit(o, e.t, s.g, pc, e.c);
    RunCourses(o, events);
    assert CourseOf(o, s, e.t);
    call := pc.call;
    done := CourseEnds(o, e.t, pc, Own(s.log, e.t));
    CommitIsPrepared(o, e.t, pc, done);
  }

  lemma CommitIsPrepared(o: Options, t: Tid, pc: Pc, done: seq<Entry>)
    requires o.motionOutput && pc.Prepare? && pc.stage == Commit && Done(o, t, pc, done)
    ensures Prepared(Explicit(pc.call), pc.ticket, t, pc.deviceBrake, done)
  {
  }

  /**
   What a poll of the current epoch records is what its two queries, the last
   entries of the telemetry thread, have read; an engaged brake or another state
   than Idle takes permission and the wish for control away.
   */
  lemma TelemetryWasRead(o: Options, events: seq<Event>, c: Choice)
    requires o.Valid()
    requires Telemetry in Run(o, events).pcs && Run(o, events).pcs[Telemetry].PollCommit?
    requires Run(o, events).pcs[Telemetry].ticket == Run(o, events).g.sh.epoch
    ensures var s := Run(o, events); var sh := Step(o, s, Act(Telemetry, c)).g.sh;
      && EndsWith(Own(s.log, Telemetry), [StateRead(sh.epoch, Telemetry, sh.operation),
                                          BrakeRead(sh.epoch, Telemetry, sh.brake)])
      && sh.brakeKnown && sh.telemetryTime == c.now
      && (sh.brake || sh.operation != IDLE ==> !sh.owned && !sh.want)
      && (!sh.brake && sh.operation == IDLE ==> sh.owned == s.g.sh.owned && sh.want == s.g.sh.want)
  {
    var s := Run(o, events);
    RunCourses(o, events);
    assert CourseOf(o, s, Telemetry);
    hide OnCourse, Courses, Own, Run, StepThread, Done;
    PollRecords(o, s.g, s.pcs[Telemetry], c);
    var done := CourseEnds(o, Telemetry, s.pcs[Telemetry], Own(s.log, Telemetry));
    PollDone(o, s.pcs[Telemetry], done);
  }

  lemma PollDone(o: Options, pc: Pc, done: seq<Entry>)
    requires pc.PollCommit? && Done(o, Telemetry, pc, done)
    ensures done == [StateRead(pc.ticket, Telemetry, pc.operation), BrakeRead(pc.ticket, Telemetry, pc.deviceBrake)]
  {
  }

  lemma PollRecords(o: Options, g: Globals, pc: Pc, c: Choice)
    requires pc.PollCommit? && pc.ticket == g.sh.epoch
    ensures var sh := StepThread(o, Telemetry, g, pc, c).g.sh;
      && sh.epoch == pc.ticket && sh.operation == pc.operation && sh.brake == pc.deviceBrake
      && sh.brakeKnown && sh.telemetryTime == c.now
      && (sh.brake || sh.operation != IDLE ==> !sh.owned && !sh.want)
      && (!sh.brake && sh.operation == IDLE ==> sh.owned == g.sh.owned && sh.want == g.sh.want)
  {
  }
}
