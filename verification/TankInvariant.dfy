/**
 The inductive invariant of the TANK protocol.

 The argument is thread-modular. `ThreadInv` is what a thread relies on at each
 program counter; `Interference` is what any step may do to the shared record
 as seen by the other threads; `Stable` shows the first survives the second.
 */
module TankInvariant {
  import opened Prelude
  import opened TankState
  import opened TankProtocol

  // ---------- What the history has established ----------

  /**
   `bar` is the greatest secured stop ticket that no later commit exceeds,
   `failed` the commands whose frame got no acknowledgement, `newest` the greatest
   ticket requested, `tested` those found current before a release.
   */
  datatype Digest = Digest(bar: Option<nat>, secured: set<nat>, failed: set<nat>,
                           accepted: set<(nat, real, real)>, newest: nat, tested: set<nat>)

  const EMPTY := Digest(None, {}, {}, {}, 0, {})

  function Raise(bar: Option<nat>, ticket: nat): Option<nat> {
    if bar.Some? && ticket <= bar.value then bar else Some(ticket)
  }

  function Lower(bar: Option<nat>, ticket: nat): Option<nat> {
    if bar.Some? && bar.value < ticket then None else bar
  }

  function Absorb(d: Digest, e: Entry): Digest {
    match e
    case Requested(ticket, _, _) => d.(newest := Max(d.newest, ticket))
    case Tested(ticket, _) => d.(tested := d.tested + {ticket})
    case Sent(frame, _, _, ok) =>
      d.(failed := if frame.MoveFrame? && !ok && frame.id > 0 then d.failed + {frame.id} else d.failed)
    case Secured(ticket, _) => d.(bar := Raise(d.bar, ticket), secured := d.secured + {ticket})
    case Committed(ticket, _) => d.(bar := Lower(d.bar, ticket))
    case StateRead(_, _, _) => d
    case BrakeRead(_, _, _) => d
    case Answered(_, _, _, _) => d
    case Accepted(id, vx, wz) => d.(accepted := d.accepted + {(id, vx, wz)})
  }

  function DigestOf(log: seq<Entry>): Digest {
    if log == [] then EMPTY else Absorb(DigestOf(log[..|log| - 1]), log[|log| - 1])
  }

  function Extend(d: Digest, entries: seq<Entry>): Digest
    requires |entries| <= 1
  {
    if entries == [] then d else Absorb(d, entries[0])
  }

  lemma DigestExtend(log: seq<Entry>, entries: seq<Entry>)
    requires |entries| <= 1
    ensures DigestOf(log + entries) == Extend(DigestOf(log), entries)
  {
    if entries == [] {
      assert log + entries == log;
    } else {
      assert (log + entries)[..|log + entries| - 1] == log;
    }
  }

  // ---------- The shared record ----------

  predicate Permission(o: Options, s: Shared) {
    s.owned ==>
      && o.motionOutput && s.connected && s.want
      && !s.estop && !s.brake && s.brakeKnown && s.operation == IDLE
  }

  predicate Within(v: real, limit: real) { -limit <= v <= limit }

  predicate CommandSound(o: Options, s: Shared, d: Digest) {
    && 0 < s.nextId
    && (s.commandTime == None ==> s.vx == 0.0 && s.wz == 0.0)
    && (s.commandTime.Some? ==>
        && s.owned && s.commandEpoch == s.epoch && 0 < s.commandId < s.nextId
        && Within(s.vx, o.maxLinear) && Within(s.wz, o.maxAngular)
        && (s.commandId, s.vx, s.wz) in d.accepted)
  }

  predicate Halt(s: Shared) { !s.want && !s.owned }

  ghost predicate GlobalInv(o: Options, g: Globals, d: Digest) {
    && Permission(o, g.sh)
    && CommandSound(o, g.sh, d)
    && (forall k :: k in g.issued ==> k <= g.sh.epoch)
    && (forall k :: k in d.secured ==> k in g.issued && g.issued[k].Stop?)
    && (forall k :: k in d.failed ==> k < g.sh.nextId)
    && (d.bar.Some? ==> d.bar.value in d.secured && Halt(g.sh))
    && d.newest <= g.sh.epoch
  }

  // ---------- What each thread relies on ----------

  predicate Role(t: Tid, pc: Pc) {
    match t
    case Control => ControlPc(pc) || pc.Exited?
    case Telemetry => PollPc(pc) || pc.Exited? || (ServicePc(pc) && pc.call == Reconnect && !pc.Returned?)
    case Lifecycle =>
      || (LifePc(pc) && !pc.Exited?)
      || (ServicePc(pc) && (pc.call == Connect || pc.call == Final) && !pc.Returned?)
    case Caller(_) => ServicePc(pc) && (pc.call == Ready || pc.call.Stop?)
  }

  predicate HoldsIo(pc: Pc) {
    || pc.Check? || pc.Prepare? || pc.StopBrake? || pc.StopReadBack? || pc.StopCommit? || pc.StopZero?
    || pc.FinalZero? || pc.Failing? || pc.Finish?
    || pc.TickRead? || pc.TickSend? || pc.TickAck? || pc.TickStale? || pc.TickLink? || pc.TickDone?
  }

  predicate HoldsAction(pc: Pc) {
    || pc.WantIo? || pc.Check? || pc.Prepare? || pc.StopBrake? || pc.StopReadBack? || pc.StopCommit?
    || pc.StopZero? || pc.FinalZero? || pc.Failing? || pc.Finish? || pc.FinishAction? || pc.PollLoad?
  }

  predicate Issued(g: Globals, call: Call, ticket: nat) {
    call == Ready || call.Stop? ==> ticket in g.issued && g.issued[ticket] == call
  }

  predicate AfterState(stage: Stage) { stage != ToIdle && stage != QueryState }

  ghost predicate ServiceLocal(o: Options, g: Globals, d: Digest, pc: Pc)
    requires ServicePc(pc)
  {
    && Issued(g, pc.call, pc.ticket)
    && (pc.WantAction? || pc.WantIo? || pc.Check? ==>
        (pc.call.Stop? && g.sh.epoch == pc.ticket ==> Halt(g.sh)))
    && (pc.Prepare? ==>
        && !pc.call.Stop? && pc.call != Final
        && (AfterState(pc.stage) && o.motionOutput ==> pc.operation == IDLE)
        && (pc.stage == SendZero || pc.stage == Commit ==> Explicit(pc.call) ==> !pc.deviceBrake)
        && (pc.stage == Release || pc.stage == ReadBack ==> Explicit(pc.call))
        && (pc.stage == Release ==> pc.ticket in d.tested)
        && (Explicit(pc.call) ==> forall k :: k in d.secured ==> k < pc.ticket))
    && (pc.StopBrake? || pc.StopReadBack? || pc.StopCommit? || pc.StopZero? ==>
        pc.call.Stop? && Halt(g.sh) && pc.ticket in d.secured)
    && (pc.FinalZero? ==> pc.call == Final) && (pc.Failing? ==> pc.call != Final)
    && ((pc.Finish? || pc.FinishAction? || pc.Returned?) && pc.call.Stop? && pc.ok ==> pc.ticket in d.secured)
  }

  /** The control thread between reading its tick and releasing `io`. */
  predicate TickLocal(g: Globals, d: Digest, pc: Pc) {
    match pc
    case TickSend(ticket, linear, angular, id) =>
      && (g.sh.epoch != ticket ==> !g.sh.owned)
      && (id > 0 ==> id < g.sh.nextId && id !in d.failed && (id, linear, angular) in d.accepted)
      && (g.sh.commandTime.Some? && g.sh.commandId == id ==> g.sh.commandEpoch == ticket)
      && (linear != 0.0 || angular != 0.0 ==> id > 0 && d.bar == None)
    case TickAck(ticket, id, _, _) =>
      && (g.sh.epoch != ticket ==> !g.sh.owned)
      && (g.sh.commandTime.Some? && g.sh.commandId == id ==> g.sh.commandEpoch == ticket)
      && id < g.sh.nextId
    case TickLink(ticket) => g.sh.epoch != ticket ==> !g.sh.owned
    case TickStale(ticket) => g.sh.epoch != ticket ==> !g.sh.owned
    case _ => true
  }

  predicate LifeLocal(g: Globals, pc: Pc) {
    match pc
    case Up => g.sh.running
    case DisconnectInhibit => !g.sh.running
    case JoinControl => !g.sh.running && !g.sh.owned
    case JoinTelemetry => !g.sh.running && !g.sh.owned
    case DisconnectClose => !g.sh.running && !g.sh.owned
    case Down => !g.sh.running
    case _ => ServicePc(pc) ==> if pc.call == Final then !g.sh.running && !g.sh.owned else g.sh.running
  }

  ghost predicate ThreadInv(o: Options, g: Globals, d: Digest, t: Tid, pc: Pc) {
    && Role(t, pc)
    && (HoldsAction(pc) <==> g.action == Some(t))
    && (HoldsIo(pc) <==> g.io == Some(t))
    && (ServicePc(pc) ==> ServiceLocal(o, g, d, pc))
    && (t == Control ==> TickLocal(g, d, pc))
    && (t == Lifecycle ==> LifeLocal(g, pc))
  }

  // ---------- What a step may do to the others ----------

  /** Locks that are not t's are neither taken from their holder nor handed to someone else. */
  predicate LocksKept(before: Option<Tid>, after: Option<Tid>, t: Option<Tid>) {
    before == after || (t.Some? && (before == t || before == None) && (after == t || after == None))
  }

  ghost predicate Interference(g: Globals, d: Digest, g': Globals, d': Digest, t: Option<Tid>) {
    && g.sh.epoch <= g'.sh.epoch
    && g.sh.nextId <= g'.sh.nextId
    && (forall k :: k in g.issued ==> k in g'.issued && g'.issued[k] == g.issued[k])
    && (g'.sh.want && !g.sh.want ==>
        && g'.sh.epoch == g.sh.epoch && g.sh.epoch in g.issued && g.issued[g.sh.epoch] == Ready
        && t.Some? && g.action == t && g.io == t)
    && (g'.sh.owned && !g.sh.owned ==>
        g'.sh.want && g.sh.running && g'.sh.epoch == g.sh.epoch && t.Some? && g.action == t && g.io == t)
    && (g'.sh.epoch != g.sh.epoch ==> !g'.sh.owned)
    && LocksKept(g.action, g'.action, t) && LocksKept(g.io, g'.io, t)
    && (g'.sh.commandTime.Some? ==>
        || (g.sh.commandTime.Some? && g'.sh.commandId == g.sh.commandId && g'.sh.commandEpoch == g.sh.commandEpoch)
        || g.sh.nextId <= g'.sh.commandId)
    && (d' == d.(accepted := d'.accepted, newest := d'.newest) || (t.Some? && g.io == t))
    && d.secured <= d'.secured && d.accepted <= d'.accepted && d.tested <= d'.tested
    && (t != Some(Lifecycle) ==> g'.sh.running == g.sh.running)
  }

  lemma StableService(o: Options, g: Globals, d: Digest, g': Globals, d': Digest, t: Option<Tid>, u: Tid, pc: Pc)
    requires GlobalInv(o, g, d)
    requires Interference(g, d, g', d', t)
    requires t != Some(u) && ThreadInv(o, g, d, u, pc) && ServicePc(pc)
    ensures ServiceLocal(o, g', d', pc)
  {
  }

  /** What the control and lifecycle threads rely on survives the others, too. */
  lemma StableWorkers(o: Options, g: Globals, d: Digest, g': Globals, d': Digest, t: Option<Tid>, u: Tid, pc: Pc)
    requires GlobalInv(o, g, d)
    requires Interference(g, d, g', d', t)
    requires t != Some(u) && ThreadInv(o, g, d, u, pc)
    ensures u == Control ==> TickLocal(g', d', pc)
    ensures u == Lifecycle ==> LifeLocal(g', pc)
  {
    hide ServiceLocal;
  }

  lemma Stable(o: Options, g: Globals, d: Digest, g': Globals, d': Digest, t: Option<Tid>, u: Tid, pc: Pc)
    requires GlobalInv(o, g, d)
    requires Interference(g, d, g', d', t)
    requires t != Some(u) && ThreadInv(o, g, d, u, pc)
    ensures ThreadInv(o, g', d', u, pc)
  {
    hide ServiceLocal, TickLocal, LifeLocal, GlobalInv;
    StableWorkers(o, g, d, g', d', t, u, pc);
    if ServicePc(pc) { StableService(o, g, d, g', d', t, u, pc); }
  }

  // ---------- What a step does to the thread that takes it ----------

  ghost predicate StepSound(o: Options, g: Globals, d: Digest, t: Tid, out: Outcome) {
    && |out.entries| <= 1
    && var d' := Extend(d, out.entries);
       && Interference(g, d, out.g, d', Some(t))
       && GlobalInv(o, out.g, d')
       && ThreadInv(o, out.g, d', t, out.pc)
  }

  ghost predicate StepReady(o: Options, g: Globals, d: Digest, t: Tid, pc: Pc) {
    && o.Valid() && GlobalInv(o, g, d) && ThreadInv(o, g, d, t, pc)
    && (pc.WantAction? ==> g.action == None)
    && (pc.WantIo? || pc.TickWantIo? ==> g.io == None)
  }

  predicate Reading(e: Entry) { e.StateRead? || e.BrakeRead? || e.Answered? }

  /** The frames of service calls carry no accepted command. */
  predicate PlainEntry(e: Entry) {
    Reading(e) || e.Tested? || (e.Sent? && (e.frame.MoveFrame? ==> e.frame.id == 0))
  }

  /** A step that leaves the record alone only has to answer for its own thread. */
  lemma RecordKept(o: Options, g: Globals, d: Digest, t: Tid, g': Globals, entries: seq<Entry>)
    requires GlobalInv(o, g, d) && g'.sh == g.sh && g'.issued == g.issued
    requires LocksKept(g.action, g'.action, Some(t)) && LocksKept(g.io, g'.io, Some(t))
    requires entries == [] || (|entries| == 1 && PlainEntry(entries[0]) && (g.io == Some(t) || Reading(entries[0])))
    ensures Interference(g, d, g', Extend(d, entries), Some(t))
    ensures GlobalInv(o, g', Extend(d, entries))
  {
  }

  /** Dropping the link advances the epoch, and everything that depends on the old one is gone. */
  lemma LinkDropped(o: Options, g: Globals, d: Digest, t: Tid, ticket: nat)
    requires GlobalInv(o, g, d)
    ensures Interference(g, d, g.(sh := LinkFailed(g.sh, ticket)), d, Some(t))
    ensures GlobalInv(o, g.(sh := LinkFailed(g.sh, ticket)), d)
  {
  }

  lemma CheckStep(o: Options, g: Globals, d: Digest, t: Tid, pc: Pc)
    requires StepReady(o, g, d, t, pc) && pc.Check? && !pc.call.Stop?
    ensures StepSound(o, g, d, t, StepCheck(o, t, g, pc))
  {
    var out := StepCheck(o, t, g, pc);
    RecordKept(o, g, d, t, out.g, out.entries);
  }

  /** A stop that passes its test is secured: nobody else can be inside a tick or a prepare. */
  lemma SecureRecord(o: Options, g: Globals, d: Digest, t: Tid, pc: Pc)
    requires StepReady(o, g, d, t, pc) && pc.Check? && pc.call.Stop?
    ensures var out := StepCheck(o, t, g, pc);
      |out.entries| <= 1 && var d' := Extend(d, out.entries);
      Interference(g, d, out.g, d', Some(t)) && GlobalInv(o, out.g, d')
  {
    hide TickLocal, LifeLocal;
  }

  lemma SecureStep(o: Options, g: Globals, d: Digest, t: Tid, pc: Pc)
    requires StepReady(o, g, d, t, pc) && pc.Check? && pc.call.Stop?
    ensures StepSound(o, g, d, t, StepCheck(o, t, g, pc))
  {
    hide GlobalInv, Interference;
    SecureRecord(o, g, d, t, pc);
  }

  lemma QueryStep(o: Options, g: Globals, d: Digest, t: Tid, pc: Pc, c: Choice)
    requires StepReady(o, g, d, t, pc)
    requires pc.Prepare? && (pc.stage == ToIdle || pc.stage == QueryState || pc.stage == QueryBrake)
    ensures StepSound(o, g, d, t, StepPrepare(o, t, g, pc, c))
  {
    hide GlobalInv, Interference;
    var out := StepPrepare(o, t, g, pc, c);
    RecordKept(o, g, d, t, out.g, out.entries);
  }

  lemma ReleaseStep(o: Options, g: Globals, d: Digest, t: Tid, pc: Pc, c: Choice)
    requires StepReady(o, g, d, t, pc)
    requires pc.Prepare?
    requires pc.stage == Release || pc.stage == ReadBack || pc.stage == SendZero
    ensures StepSound(o, g, d, t, StepPrepare(o, t, g, pc, c))
  {
    hide GlobalInv, Interference;
    var out := StepPrepare(o, t, g, pc, c);
    RecordKept(o, g, d, t, out.g, out.entries);
  }

  /** A ready that finds its ticket current is newer than every request so far. */
  lemma TestStep(o: Options, g: Globals, d: Digest, t: Tid, pc: Pc, c: Choice)
    requires StepReady(o, g, d, t, pc) && pc.Prepare? && pc.stage == TestRelease
    ensures StepSound(o, g, d, t, StepPrepare(o, t, g, pc, c))
  {
    hide GlobalInv, Interference;
    var out := StepPrepare(o, t, g, pc, c);
    RecordKept(o, g, d, t, out.g, out.entries);
  }

  /** A commit: the ticket is current, so no stop is secured at or after it. */
  lemma CommittedRecord(o: Options, g: Globals, d: Digest, t: Tid, pc: Pc, c: Choice)
    requires StepReady(o, g, d, t, pc) && pc.Prepare? && pc.stage == Commit && CommitAllowed(g.sh, pc.ticket)
    ensures var out := StepPrepare(o, t, g, pc, c);
      |out.entries| <= 1 && var d' := Extend(d, out.entries);
      Interference(g, d, out.g, d', Some(t)) && GlobalInv(o, out.g, d')
  {
    hide TickLocal, LifeLocal;
  }

  lemma CommittedStep(o: Options, g: Globals, d: Digest, t: Tid, pc: Pc, c: Choice)
    requires StepReady(o, g, d, t, pc) && pc.Prepare? && pc.stage == Commit && CommitAllowed(g.sh, pc.ticket)
    ensures StepSound(o, g, d, t, StepPrepare(o, t, g, pc, c))
  {
    hide GlobalInv, Interference;
    CommittedRecord(o, g, d, t, pc, c);
  }

  lemma CommitStep(o: Options, g: Globals, d: Digest, t: Tid, pc: Pc, c: Choice)
    requires StepReady(o, g, d, t, pc) && pc.Prepare? && pc.stage == Commit
    ensures StepSound(o, g, d, t, StepPrepare(o, t, g, pc, c))
  {
    if CommitAllowed(g.sh, pc.ticket) {
      CommittedStep(o, g, d, t, pc, c);
    } else {
      hide GlobalInv, Interference;
      RecordKept(o, g, d, t, g, []);
    }
  }

  lemma StopFrameStep(o: Options, g: Globals, d: Digest, t: Tid, pc: Pc, c: Choice)
    requires StepReady(o, g, d, t, pc) && (pc.StopBrake? || pc.StopZero?)
    ensures StepSound(o, g, d, t, StepStop(o, t, g, pc, c))
  {
    hide GlobalInv, Interference;
    var out := StepStop(o, t, g, pc, c);
    RecordKept(o, g, d, t, out.g, out.entries);
  }

  lemma StopReadStep(o: Options, g: Globals, d: Digest, t: Tid, pc: Pc, c: Choice)
    requires StepReady(o, g, d, t, pc) && pc.StopReadBack?
    ensures StepSound(o, g, d, t, StepStop(o, t, g, pc, c))
  {
  }

  lemma BrakeStep(o: Options, g: Globals, d: Digest, t: Tid, pc: Pc, c: Choice)
    requires StepReady(o, g, d, t, pc) && pc.StopCommit?
    ensures StepSound(o, g, d, t, StepStop(o, t, g, pc, c))
  {
  }

  lemma AcquireStep(o: Options, g: Globals, d: Digest, t: Tid, pc: Pc, c: Choice)
    requires StepReady(o, g, d, t, pc) && (pc.WantAction? || pc.WantIo?)
    ensures StepSound(o, g, d, t, StepService(o, t, g, pc, c))
  {
    hide GlobalInv, Interference;
    RecordKept(o, g, d, t, StepService(o, t, g, pc, c).g, []);
  }

  lemma ReleaseIoStep(o: Options, g: Globals, d: Digest, t: Tid, pc: Pc, c: Choice)
    requires StepReady(o, g, d, t, pc) && pc.Finish?
    ensures StepSound(o, g, d, t, StepService(o, t, g, pc, c))
  {
    hide GlobalInv, Interference;
    RecordKept(o, g, d, t, g.(io := None), []);
  }

  lemma ReleaseActionStep(o: Options, g: Globals, d: Digest, t: Tid, pc: Pc, c: Choice)
    requires StepReady(o, g, d, t, pc) && pc.FinishAction?
    ensures StepSound(o, g, d, t, StepService(o, t, g, pc, c))
  {
    hide GlobalInv, Interference;
    RecordKept(o, g, d, t, g.(action := None), []);
  }

  lemma FinalStep(o: Options, g: Globals, d: Digest, t: Tid, pc: Pc, c: Choice)
    requires StepReady(o, g, d, t, pc) && pc.FinalZero?
    ensures StepSound(o, g, d, t, StepService(o, t, g, pc, c))
  {
  }

  lemma FailStep(o: Options, g: Globals, d: Digest, t: Tid, pc: Pc, c: Choice)
    requires StepReady(o, g, d, t, pc) && pc.Failing?
    ensures StepSound(o, g, d, t, StepService(o, t, g, pc, c))
  {
    hide GlobalInv, Interference;
    LinkDropped(o, g, d, t, pc.ticket);
  }

  predicate InPrepare(pc: Pc, early: bool) {
    && pc.Prepare? && pc.stage != Commit
    && early == (!AfterState(pc.stage) || pc.stage == QueryBrake)
  }

  lemma CallStep(o: Options, g: Globals, d: Digest, t: Tid, pc: Pc, c: Choice)
    requires StepReady(o, g, d, t, pc) && (pc.Check? || pc.Prepare?)
    ensures StepSound(o, g, d, t, StepService(o, t, g, pc, c))
  {
    if pc.Check? && pc.call.Stop? { SecureStep(o, g, d, t, pc);
    } else if pc.Check? { CheckStep(o, g, d, t, pc);
    } else if InPrepare(pc, true) { QueryStep(o, g, d, t, pc, c);
    } else if pc.Prepare? && pc.stage == TestRelease { TestStep(o, g, d, t, pc, c);
    } else if InPrepare(pc, false) { ReleaseStep(o, g, d, t, pc, c);
    } else { CommitStep(o, g, d, t, pc, c); }
  }

  lemma LockStep(o: Options, g: Globals, d: Digest, t: Tid, pc: Pc, c: Choice)
    requires StepReady(o, g, d, t, pc)
    requires pc.WantAction? || pc.WantIo? || pc.Finish? || pc.FinishAction?
    ensures StepSound(o, g, d, t, StepService(o, t, g, pc, c))
  {
    if pc.Finish? { ReleaseIoStep(o, g, d, t, pc, c);
    } else if pc.FinishAction? { ReleaseActionStep(o, g, d, t, pc, c);
    } else { AcquireStep(o, g, d, t, pc, c); }
  }

  lemma ServiceStep(o: Options, g: Globals, d: Digest, t: Tid, pc: Pc, c: Choice)
    requires StepReady(o, g, d, t, pc) && ServicePc(pc) && !pc.Returned?
    ensures StepSound(o, g, d, t, StepService(o, t, g, pc, c))
  {
    if pc.Check? || pc.Prepare? { CallStep(o, g, d, t, pc, c);
    } else if pc.StopCommit? { BrakeStep(o, g, d, t, pc, c);
    } else if pc.StopReadBack? { StopReadStep(o, g, d, t, pc, c);
    } else if pc.StopBrake? || pc.StopZero? { StopFrameStep(o, g, d, t, pc, c);
    } else if pc.FinalZero? { FinalStep(o, g, d, t, pc, c);
    } else if pc.Failing? { FailStep(o, g, d, t, pc, c);
    } else { LockStep(o, g, d, t, pc, c); }
  }

  /** Outside the gap between a failed frame and its commit, no failed command is cached. */
  predicate Settled(g: Globals, d: Digest) {
    g.sh.commandTime.Some? ==> g.sh.commandId !in d.failed
  }

  lemma TickReadStep(o: Options, g: Globals, d: Digest, pc: Pc, c: Choice)
    requires StepReady(o, g, d, Control, pc) && pc.TickRead? && Settled(g, d)
    ensures StepSound(o, g, d, Control, StepControl(o, Control, g, pc, c))
  {
  }

  lemma TickAckStep(o: Options, g: Globals, d: Digest, pc: Pc, c: Choice)
    requires StepReady(o, g, d, Control, pc) && pc.TickAck?
    ensures StepSound(o, g, d, Control, StepControl(o, Control, g, pc, c))
  {
  }

  lemma TickLinkStep(o: Options, g: Globals, d: Digest, pc: Pc, c: Choice)
    requires StepReady(o, g, d, Control, pc) && pc.TickLink?
    ensures StepSound(o, g, d, Control, StepControl(o, Control, g, pc, c))
  {
  }

  lemma TickSendStep(o: Options, g: Globals, d: Digest, pc: Pc, c: Choice)
    requires StepReady(o, g, d, Control, pc) && pc.TickSend?
    ensures StepSound(o, g, d, Control, StepControl(o, Control, g, pc, c))
  {
  }

  lemma TickStaleStep(o: Options, g: Globals, d: Digest, pc: Pc, c: Choice)
    requires StepReady(o, g, d, Control, pc) && pc.TickStale?
    ensures StepSound(o, g, d, Control, StepControl(o, Control, g, pc, c))
  {
  }

  lemma TickLockStep(o: Options, g: Globals, d: Digest, pc: Pc, c: Choice)
    requires StepReady(o, g, d, Control, pc) && (pc.Top? || pc.TickWantIo? || pc.TickDone?)
    ensures StepSound(o, g, d, Control, StepControl(o, Control, g, pc, c))
  {
    hide GlobalInv, Interference, ServiceLocal, LifeLocal;
    var out := StepControl(o, Control, g, pc, c);
    RecordKept(o, g, d, Control, out.g, out.entries);
  }

  lemma ControlStep(o: Options, g: Globals, d: Digest, pc: Pc, c: Choice)
    requires StepReady(o, g, d, Control, pc) && ControlPc(pc)
    requires pc.TickRead? ==> Settled(g, d)
    ensures StepSound(o, g, d, Control, StepControl(o, Control, g, pc, c))
  {
    if pc.TickRead? { TickReadStep(o, g, d, pc, c);
    } else if pc.TickSend? { TickSendStep(o, g, d, pc, c);
    } else if pc.TickAck? { TickAckStep(o, g, d, pc, c);
    } else if pc.TickStale? { TickStaleStep(o, g, d, pc, c);
    } else if pc.TickLink? { TickLinkStep(o, g, d, pc, c);
    } else { TickLockStep(o, g, d, pc, c); }
  }

  predicate PollQuery(pc: Pc) { pc.PollTicket? || pc.PollState? || pc.PollBrake? }

  predicate PollTesting(pc: Pc) { pc.PollTest? || pc.PollFailTest? }

  lemma PollCommitRecord(o: Options, g: Globals, d: Digest, pc: Pc, c: Choice)
    requires StepReady(o, g, d, Telemetry, pc) && pc.PollCommit?
    ensures var g' := StepPoll(o, Telemetry, g, pc, c).g;
      Interference(g, d, g', d, Some(Telemetry)) && GlobalInv(o, g', d)
  {
    hide ServiceLocal, TickLocal, LifeLocal;
  }

  lemma PollCommitStep(o: Options, g: Globals, d: Digest, pc: Pc, c: Choice)
    requires StepReady(o, g, d, Telemetry, pc) && pc.PollCommit?
    ensures StepSound(o, g, d, Telemetry, StepPoll(o, Telemetry, g, pc, c))
  {
    hide GlobalInv, Interference, TelemetryCommit;
    PollCommitRecord(o, g, d, pc, c);
  }

  lemma PollFailStep(o: Options, g: Globals, d: Digest, pc: Pc, c: Choice)
    requires StepReady(o, g, d, Telemetry, pc) && pc.PollFailCommit?
    ensures StepSound(o, g, d, Telemetry, StepPoll(o, Telemetry, g, pc, c))
  {
  }

  lemma PollLinkStep(o: Options, g: Globals, d: Digest, pc: Pc, c: Choice)
    requires StepReady(o, g, d, Telemetry, pc) && pc.PollLink?
    ensures StepSound(o, g, d, Telemetry, StepPoll(o, Telemetry, g, pc, c))
  {
    hide GlobalInv, Interference, LinkFailed;
    LinkDropped(o, g, d, Telemetry, pc.ticket);
  }

  lemma PollQueryStep(o: Options, g: Globals, d: Digest, pc: Pc, c: Choice)
    requires StepReady(o, g, d, Telemetry, pc) && PollQuery(pc)
    ensures StepSound(o, g, d, Telemetry, StepPoll(o, Telemetry, g, pc, c))
  {
    hide GlobalInv, Interference;
    RecordKept(o, g, d, Telemetry, g, []);
  }

  lemma PollTestStep(o: Options, g: Globals, d: Digest, pc: Pc, c: Choice)
    requires StepReady(o, g, d, Telemetry, pc) && PollTesting(pc)
    ensures StepSound(o, g, d, Telemetry, StepPoll(o, Telemetry, g, pc, c))
  {
    hide GlobalInv, Interference;
    RecordKept(o, g, d, Telemetry, g, []);
  }

  lemma PollBranchStep(o: Options, g: Globals, d: Digest, pc: Pc, c: Choice)
    requires StepReady(o, g, d, Telemetry, pc) && (pc.PollTop? || pc.PollBranch? || pc.PollLoad?)
    ensures StepSound(o, g, d, Telemetry, StepPoll(o, Telemetry, g, pc, c))
  {
    hide GlobalInv, Interference, TickLocal, LifeLocal;
    RecordKept(o, g, d, Telemetry, StepPoll(o, Telemetry, g, pc, c).g, []);
  }

  lemma PollStep(o: Options, g: Globals, d: Digest, pc: Pc, c: Choice)
    requires StepReady(o, g, d, Telemetry, pc) && PollPc(pc)
    ensures StepSound(o, g, d, Telemetry, StepPoll(o, Telemetry, g, pc, c))
  {
    if pc.PollLink? { PollLinkStep(o, g, d, pc, c);
    } else if pc.PollCommit? { PollCommitStep(o, g, d, pc, c);
    } else if pc.PollFailCommit? { PollFailStep(o, g, d, pc, c);
    } else if PollTesting(pc) { PollTestStep(o, g, d, pc, c);
    } else if PollQuery(pc) { PollQueryStep(o, g, d, pc, c);
    } else { PollBranchStep(o, g, d, pc, c); }
  }

  lemma DisconnectInhibitStep(o: Options, g: Globals, d: Digest, pc: Pc)
    requires StepReady(o, g, d, Lifecycle, pc) && pc.DisconnectInhibit?
    ensures StepSound(o, g, d, Lifecycle, StepLife(g, pc))
  {
  }

  lemma DisconnectCloseStep(o: Options, g: Globals, d: Digest, pc: Pc)
    requires StepReady(o, g, d, Lifecycle, pc) && pc.DisconnectClose?
    ensures StepSound(o, g, d, Lifecycle, StepLife(g, pc))
  {
  }

  lemma LifeStep(o: Options, g: Globals, d: Digest, pc: Pc)
    requires StepReady(o, g, d, Lifecycle, pc) && LifePc(pc) && !Halted(pc)
    ensures StepSound(o, g, d, Lifecycle, StepLife(g, pc))
  {
    hide GlobalInv, Interference;
    if pc.DisconnectInhibit? { DisconnectInhibitStep(o, g, d, pc);
    } else if pc.DisconnectClose? { DisconnectCloseStep(o, g, d, pc);
    } else { RecordKept(o, g, d, Lifecycle, g, []); }
  }
}
