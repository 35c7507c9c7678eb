/**
 What holds over every run of the TANK protocol, stated on the history: the
 frames sent, the stops secured, the readies committed.
 */
module TankSafety {
  import opened Prelude
  import opened TankState
  import opened TankProtocol
  import opened TankInvariant
  import opened TankSystem
  import opened TankCourse

  // ---------- Each entry agrees with the history before it ----------

  ghost predicate FrameOk(d: Digest, frame: Frame, ticket: nat) {
    && (frame.Nonzero() ==> d.bar == None && frame.id > 0)
    && (frame.MoveFrame? && frame.id > 0 ==>
        frame.id !in d.failed && (frame.id, frame.linear, frame.angular) in d.accepted)
    && (frame == BrakeFrame(false) ==> ticket in d.tested && forall k :: k in d.secured ==> k < ticket)
  }

  ghost predicate EntryOk(o: Options, d: Digest, e: Entry) {
    match e
    case Sent(frame, _, ticket, _) => FrameOk(d, frame, ticket)
    case Answered(ticket, _, call, ok) => call.Stop? && ok ==> ticket in d.secured
    case Committed(ticket, _) => forall k :: k in d.secured ==> k < ticket
    case Accepted(_, vx, wz) => Within(vx, o.maxLinear) && Within(wz, o.maxAngular)
    case Tested(ticket, _) => d.newest <= ticket
    case _ => true
  }

  ghost predicate HistoryOk(o: Options, log: seq<Entry>) {
    forall j :: 0 <= j < |log| ==> EntryOk(o, DigestOf(log[..j]), log[j])
  }

  lemma PrepareEntryOk(o: Options, g: Globals, d: Digest, t: Tid, pc: Pc, c: Choice)
    requires StepReady(o, g, d, t, pc) && pc.Prepare?
    ensures forall e :: e in StepPrepare(o, t, g, pc, c).entries ==> EntryOk(o, d, e)
  {
    hide TickLocal, LifeLocal;
  }

  lemma ServiceEntryOk(o: Options, g: Globals, d: Digest, t: Tid, pc: Pc, c: Choice)
    requires StepReady(o, g, d, t, pc) && ServicePc(pc)
    ensures forall e :: e in StepService(o, t, g, pc, c).entries ==> EntryOk(o, d, e)
  {
    hide StepPrepare, TickLocal, LifeLocal;
    if pc.Prepare? { PrepareEntryOk(o, g, d, t, pc, c); }
  }

  lemma ControlEntryOk(o: Options, g: Globals, d: Digest, t: Tid, pc: Pc, c: Choice)
    requires StepReady(o, g, d, t, pc) && ControlPc(pc)
    ensures forall e :: e in StepControl(o, t, g, pc, c).entries ==> EntryOk(o, d, e)
  {
  }

  lemma ThreadEntryOk(o: Options, g: Globals, d: Digest, t: Tid, pc: Pc, c: Choice)
    requires StepReady(o, g, d, t, pc)
    ensures forall e :: e in StepThread(o, t, g, pc, c).entries ==> EntryOk(o, d, e)
  {
    hide GlobalInv, StepService, StepControl;
    if ServicePc(pc) {
      ServiceEntryOk(o, g, d, t, pc, c);
    } else if ControlPc(pc) {
      ControlEntryOk(o, g, d, t, pc, c);
    }
  }

  lemma HistoryExtends(o: Options, log: seq<Entry>, entries: seq<Entry>)
    requires HistoryOk(o, log) && |entries| <= 1
    requires forall e :: e in entries ==> EntryOk(o, DigestOf(log), e)
    ensures HistoryOk(o, log + entries)
  {
    var all := log + entries;
    forall j | 0 <= j < |all| ensures EntryOk(o, DigestOf(all[..j]), all[j]) {
      if j < |log| {
        assert all[..j] == log[..j];
      } else {
        assert all[..j] == log && all[j] == entries[0];
      }
    }
  }

  lemma SpawnHistory(o: Options, s: State, t: Tid, call: Call)
    requires HistoryOk(o, s.log)
    ensures HistoryOk(o, s.log + [Requested(s.g.sh.epoch + 1, t, call)])
  {
    HistoryExtends(o, s.log, [Requested(s.g.sh.epoch + 1, t, call)]);
  }

  lemma ActHistory(o: Options, s: State, t: Tid, c: Choice)
    requires Runnable(o, s, t) && HistoryOk(o, s.log)
    ensures HistoryOk(o, ActThread(o, s, t, c).log)
  {
    hide HistoryOk, EntryOk, GlobalInv, DigestOf, StepThread;
    var d, pc := DigestOf(s.log), s.pcs[t];
    assert ThreadInv(o, s.g, d, t, pc);
    ThreadEntryOk(o, s.g, d, t, pc, c);
    ActSound(o, s, t, c);
    HistoryExtends(o, s.log, StepThread(o, t, s.g, pc, c).entries);
  }

  lemma MoveHistory(o: Options, s: State, vx: Double, vy: Double, wz: Double, now: int)
    requires o.Valid() && HistoryOk(o, s.log)
    ensures HistoryOk(o, Step(o, s, CmdVel(vx, vy, wz, now)).log)
  {
    hide HistoryOk;
    var sh := Move(o, s.g.sh, vx, vy, wz, now);
    if AllFinite(vx, vy, wz) && MoveAllowed(s.g.sh) {
      HistoryExtends(o, s.log, [Accepted(sh.commandId, sh.vx, sh.wz)]);
    } else {
      assert s.log + [] == s.log;
    }
  }

  lemma HistoryStep(o: Options, s: State, e: Event)
    requires o.Valid() && Sys(o, s) && HistoryOk(o, s.log)
    ensures HistoryOk(o, Step(o, s, e).log)
  {
    hide HistoryOk, Sys, ActThread, Move;
    match e
    case Act(t, c) => if t in s.pcs && Enabled(s, t) { ActHistory(o, s, t, c); }
    case CallReady(id) => SpawnHistory(o, s, Caller(id), Ready);
    case CallStop(id, emergency) => SpawnHistory(o, s, Caller(id), Stop(emergency));
    case CmdVel(vx, vy, wz, now) => MoveHistory(o, s, vx, vy, wz, now);
    case _ =>
  }

  lemma {:induction false} RunHistory(o: Options, events: seq<Event>)
    requires o.Valid()
    ensures HistoryOk(o, Run(o, events).log)
  {
    if events != [] {
      RunHistory(o, events[..|events| - 1]);
      RunKeeps(o, events[..|events| - 1]);
      HistoryStep(o, Run(o, events[..|events| - 1]), events[|events| - 1]);
    }
  }

  // ---------- Reading the digest back ----------

  /** Some ready with a ticket later than this one commits strictly between i and j. */
  ghost predicate Superseded(log: seq<Entry>, i: nat, j: nat, ticket: nat)
    requires j <= |log|
  {
    exists k :: i < k < j && log[k].Committed? && log[k].ticket > ticket
  }

  /** Every secured stop is still at or below the bar, or a later ready has superseded it. */
  lemma {:induction false} BarMeans(log: seq<Entry>, i: nat)
    requires i < |log| && log[i].Secured?
    ensures var bar := DigestOf(log).bar;
      (bar.Some? && log[i].ticket <= bar.value) || Superseded(log, i, |log|, log[i].ticket)
  {
    var n := |log| - 1;
    var front := log[..n];
    if i < n {
      BarMeans(front, i);
      assert front[i] == log[i];
      if Superseded(front, i, n, log[i].ticket) {
        var k :| i < k < n && front[k].Committed? && front[k].ticket > log[i].ticket;
        assert log[k] == front[k];
      } else if log[n].Committed? && log[n].ticket > log[i].ticket {
        assert log[n].Committed?;
      }
    }
  }

  lemma {:induction false} SecuredMeans(log: seq<Entry>, ticket: nat)
    ensures ticket in DigestOf(log).secured <==>
      exists i :: 0 <= i < |log| && log[i].Secured? && log[i].ticket == ticket
  {
    if log != [] {
      var n := |log| - 1;
      SecuredMeans(log[..n], ticket);
      if ticket in DigestOf(log[..n]).secured {
        var i :| 0 <= i < n && log[..n][i].Secured? && log[..n][i].ticket == ticket;
        assert log[i].Secured?;
      }
      if i :| 0 <= i < |log| && log[i].Secured? && log[i].ticket == ticket {
        if i < n { assert log[..n][i].Secured?; }
      }
    }
  }

  lemma {:induction false} FailedMeans(log: seq<Entry>, i: nat)
    requires 0 <= i < |log| && log[i].Sent? && log[i].frame.MoveFrame? && log[i].frame.id > 0 && !log[i].ok
    ensures log[i].frame.id in DigestOf(log).failed
  {
    var n := |log| - 1;
    if i < n {
      assert log[..n][i] == log[i];
      FailedMeans(log[..n], i);
    }
  }

  lemma {:induction false} AcceptedMeans(log: seq<Entry>, id: nat, vx: real, wz: real)
    requires (id, vx, wz) in DigestOf(log).accepted
    ensures exists i :: 0 <= i < |log| && log[i] == Accepted(id, vx, wz)
  {
    var n := |log| - 1;
    if (id, vx, wz) in DigestOf(log[..n]).accepted {
      AcceptedMeans(log[..n], id, vx, wz);
      var i :| 0 <= i < n && log[..n][i] == Accepted(id, vx, wz);
      assert log[i] == Accepted(id, vx, wz);
    } else {
      assert log[n] == Accepted(id, vx, wz);
    }
  }

  lemma {:induction false} TestedMeans(log: seq<Entry>, ticket: nat) returns (k: nat)
    requires ticket in DigestOf(log).tested
    ensures k < |log| && log[k].Tested? && log[k].ticket == ticket
  {
    var n := |log| - 1;
    if log[n].Tested? && log[n].ticket == ticket {
      k := n;
    } else {
      k := TestedMeans(log[..n], ticket);
    }
  }

  lemma {:induction false} NewestMeans(log: seq<Entry>, i: nat)
    requires i < |log| && log[i].Requested?
    ensures log[i].ticket <= DigestOf(log).newest
  {
    var n := |log| - 1;
    if i < n {
      assert log[..n][i] == log[i];
      NewestMeans(log[..n], i);
    }
  }

  // ---------- The theorems ----------

  /**
   Stop safety. From the moment a stop has its ticket confirmed under both locks,
   no nonzero frame is sent until a ready with a later ticket commits, and no
   brake release is sent except by a ready with a later ticket.
   */
  lemma StopSafety(o: Options, events: seq<Event>, i: nat, j: nat)
    requires o.Valid()
    requires var log := Run(o, events).log; i < j < |log| && log[i].Secured? && log[j].Sent?
    ensures var log := Run(o, events).log;
      && (log[j].frame.Nonzero() ==> Superseded(log, i, j, log[i].ticket))
      && (log[j].frame == BrakeFrame(false) ==> log[j].ticket > log[i].ticket)
  {
    var log := Run(o, events).log;
    RunHistory(o, events);
    assert EntryOk(o, DigestOf(log[..j]), log[j]);
    assert log[..j][i] == log[i];
    BarMeans(log[..j], i);
    if log[j].frame.Nonzero() {
      assert Superseded(log[..j], i, j, log[i].ticket);
      var k :| i < k < j && log[..j][k].Committed? && log[..j][k].ticket > log[i].ticket;
      assert log[k] == log[..j][k];
    }
    SecuredMeans(log[..j], log[i].ticket);
  }

  /**
   A brake release was tested: when the ready that sends it looked last, no ready
   and no stop newer than itself had been requested.
   */
  lemma ReleaseWasCurrent(o: Options, events: seq<Event>, j: nat) returns (k: nat)
    requires o.Valid()
    requires var log := Run(o, events).log; j < |log| && log[j].Sent? && log[j].frame == BrakeFrame(false)
    ensures var log := Run(o, events).log;
      && k < j && log[k].Tested? && log[k].ticket == log[j].ticket
      && forall i :: 0 <= i < k && log[i].Requested? ==> log[i].ticket <= log[j].ticket
  {
    var log := Run(o, events).log;
    RunHistory(o, events);
    assert EntryOk(o, DigestOf(log[..j]), log[j]);
    k := TestedMeans(log[..j], log[j].ticket);
    assert EntryOk(o, DigestOf(log[..k]), log[k]);
    forall i | 0 <= i < k && log[i].Requested? ensures log[i].ticket <= log[j].ticket {
      assert log[..k][i] == log[i];
      NewestMeans(log[..k], i);
    }
  }

  /**
   A stop that reports success has stopped the robot: after it was secured an
   emergency stop had the brake written, acknowledged and read back engaged, any
   other had a zero velocity acknowledged. Stop safety covers all that follows.
   */
  lemma SuccessfulStopIsSafe(o: Options, events: seq<Event>, r: nat, j: nat) returns (i: nat, a: nat, b: nat)
    requires o.Valid()
    requires var log := Run(o, events).log;
      r < j < |log| && log[r].Answered? && log[r].call.Stop? && log[r].ok && log[j].Sent?
    ensures i < a <= b < r
    ensures var log := Run(o, events).log; var e := log[r];
      && log[i] == Secured(e.ticket, e.sender)
      && (if e.call.emergency then
            && log[a] == Sent(BrakeFrame(true), e.sender, e.ticket, true)
            && a < b && log[b] == BrakeRead(e.ticket, e.sender, true)
          else
            log[a] == Sent(MoveFrame(0.0, 0.0, 0), e.sender, e.ticket, true))
      && (log[j].frame.Nonzero() ==> Superseded(log, i, j, e.ticket))
      && (log[j].frame == BrakeFrame(false) ==> log[j].ticket > e.ticket)
  {
    var q;
    q, i, a, b := StopAnswer(o, events, r);
    StopSafety(o, events, i, j);
  }

  /** Only a ready newer than every secured stop ever commits. */
  lemma OldReadyNeverCommits(o: Options, events: seq<Event>, i: nat, j: nat)
    requires o.Valid()
    requires var log := Run(o, events).log; i < j < |log| && log[i].Secured? && log[j].Committed?
    ensures var log := Run(o, events).log; log[j].ticket > log[i].ticket
  {
    var log := Run(o, events).log;
    RunHistory(o, events);
    assert EntryOk(o, DigestOf(log[..j]), log[j]);
    assert log[..j][i] == log[i];
    SecuredMeans(log[..j], log[i].ticket);
  }

  /** A command whose frame got no acknowledgement is never sent again. */
  lemma NoRetransmission(o: Options, events: seq<Event>, i: nat, j: nat)
    requires o.Valid()
    requires var log := Run(o, events).log;
      && i < j < |log|
      && log[i].Sent? && log[i].frame.MoveFrame? && log[i].frame.id > 0 && !log[i].ok
      && log[j].Sent? && log[j].frame.MoveFrame?
    ensures var log := Run(o, events).log; log[j].frame.id != log[i].frame.id
  {
    var log := Run(o, events).log;
    RunHistory(o, events);
    assert EntryOk(o, DigestOf(log[..j]), log[j]);
    assert log[..j][i] == log[i];
    FailedMeans(log[..j], i);
  }

  /** The event is a velocity request that these values follow, forward speed and turn rate each within its limit. */
  predicate Asks(o: Options, event: Event, linear: real, angular: real) {
    && event.CmdVel? && event.vx.Finite? && event.vy.Finite? && event.wz.Finite?
    && Follows(o.maxLinear, event.vx.value, linear) && Follows(o.maxAngular, event.wz.value, angular)
  }

  lemma MoveFollows(o: Options, s: Shared, vx: Double, vy: Double, wz: Double, now: int)
    requires o.Valid() && AllFinite(vx, vy, wz) && MoveAllowed(s)
    ensures var s' := Move(o, s, vx, vy, wz, now);
      Follows(o.maxLinear, vx.value, s'.vx) && Follows(o.maxAngular, wz.value, s'.wz)
  {
  }

  /** Every acceptance is that of a velocity event of the run, under permission, and follows its request. */
  lemma AcceptedWasAsked(o: Options, events: seq<Event>, i: nat) returns (k: nat)
    requires o.Valid() && i < |Run(o, events).log| && Run(o, events).log[i].Accepted?
    ensures k < |events| && Run(o, events[..k]).log == Run(o, events).log[..i]
    ensures var e := Run(o, events).log[i]; Asks(o, events[k], e.vx, e.wz)
    ensures var s := Run(o, events[..k]).g.sh; s.running && s.connected && s.owned && !s.estop && !s.brake
  {
    hide StepThread, Spawn, Run, Move;
    k := LeftBy(o, events, i);
    var s, e := Run(o, events[..k]), Run(o, events).log[i];
    assert Step(o, s, events[k]).log[|s.log|] == e;
    match events[k]
    case Act(_, _) => ActLeaves(o, s, events[k], e);
    case CallReady(id) => SpawnLogs(s, id, Ready, false);
    case CallStop(id, emergency) => SpawnLogs(s, id, Stop(emergency), emergency);
    case CmdVel(vx, vy, wz, now) =>
      if AllFinite(vx, vy, wz) && MoveAllowed(s.g.sh) { MoveFollows(o, s.g.sh, vx, vy, wz, now); }
    case _ =>
  }

  /**
   Every nonzero frame carries, unchanged, a command that `move` accepted before it,
   and that command follows the velocity some caller had asked for.
   */
  lemma FramesWereAccepted(o: Options, events: seq<Event>, j: nat) returns (i: nat, k: nat)
    requires o.Valid()
    requires var log := Run(o, events).log; j < |log| && log[j].Sent? && log[j].frame.Nonzero()
    ensures var log := Run(o, events).log; var f := log[j].frame;
      && i < j && log[i] == Accepted(f.id, f.linear, f.angular)
      && k < |events| && Run(o, events[..k]).log == log[..i] && Asks(o, events[k], f.linear, f.angular)
  {
    var log := Run(o, events).log;
    var f := log[j].frame;
    RunHistory(o, events);
    assert EntryOk(o, DigestOf(log[..j]), log[j]);
    AcceptedMeans(log[..j], f.id, f.linear, f.angular);
    i :| i < j && log[..j][i] == Accepted(f.id, f.linear, f.angular);
    assert log[i] == Accepted(f.id, f.linear, f.angular);
    k := AcceptedWasAsked(o, events, i);
  }

  // ---------- The control tick ----------

  predicate NoControl(events: seq<Event>) { forall e :: e in events ==> !(e.Act? && e.t == Control) }

  lemma ControlStaysOnce(o: Options, s: State, e: Event)
    requires o.Valid() && Sys(o, s) && s.pcs[Control] != Exited && !(e.Act? && e.t == Control)
    ensures Control in Step(o, s, e).pcs && Step(o, s, e).pcs[Control] == s.pcs[Control]
  {
    hide StepThread, GlobalInv, Accounted, DigestOf, Threads;
    if e.Act? && e.t in s.pcs && Enabled(s, e.t) {
      OthersStand(o, s, e.t, e.c, Control);
      if Starts(s.pcs[e.t], StepThread(o, e.t, s.g, s.pcs[e.t], e.c).pc) { StartsOnlyFromConnect(o, s, e.t, e.c); }
    }
  }

  lemma {:induction false} ControlStays(o: Options, events: seq<Event>, mid: seq<Event>)
    requires o.Valid() && NoControl(mid)
    requires Control in Run(o, events).pcs && Run(o, events).pcs[Control] != Exited
    ensures var s := Run(o, events + mid); Control in s.pcs && s.pcs[Control] == Run(o, events).pcs[Control]
    decreases |mid|
  {
    hide Step, Sys;
    if mid == [] {
      assert events + mid == events;
    } else {
      var n := |mid| - 1;
      assert mid[n] in mid && (events + mid)[..|events| + n] == events + mid[..n];
      ControlStays(o, events, mid[..n]);
      RunKeeps(o, events + mid[..n]);
      ControlStaysOnce(o, Run(o, events + mid[..n]), mid[n]);
    }
  }

  /** A tick may send: permission, fresh telemetry and no overdue acknowledgement. */
  predicate TickGoes(o: Options, s: Shared, now: int) {
    && s.running && s.owned && now - s.telemetryTime <= o.telemetryTimeout
    && (s.moveFailures == 0 || now - s.ackTime < o.moveFailureTimeout)
  }

  /**
   A tick that may send does send, whatever the other threads do before it does: the
   cached command if that is fresh, else zero.
   */
  lemma TickSends(o: Options, events: seq<Event>, c: Choice, mid: seq<Event>, c': Choice)
    requires o.Valid() && Control in Run(o, events).pcs && Run(o, events).pcs[Control] == TickRead
    requires TickGoes(o, Run(o, events).g.sh, c.now) && NoControl(mid)
    ensures var sh := Run(o, events).g.sh;
      var before := Run(o, events + [Act(Control, c)] + mid);
      var recent := sh.commandTime.Some? && c.now - sh.commandTime.value <= o.commandTimeout;
      var frame := if recent then MoveFrame(sh.vx, sh.wz, sh.commandId) else MoveFrame(0.0, 0.0, 0);
      Step(o, before, Act(Control, c')).log == before.log + [Sent(frame, Control, sh.epoch, c'.ok)]
  {
    var s := Run(o, events);
    var first := events + [Act(Control, c)];
    assert first[..|events|] == events && Run(o, first) == Step(o, s, Act(Control, c));
    assert Permission(o, s.g.sh) by { RunKeeps(o, events); }
    TickTaken(o, s.g, c);
    WorkerActs(o, s, Control, c);
    hide Step, StepThread, Run;
    ControlStays(o, first, mid);
    var before := Run(o, first + mid);
    WorkerActs(o, before, Control, c');
    SendGoes(o, before.g, before.pcs[Control], c');
  }

  lemma SendGoes(o: Options, g: Globals, pc: Pc, c: Choice)
    requires pc.TickSend?
    ensures StepThread(o, Control, g, pc, c).entries ==
      [Sent(MoveFrame(pc.linear, pc.angular, pc.id), Control, pc.ticket, c.ok)]
  {
  }

  lemma TickTaken(o: Options, g: Globals, c: Choice)
    requires Permission(o, g.sh) && TickGoes(o, g.sh, c.now)
    ensures var recent := g.sh.commandTime.Some? && c.now - g.sh.commandTime.value <= o.commandTimeout;
      StepThread(o, Control, g, TickRead, c).pc ==
      if recent then TickSend(g.sh.epoch, g.sh.vx, g.sh.wz, g.sh.commandId) else TickSend(g.sh.epoch, 0.0, 0.0, 0)
  {
  }

  /** What one step of a worker does to the state, told on the step of its thread. */
  lemma WorkerActs(o: Options, s: State, t: Tid, c: Choice)
    requires t in s.pcs && (ControlPc(s.pcs[t]) || PollPc(s.pcs[t])) && !s.pcs[t].TickWantIo?
    ensures var out := StepThread(o, t, s.g, s.pcs[t], c);
      Step(o, s, Act(t, c)) == State(out.g, s.pcs[t := out.pc], s.log + out.entries)
  {
    hide StepThread;
  }

  /** Two steps of one thread in a row. */
  function Twice(o: Options, s: State, t: Tid, c1: Choice, c2: Choice): State {
    Step(o, Step(o, s, Act(t, c1)), Act(t, c2))
  }

  predicate LinkDown(before: Shared, after: Shared) {
    && !after.connected && !after.owned && !after.brakeKnown && after.commandTime == None
    && after.epoch == before.epoch + 1
  }

  lemma TickExpires(o: Options, g: Globals, c1: Choice, c2: Choice, c3: Choice)
    requires Permission(o, g.sh) && g.sh.running && g.sh.owned && !TickGoes(o, g.sh, c1.now)
    ensures var out1 := StepThread(o, Control, g, TickRead, c1);
      var out2 := StepThread(o, Control, out1.g, out1.pc, c2);
      var out3 := StepThread(o, Control, out2.g, out2.pc, c3);
      && out1.pc.TickStale? && out2.pc.TickLink? && out1.entries == out3.entries == []
      && out2.entries == [Sent(MoveFrame(0.0, 0.0, 0), Control, g.sh.epoch, c2.ok)]
      && LinkDown(g.sh, out3.g.sh)
  {
  }

  /** Stale telemetry or an overdue acknowledgement ends in a zero frame and a dropped link. */
  lemma ExpiredTickStops(o: Options, events: seq<Event>, c1: Choice, c2: Choice, c3: Choice)
    requires o.Valid() && Control in Run(o, events).pcs && Run(o, events).pcs[Control] == TickRead
    requires var sh := Run(o, events).g.sh; sh.running && sh.owned && !TickGoes(o, sh, c1.now)
    ensures var s := Run(o, events); var s' := Step(o, Twice(o, s, Control, c1, c2), Act(Control, c3));
      && s'.log == s.log + [Sent(MoveFrame(0.0, 0.0, 0), Control, s.g.sh.epoch, c2.ok)]
      && LinkDown(s.g.sh, s'.g.sh)
  {
    var s := Run(o, events);
    assert Permission(o, s.g.sh) by { RunKeeps(o, events); }
    hide Run, StepThread, Step, LinkDown;
    TickExpires(o, s.g, c1, c2, c3);
    WorkerActs(o, s, Control, c1);
    var s1 := Step(o, s, Act(Control, c1));
    WorkerActs(o, s1, Control, c2);
    WorkerActs(o, Step(o, s1, Act(Control, c2)), Control, c3);
  }

  lemma TickFails(o: Options, g: Globals, pc: Pc, c1: Choice, c2: Choice)
    requires pc.TickAck? && !pc.ok && pc.ticket == g.sh.epoch && g.sh.owned
    ensures var out := StepThread(o, Control, g, pc, c1);
      var late := c1.now - g.sh.ackTime >= o.moveFailureTimeout;
      && out.entries == [] && out.g.sh == ClearCommand(g.sh).(moveFailures := g.sh.moveFailures + 1)
      && if !pc.transport || g.sh.moveFailures + 1 >= o.moveFailureLimit || late then
           && out.pc.TickLink?
           && var out2 := StepThread(o, Control, out.g, out.pc, c2); out2.entries == [] && LinkDown(g.sh, out2.g.sh)
         else
           out.pc == TickDone
  {
  }

  /**
   A frame without acknowledgement clears the command; the link is dropped exactly
   when the failure was no transport failure, used up the budget or came too late.
   */
  lemma FailedTickDrops(o: Options, events: seq<Event>, c1: Choice, c2: Choice)
    requires Control in Run(o, events).pcs && Run(o, events).pcs[Control].TickAck? && !Run(o, events).pcs[Control].ok
    requires var s := Run(o, events); s.pcs[Control].ticket == s.g.sh.epoch && s.g.sh.owned
    ensures var s := Run(o, events); var sh, s1 := s.g.sh, Step(o, s, Act(Control, c1));
      var late := c1.now - sh.ackTime >= o.moveFailureTimeout;
      && s1.log == s.log && s1.g.sh == ClearCommand(sh).(moveFailures := sh.moveFailures + 1)
      && if !s.pcs[Control].transport || sh.moveFailures + 1 >= o.moveFailureLimit || late then
           var s2 := Twice(o, s, Control, c1, c2); s2.log == s.log && LinkDown(sh, s2.g.sh)
         else
           s1.pcs[Control] == TickDone
  {
    hide Run, StepThread, Step, LinkDown;
    var s := Run(o, events);
    TickFails(o, s.g, s.pcs[Control], c1, c2);
    WorkerActs(o, s, Control, c1);
    var s1 := Step(o, s, Act(Control, c1));
    if s1.pcs[Control].TickLink? { WorkerActs(o, s1, Control, c2); }
  }

  lemma PollFails(o: Options, g: Globals, pc: Pc, c1: Choice, c2: Choice)
    requires pc.PollFailCommit? && pc.ticket == g.sh.epoch
    ensures var out := StepThread(o, Telemetry, g, pc, c1);
      var late := c1.now - g.sh.telemetryTime >= o.telemetryTimeout;
      && out.g.sh == g.sh.(stateFailures := g.sh.stateFailures + 1)
      && if !pc.transport || g.sh.stateFailures + 1 >= o.stateFailureLimit || late then
           out.pc.PollLink? && LinkDown(g.sh, StepThread(o, Telemetry, out.g, out.pc, c2).g.sh)
         else
           out.pc == PollTop
  {
  }

  /** A failed state poll of the current epoch drops the link exactly on the like conditions. */
  lemma FailedPollDrops(o: Options, events: seq<Event>, c1: Choice, c2: Choice)
    requires Telemetry in Run(o, events).pcs && Run(o, events).pcs[Telemetry].PollFailCommit?
    requires Run(o, events).pcs[Telemetry].ticket == Run(o, events).g.sh.epoch
    ensures var s := Run(o, events); var sh, s1 := s.g.sh, Step(o, s, Act(Telemetry, c1));
      var late := c1.now - sh.telemetryTime >= o.telemetryTimeout;
      && s1.g.sh == sh.(stateFailures := sh.stateFailures + 1)
      && if !s.pcs[Telemetry].transport || sh.stateFailures + 1 >= o.stateFailureLimit || late then
           LinkDown(sh, Twice(o, s, Telemetry, c1, c2).g.sh)
         else
           s1.pcs[Telemetry] == PollTop
  {
    hide Run, StepThread, Step, LinkDown;
    var s := Run(o, events);
    PollFails(o, s.g, s.pcs[Telemetry], c1, c2);
    WorkerActs(o, s, Telemetry, c1);
    var s1 := Step(o, s, Act(Telemetry, c1));
    if s1.pcs[Telemetry].PollLink? { WorkerActs(o, s1, Telemetry, c2); }
  }

  /** Permission and command soundness in every reachable state. */
  lemma PermissionAlways(o: Options, events: seq<Event>)
    requires o.Valid()
    ensures var s := Run(o, events).g.sh;
      && (s.owned ==>
          && o.motionOutput && s.connected && s.want && !s.estop && !s.brake && s.brakeKnown
          && s.operation == "Idle")
      && (s.commandTime.Some? ==>
          && s.owned && s.commandEpoch == s.epoch
          && Within(s.vx, o.maxLinear) && Within(s.wz, o.maxAngular)
          && exists i :: 0 <= i < |Run(o, events).log| && Run(o, events).log[i] == Accepted(s.commandId, s.vx, s.wz))
      && (s.commandTime == None ==> s.vx == 0.0 && s.wz == 0.0)
  {
    RunKeeps(o, events);
    var s := Run(o, events);
    if s.g.sh.commandTime.Some? {
      AcceptedMeans(s.log, s.g.sh.commandId, s.g.sh.vx, s.g.sh.wz);
    }
  }

  /** At its loop top the control thread never finds permission with the failure budget used up. */
  lemma BudgetAtLoopTop(o: Options, events: seq<Event>)
    requires o.Valid() && Control in Run(o, events).pcs && Run(o, events).pcs[Control] == Top
    ensures var s := Run(o, events).g.sh; s.owned ==> s.moveFailures < o.moveFailureLimit
  {
    RunKeeps(o, events);
  }

  // ---------- The last frame ----------

  function LastSent(log: seq<Entry>): Option<Entry> {
    if log == [] then None
    else if log[|log| - 1].Sent? then Some(log[|log| - 1])
    else LastSent(log[..|log| - 1])
  }

  lemma LastSentAfter(log: seq<Entry>, entries: seq<Entry>)
    requires |entries| <= 1
    ensures LastSent(log + entries) ==
      if entries != [] && entries[0].Sent? then Some(entries[0]) else LastSent(log)
  {
    if entries == [] {
      assert log + entries == log;
    } else {
      assert (log + entries)[..|log|] == log;
    }
  }

  /** A zero frame from the thread that runs disconnect. */
  predicate FinalFrame(e: Option<Entry>) {
    e.Some? && e.value.Sent? && e.value.frame == MoveFrame(0.0, 0.0, 0) && e.value.sender == Lifecycle
  }

  /** Once disconnect is past its last frame nothing follows it; before the first connect nothing was sent. */
  predicate Silenced(s: State)
    requires Lifecycle in s.pcs
  {
    FinalDone(s.pcs[Lifecycle]) ==> FinalFrame(LastSent(s.log)) || (s.pcs[Lifecycle].Down? && LastSent(s.log) == None)
  }

  lemma LifeSilences(o: Options, s: State, c: Choice)
    requires Runnable(o, s, Lifecycle) && o.motionOutput && Silenced(s)
    ensures var s' := ActThread(o, s, Lifecycle, c); Lifecycle in s'.pcs && Silenced(s')
  {
    hide Sys, DigestOf, StepService, LastSent;
    LifeFacts(o, s, c);
    LastSentAfter(s.log, StepThread(o, Lifecycle, s.g, s.pcs[Lifecycle], c).entries);
  }

  lemma OtherSilences(o: Options, s: State, t: Tid, c: Choice)
    requires Runnable(o, s, t) && t != Lifecycle && o.motionOutput && Lifecycle in s.pcs && Silenced(s)
    ensures var s' := ActThread(o, s, t, c); Lifecycle in s'.pcs && Silenced(s')
  {
    hide ThreadInv, GlobalInv, Accounted, StepThread, DigestOf, LastSent;
    if FinalDone(s.pcs[Lifecycle]) {
      OnlyCallers(o, s, t);
      assert ThreadInv(o, s.g, DigestOf(s.log), t, s.pcs[t]);
      QuietStep(o, s.g, DigestOf(s.log), t.id, s.pcs[t], c);
      LastSentAfter(s.log, StepThread(o, t, s.g, s.pcs[t], c).entries);
    }
  }

  lemma StepSilences(o: Options, s: State, e: Event)
    requires o.Valid() && Sys(o, s) && o.motionOutput && Lifecycle in s.pcs && Silenced(s)
    ensures Lifecycle in Step(o, s, e).pcs && Silenced(Step(o, s, e))
  {
    hide Sys, StepThread, LastSent, ActThread;
    match e
    case Act(t, c) =>
      if t in s.pcs && Enabled(s, t) {
        if t == Lifecycle { LifeSilences(o, s, c); } else { OtherSilences(o, s, t, c); }
      }
    case CallReady(id) => LastSentAfter(s.log, [Requested(Inhibit(s.g.sh, false).epoch, Caller(id), Ready)]);
    case CallStop(id, emergency) =>
      LastSentAfter(s.log, [Requested(Inhibit(s.g.sh, emergency).epoch, Caller(id), Stop(emergency))]);
    case CmdVel(vx, vy, wz, now) => LastSentAfter(s.log, Step(o, s, e).log[|s.log|..]);
    case _ =>
  }

  lemma {:induction false} RunSilences(o: Options, events: seq<Event>)
    requires o.Valid() && o.motionOutput
    ensures var s := Run(o, events); Lifecycle in s.pcs && Silenced(s)
  {
    if events != [] {
      RunSilences(o, events[..|events| - 1]);
      RunKeeps(o, events[..|events| - 1]);
      StepSilences(o, Run(o, events[..|events| - 1]), events[|events| - 1]);
    }
  }

  /** Before disconnect closes it has certainly sent a zero frame, and nothing was sent after it. */
  lemma ZeroFrameIsSent(o: Options, events: seq<Event>)
    requires o.Valid() && o.motionOutput
    requires Lifecycle in Run(o, events).pcs && Run(o, events).pcs[Lifecycle] == DisconnectClose
    ensures FinalFrame(LastSent(Run(o, events).log))
  {
    RunSilences(o, events);
  }

  /** After that, until connect runs again, it stays the last frame sent. */
  lemma LastFrameAfterDisconnect(o: Options, events: seq<Event>)
    requires o.Valid() && o.motionOutput
    requires Lifecycle in Run(o, events).pcs && Run(o, events).pcs[Lifecycle] == Down
    ensures var last := LastSent(Run(o, events).log); last == None || FinalFrame(last)
  {
    RunSilences(o, events);
  }

  // ---------- The emergency stop ----------

  /** Entry q asks for an emergency stop, and no ready has committed since. */
  ghost predicate LatchedBy(log: seq<Entry>, q: nat) {
    && q < |log| && log[q].Requested? && log[q].call == Stop(true)
    && forall m :: q < m < |log| ==> !log[m].Committed?
  }

  ghost predicate Latched(log: seq<Entry>) { exists q: nat :: LatchedBy(log, q) }

  lemma LatchedNext(log: seq<Entry>, e: Entry)
    ensures Latched(log + [e]) <==> (e.Requested? && e.call == Stop(true)) || (Latched(log) && !e.Committed?)
  {
    var more := log + [e];
    if e.Requested? && e.call == Stop(true) { assert LatchedBy(more, |log|); }
    if q: nat :| LatchedBy(log, q) && !e.Committed? { assert LatchedBy(more, q); }
    if q: nat :| LatchedBy(more, q) && q < |log| {
      assert more[|log|] == e;
      assert forall m :: q < m < |log| ==> more[m] == log[m];
      assert LatchedBy(log, q);
    }
  }

  /** A step that changes the emergency stop is the commit of a ready, which it ends. */
  ghost predicate LatchKept(g: Globals, out: Outcome) {
    |out.entries| <= 1 && (out.g.sh.estop <==> g.sh.estop && (out.entries == [] || !out.entries[0].Committed?))
  }

  lemma PrepareLatch(o: Options, t: Tid, g: Globals, pc: Pc, c: Choice)
    requires pc.Prepare?
    ensures LatchKept(g, StepPrepare(o, t, g, pc, c))
  {
  }

  lemma ServiceLatch(o: Options, t: Tid, g: Globals, pc: Pc, c: Choice)
    requires ServicePc(pc)
    ensures LatchKept(g, StepService(o, t, g, pc, c))
  {
    hide StepPrepare;
    if pc.Prepare? { PrepareLatch(o, t, g, pc, c); }
  }

  lemma ThreadLatch(o: Options, t: Tid, g: Globals, pc: Pc, c: Choice)
    ensures LatchKept(g, StepThread(o, t, g, pc, c))
  {
    hide StepService;
    if ServicePc(pc) { ServiceLatch(o, t, g, pc, c); }
  }

  lemma LatchStep(o: Options, s: State, e: Event)
    requires s.g.sh.estop <==> Latched(s.log)
    ensures var s' := Step(o, s, e); s'.g.sh.estop <==> Latched(s'.log)
  {
    hide StepThread, Spawn, Latched;
    match e
    case Act(t, c) =>
      if t in s.pcs && Enabled(s, t) {
        ThreadLatch(o, t, s.g, s.pcs[t], c);
        EntriesAreOwn(o, t, s.g, s.pcs[t], c);
        LatchedAfter(s.log, StepThread(o, t, s.g, s.pcs[t], c).entries);
      }
    case CallReady(id) => SpawnLatches(s, id, Ready, false);
    case CallStop(id, emergency) => SpawnLatches(s, id, Stop(emergency), emergency);
    case CmdVel(vx, vy, wz, now) => LatchedAfter(s.log, Step(o, s, e).log[|s.log|..]);
    case _ =>
  }

  lemma LatchedAfter(log: seq<Entry>, entries: seq<Entry>)
    requires |entries| <= 1 && forall e :: e in entries ==> !e.Requested?
    ensures Latched(log + entries) <==> Latched(log) && (entries == [] || !entries[0].Committed?)
  {
    if entries == [] {
      assert log + entries == log;
    } else {
      assert entries == [entries[0]];
      LatchedNext(log, entries[0]);
    }
  }

  lemma SpawnLatches(s: State, id: nat, call: Call, emergency: bool)
    requires (s.g.sh.estop <==> Latched(s.log)) && (emergency <==> call == Stop(true))
    ensures var s' := Spawn(s, id, call, emergency); s'.g.sh.estop <==> Latched(s'.log)
  {
    hide Latched;
    SpawnLogs(s, id, call, emergency);
    LatchedNext(s.log, Requested(s.g.sh.epoch + 1, Caller(id), call));
  }

  /** The local emergency stop is on exactly when one was requested and no ready has committed since. */
  lemma {:induction false} EstopIffLatched(o: Options, events: seq<Event>)
    ensures Run(o, events).g.sh.estop <==> Latched(Run(o, events).log)
  {
    hide Step, Latched;
    if events == [] {
      NothingLatched();
    } else {
      EstopIffLatched(o, events[..|events| - 1]);
      LatchStep(o, Run(o, events[..|events| - 1]), events[|events| - 1]);
    }
  }

  lemma NothingLatched()
    ensures !Latched([])
  {
  }
}
