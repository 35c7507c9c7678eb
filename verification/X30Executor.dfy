/**
 The X30 action executor: retry, deadline and settle loops against an
 adversarial robot, with the time they take, the commands they send and the
 observation their success rests on.
 */
module X30Executor {
  import opened Prelude
  import opened X30Robot
  import opened X30Looks

  const WARMUP := 400
  const SINGLE_TIMEOUT := 5000
  const GAIT_SWITCH_TIMEOUT := 5000
  const TARGET_GAIT_TIMEOUT := 12000
  const STEPPING_ENTRY_TIMEOUT := 4000
  const START_MOTION_TIMEOUT := 8000
  const START_MOTION_RESEND := 3000
  const STAND_TRANSITION := 16000
  const STAND_RESEND := 4000
  const STAND_WAIT := 6500
  const FORCE_STAND_WAIT := 5000
  const STOP_MOTION_TIMEOUT := 12000
  const STOP_MOTION_RESEND := 4000
  const LIE_TRANSITION := 6000
  const LIE_FINAL_WAIT := 7000
  const GOING_DOWN_WAIT := 5000
  const LIE_RESEND := 3000
  const LIE_OVERALL := 12000
  const SETTLE := 3000
  const SETTLE_POLL := 100
  const LIE_STOP_TIMEOUT := 8000
  const LIE_STOP_RESEND := 3000
  const MAX_ATTEMPTS := 2

  function CeilDiv(a: nat, b: nat): (c: nat)
    requires b > 0
    ensures b * (c - 1) < a <= b * c
  {
    (a + b - 1) / b
  }

  /** How often a toggle command is sent to a robot that never reacts. */
  function Attempts(overall: nat, resend: nat): nat
    requires WARMUP <= overall
  {
    CeilDiv(overall - WARMUP, resend + WARMUP)
  }

  lemma TimesGrows(b: int, x: int, y: int)
    requires b > 0 && x <= y
    ensures b * x <= b * y
  {
    assert b * (y - x) >= 0;
  }

  lemma CeilDivIs(a: nat, b: nat, n: int)
    requires b > 0 && b * (n - 1) < a <= b * n
    ensures CeilDiv(a, b) == n
  {
    var c: int := CeilDiv(a, b);
    if c < n {
      TimesGrows(b, c, n - 1);
      assert false;
    }
    if c > n {
      TimesGrows(b, n, c - 1);
      assert false;
    }
  }

  function Times(a: int, b: int): int { a * b }

  lemma NoSteps(step: nat)
    ensures Times(step, 0) == 0
  {
  }

  lemma OneMoreStep(step: nat, n: nat)
    ensures Times(step, n + 1) == Times(step, n) + step
  {
  }

  lemma RoomForOne(total: nat, step: nat, n: nat)
    requires step > 0 && Times(step, n) < total
    ensures n < CeilDiv(total, step)
  {
  }

  /** Commands after the first went out only once a whole wait had missed every target. */
  ghost predicate Resent(sent: seq<Sent>, from: nat, targets: set<Basic>) {
    forall i :: from < i < |sent| ==> sent[i].seen.basic !in targets
  }

  /** The order in which stand and forceStand go through their phases. */
  function StandRank(c: Command): nat {
    match c
    case StandUpDown => 0
    case ForceControl => 1
    case Motion => 2
    case SetGait(_) => 3
  }

  function ForceRank(c: Command): nat {
    match c
    case StandUpDown => 0
    case SetGait(_) => 1
    case Motion => 2
    case ForceControl => 3
  }

  /** Commands since `from` come phase by phase, the phases lying between lo and hi. */
  ghost predicate Ranked(sent: seq<Sent>, from: nat, rank: Command -> nat, lo: nat, hi: nat) {
    && (forall i :: from <= i < |sent| ==> lo <= rank(sent[i].command) <= hi)
    && (forall i, j :: from <= i <= j < |sent| ==> rank(sent[i].command) <= rank(sent[j].command))
  }

  lemma RankedJoin(before: seq<Sent>, sent: seq<Sent>, from: nat, rank: Command -> nat, mid: nat, lo: nat, hi: nat)
    requires from <= |before| && before <= sent && lo <= mid <= hi
    requires Ranked(before, from, rank, lo, mid) && Ranked(sent, |before|, rank, mid, hi)
    ensures Ranked(sent, from, rank, lo, hi)
  {
  }

  /** The first command sent since `from`. */
  ghost predicate First(sent: seq<Sent>, from: nat, command: Command) {
    from < |sent| && sent[from].command == command
  }

  /** One more phase of a single command, after phases of lower rank. */
  lemma PhaseJoins(
      before: seq<Sent>, sent: seq<Sent>, from: nat, rank: Command -> nat, c: Command, lo: nat, mid: nat, hi: nat)
    requires from <= |before| && before <= sent && lo <= mid <= rank(c) <= hi
    requires Ranked(before, from, rank, lo, mid) && Only(sent, |before|, c)
    ensures Ranked(sent, from, rank, lo, hi)
    ensures from < |before| ==> First(sent, from, before[from].command)
  {
  }

  ghost predicate Standing(o: Obs) { o.basic in {InitialStand, ForceStand, Stepping} }

  /** Some observation between two points of the script showed the robot on its feet. */
  ghost predicate Stood(script: nat -> Obs, from: nat, to: nat) {
    exists k: nat :: from <= k < to && Standing(script(k))
  }

  lemma StoodLater(
      script: nat -> Obs, from: nat, to: nat, to': nat, before: seq<Sent>, sent: seq<Sent>, first: nat, c: Command)
    requires to <= to' && before <= sent
    ensures Stood(script, from, to) ==> Stood(script, from, to')
    ensures First(before, first, c) ==> First(sent, first, c)
  {
  }

  predicate NeedsRise(b: Basic) { b == LyingDown || b == GoingDown }

  /** What one retried phase adds to the log of commands. */
  ghost predicate Phase(before: seq<Sent>, after: seq<Sent>, command: Command, targets: set<Basic>, limit: nat) {
    && before <= after && |after| <= |before| + limit
    && Only(after, |before|, command)
    && Resent(after, |before|, targets)
  }

  /** Commands since `from` went out between these times. */
  ghost predicate Within(sent: seq<Sent>, from: nat, lo: int, hi: int) {
    forall i :: from <= i < |sent| ==> lo <= sent[i].at <= hi
  }

  method SendSingleCommandAndWait(
      r: Robot, command: Command, targets: set<Basic>, timeout: nat, warmup: nat) returns (ok: bool)
    modifies r
    ensures ok ==> r.last.basic in targets
    ensures ok ==> r.now <= old(r.now) + MAX_ATTEMPTS * (warmup + timeout)
    ensures !ok ==> r.now == old(r.now) + MAX_ATTEMPTS * (warmup + timeout)
    ensures old(r.now) <= r.now && old(r.next) < r.next && |old(r.sent)| < |r.sent|
    ensures Phase(old(r.sent), r.sent, command, targets, MAX_ATTEMPTS)
    ensures r.sent[|old(r.sent)|] == Sent(command, old(r.now) + warmup, old(r.last))
    ensures Look(ok, r.next) == Seek(r.script, old(r.next), Basics(targets), MAX_ATTEMPTS)
  {
    for attempt := 1 to MAX_ATTEMPTS + 1
      invariant r.now == old(r.now) + (attempt - 1) * (warmup + timeout)
      invariant old(r.next) + attempt - 1 == r.next
      invariant Seek(r.script, r.next, Basics(targets), MAX_ATTEMPTS + 1 - attempt)
                == Seek(r.script, old(r.next), Basics(targets), MAX_ATTEMPTS)
      invariant Phase(old(r.sent), r.sent, command, targets, attempt - 1)
      invariant attempt > 1 ==> r.last.basic !in targets && |old(r.sent)| < |r.sent|
      invariant attempt == 1 ==> r.last == old(r.last)
      invariant attempt > 1 ==> r.sent[|old(r.sent)|] == Sent(command, old(r.now) + warmup, old(r.last))
    {
      r.Pass(warmup);
      r.Send(command);
      ok := r.WaitForBasic(targets, timeout);
      if ok { return true; }
    }
    return false;
  }

  /** Attempt n begins after n waits and n + 1 warm-ups, unless the time is over. */
  predicate OnSchedule(overall: nat, resend: nat, n: nat, passed: int)
    requires WARMUP <= overall
  {
    && n <= Attempts(overall, resend)
    && (passed < overall ==> passed == Times(resend + WARMUP, n) + WARMUP && n < Attempts(overall, resend))
    && (passed >= overall ==> n == Attempts(overall, resend))
  }

  /** What a missed attempt leaves: the next one, or the end. */
  lemma NextOnSchedule(overall: nat, resend: nat, n: nat)
    requires 0 < resend && WARMUP <= overall && n < Attempts(overall, resend)
    requires Times(resend + WARMUP, n) + WARMUP < overall
    ensures var passed := Times(resend + WARMUP, n) + WARMUP;
      var missed := passed + Min(resend, overall - passed);
      OnSchedule(overall, resend, n + 1, if missed < overall then missed + WARMUP else missed)
  {
    hide CeilDiv;
    OneMoreStep(resend + WARMUP, n);
    var room, step := overall - WARMUP, resend + WARMUP;
    if Times(step, n + 1) >= room {
      CeilDivIs(room, step, n + 1);
    } else {
      RoomForOne(room, step, n + 1);
    }
  }

  lemma StartOnSchedule(overall: nat, resend: nat)
    requires WARMUP <= overall
    ensures OnSchedule(overall, resend, 0, WARMUP)
  {
  }

  lemma ScheduleMeans(overall: nat, resend: nat, n: nat, passed: int)
    requires WARMUP <= overall && OnSchedule(overall, resend, n, passed)
    ensures n <= Attempts(overall, resend) && (passed < overall <==> n < Attempts(overall, resend))
    ensures passed < overall ==> passed == Times(resend + WARMUP, n) + WARMUP
  {
  }

  /** The n looks from k on have missed. */
  ghost predicate Missed(script: nat -> Obs, k: nat, n: nat, w: Want) {
    forall i: nat :: k <= i < k + n ==> !Meets(script(i), w)
  }

  lemma NothingMissed(script: nat -> Obs, k: nat, w: Want)
    ensures Missed(script, k, 0, w)
  {
  }

  lemma OneMoreLook(script: nat -> Obs, k: nat, n: nat, w: Want)
    requires Missed(script, k, n, w)
    ensures if Meets(script(k + n), w) then FirstAt(script, k, w, n) else Missed(script, k, n + 1, w)
  {
  }

  lemma AllMissed(script: nat -> Obs, k: nat, n: nat, w: Want)
    requires Missed(script, k, n, w)
    ensures Seek(script, k, w, n) == Look(false, k + n)
  {
    SeekFinds(script, k, w, n);
  }

  /** The numbers of attempts that the time limits leave. */
  lemma AttemptCounts()
    ensures Attempts(STAND_TRANSITION, STAND_RESEND) == CeilDiv(STAND_TRANSITION, STAND_RESEND) == 4
    ensures Attempts(STOP_MOTION_TIMEOUT, STOP_MOTION_RESEND) == CeilDiv(STOP_MOTION_TIMEOUT, STOP_MOTION_RESEND) == 3
    ensures Attempts(START_MOTION_TIMEOUT, START_MOTION_RESEND) == 3
    ensures CeilDiv(START_MOTION_TIMEOUT, START_MOTION_RESEND) == 3
    ensures Attempts(LIE_STOP_TIMEOUT, LIE_STOP_RESEND) == CeilDiv(LIE_STOP_TIMEOUT, LIE_STOP_RESEND) == 3
    ensures Attempts(LIE_OVERALL, LIE_RESEND) == CeilDiv(LIE_OVERALL, LIE_RESEND) == 4
  {
  }

  method SendToggleCommandWithRetries(r: Robot, command: Command, targets: set<Basic>,
                                      overall: nat, resend: nat, warmup: nat) returns (ok: bool)
    requires 0 < resend && warmup <= overall
    modifies r
    ensures ok ==> r.last.basic in targets && r.now <= old(r.now) + overall
    ensures !ok ==> old(r.now) + overall <= r.now < old(r.now) + overall + WARMUP
    ensures old(r.now) <= r.now && old(r.next) <= r.next && (ok ==> old(r.next) < r.next)
    ensures warmup < overall ==> |old(r.sent)| < |r.sent|
    ensures Phase(old(r.sent), r.sent, command, targets, CeilDiv(overall, resend))
    ensures warmup < overall ==> r.sent[|old(r.sent)|] == Sent(command, old(r.now) + warmup, old(r.last))
    ensures Within(r.sent, |old(r.sent)|, old(r.now), r.now)
    ensures warmup == WARMUP ==>
      Look(ok, r.next) == Seek(r.script, old(r.next), Basics(targets), Attempts(overall, resend))
  {
    NoSteps(resend);
    hide CeilDiv, Attempts, OnSchedule, Times, Seek, Missed, FirstAt;
    if warmup == WARMUP { StartOnSchedule(overall, resend); }
    NothingMissed(r.script, r.next, Basics(targets));
    var deadline := r.now + overall;
    r.Pass(warmup);
    ghost var n: nat := 0;
    while r.now < deadline
      invariant old(r.now) <= r.now < deadline + WARMUP && (n == 0 ==> r.now == old(r.now) + warmup)
      invariant r.now < deadline ==> Times(resend, n) <= r.now - old(r.now)
      invariant n <= CeilDiv(overall, resend)
      invariant n == 0 || |old(r.sent)| < |r.sent|
      invariant old(r.next) <= r.next
      invariant Phase(old(r.sent), r.sent, command, targets, n)
      invariant n > 0 ==> r.last.basic !in targets
      invariant n == 0 ==> r.last == old(r.last) && r.sent == old(r.sent)
      invariant n > 0 ==> r.sent[|old(r.sent)|] == Sent(command, old(r.now) + warmup, old(r.last))
      invariant Within(r.sent, |old(r.sent)|, old(r.now), r.now)
      invariant warmup == WARMUP ==> OnSchedule(overall, resend, n, r.now - old(r.now))
      invariant r.next == old(r.next) + n && Missed(r.script, old(r.next), n, Basics(targets))
      decreases deadline - r.now
    {
      RoomForOne(overall, resend, n);
      ghost var wait0 := r.now - old(r.now);
      r.Send(command);
      var wait := Min(resend, Max(0, deadline - r.now));
      if wait <= 0 { break; }
      ok := r.WaitForBasic(targets, wait);
      if warmup == WARMUP { ScheduleMeans(overall, resend, n, wait0); }
      OneMoreLook(r.script, old(r.next), n, Basics(targets));
      if ok {
        if warmup == WARMUP { SeekFinds(r.script, old(r.next), Basics(targets), Attempts(overall, resend)); }
        return true;
      }
      OneMoreStep(resend, n);
      if warmup == WARMUP { NextOnSchedule(overall, resend, n); }
      n := n + 1;
      if r.now < deadline { r.Pass(WARMUP); }
    }
    if warmup == WARMUP {
      ScheduleMeans(overall, resend, n, r.now - old(r.now));
      AllMissed(r.script, old(r.next), n, Basics(targets));
    }
    return false;
  }

  /** Stand up from lying or going down: both waits of the stand-up phase. */
  method StandUp(r: Robot) returns (ok: bool)
    modifies r
    ensures ok ==> Standing(r.last) && Stood(r.script, old(r.next), r.next)
    ensures old(r.now) <= r.now <= old(r.now) + STAND_TRANSITION + STAND_WAIT
    ensures old(r.next) <= r.next
    ensures old(r.sent) <= r.sent && |old(r.sent)| < |r.sent| <= |old(r.sent)| + 4
    ensures Only(r.sent, |old(r.sent)|, StandUpDown)
    ensures Look(ok, r.next) == StandUpLooks(r.script, old(r.next))
  {
    hide Seek, Attempts, CeilDiv;
    AttemptCounts();
    ok := SendToggleCommandWithRetries(r, StandUpDown, {StandingUp, InitialStand, ForceStand, Stepping},
                                       STAND_TRANSITION, STAND_RESEND, WARMUP);
    if !ok { return false; }
    OneLook(r.script, r.next, ON_FEET);
    ok := r.WaitForBasic({InitialStand, ForceStand, Stepping}, STAND_WAIT);
    assert ok ==> Standing(r.script(r.next - 1));
  }

  /** Warm up, send one command, wait once. */
  method CommandAndWait(r: Robot, command: Command, targets: set<Basic>, timeout: nat) returns (ok: bool)
    modifies r
    ensures ok == (r.last.basic in targets)
    ensures old(r.now) <= r.now <= old(r.now) + WARMUP + timeout
    ensures r.next == old(r.next) + 1 && r.last == r.script(old(r.next))
    ensures |r.sent| == |old(r.sent)| + 1 && old(r.sent) <= r.sent && Only(r.sent, |old(r.sent)|, command)
    ensures Look(ok, r.next) == Seek(r.script, old(r.next), Basics(targets), 1)
  {
    r.Pass(WARMUP);
    r.Send(command);
    ok := r.WaitForBasic(targets, timeout);
  }

  /** From RL mode back to stepping in the walk gait. */
  method BackToWalk(r: Robot) returns (ok: bool)
    modifies r
    ensures old(r.now) <= r.now <= old(r.now) + WARMUP + GAIT_SWITCH_TIMEOUT + STEPPING_ENTRY_TIMEOUT
    ensures old(r.next) < r.next && old(r.sent) <= r.sent
    ensures |r.sent| == |old(r.sent)| + 1 && Only(r.sent, |old(r.sent)|, SetGait(Walk))
    ensures ok ==> r.last.basic == Stepping
    ensures Look(ok, r.next) == ToWalkLooks(r.script, old(r.next))
  {
    r.Pass(WARMUP);
    r.Send(SetGait(Walk));
    ok := r.WaitForGait(Walk, GAIT_SWITCH_TIMEOUT);
    if !ok { return false; }
    ok := r.WaitForBasic({Stepping}, STEPPING_ENTRY_TIMEOUT);
  }

  const RISE_BOUND := 33300

  /** forceStand up to the point where the robot is on its feet; the states it cannot start from are refused. */
  method Rise(r: Robot, first: Basic) returns (ok: bool)
    modifies r
    ensures old(r.now) <= r.now <= old(r.now) + RISE_BOUND && old(r.next) <= r.next
    ensures old(r.sent) <= r.sent && |r.sent| <= |old(r.sent)| + 6 && Only(r.sent, |old(r.sent)|, StandUpDown)
    ensures first !in {SoftEstop, LyingDown, GoingDown} ==>
      r.sent == old(r.sent) && (ok <==> first in {InitialStand, Stepping, RlMode})
    ensures ok && first in {SoftEstop, LyingDown, GoingDown} ==>
      |old(r.sent)| < |r.sent| && Stood(r.script, old(r.next), r.next)
    ensures Look(ok, r.next) == RiseLooks(r.script, old(r.next), first)
  {
    hide Seek, StandUpLooks;
    var state := first;
    if state == SoftEstop {
      ok := SendSingleCommandAndWait(r, StandUpDown, {LyingDown}, SINGLE_TIMEOUT, WARMUP);
      if !ok { return false; }
      state := LyingDown;
    }
    if state != LyingDown && state != GoingDown && state != InitialStand && state != Stepping && state != RlMode {
      return false;
    }
    if state == LyingDown || state == GoingDown {
      ok := StandUp(r);
      if !ok { return false; }
      state := r.BasicState();
    }
    return true;
  }

  /** A robot in motion is told to stop, and read again. */
  method Halt(r: Robot, reading: Basic) returns (ok: bool, state: Basic)
    modifies r
    ensures old(r.now) <= r.now <= old(r.now) + STOP_MOTION_TIMEOUT + (if ok then 0 else WARMUP)
    ensures old(r.next) <= r.next && old(r.sent) <= r.sent && |r.sent| <= |old(r.sent)| + 3
    ensures Only(r.sent, |old(r.sent)|, Motion)
    ensures reading in {RlMode, Stepping} ==> First(r.sent, |old(r.sent)|, Motion)
    ensures reading !in {RlMode, Stepping} ==> ok && r.sent == old(r.sent) && state == reading
    ensures (Look(ok, r.next), state) == HaltLooks(r.script, old(r.next), reading)
  {
    hide Seek, Attempts, CeilDiv;
    AttemptCounts();
    state := reading;
    if state == RlMode || state == Stepping {
      ok := SendToggleCommandWithRetries(r, Motion, {ForceStand, InitialStand},
                                         STOP_MOTION_TIMEOUT, STOP_MOTION_RESEND, WARMUP);
      if !ok { return; }
      state := r.BasicState();
    }
    ok := true;
  }

  /** Out of RL mode and out of stepping, in the order forceStand does it; `state` is the last reading. */
  method LeaveMotion(r: Robot) returns (ok: bool, state: Basic)
    modifies r
    ensures old(r.now) <= r.now <= old(r.now) + 21800 && old(r.next) < r.next
    ensures ok ==> r.now <= old(r.now) + 21400
    ensures old(r.sent) <= r.sent && |r.sent| <= |old(r.sent)| + 4 && Ranked(r.sent, |old(r.sent)|, ForceRank, 1, 2)
    ensures r.script(old(r.next)).basic == RlMode ==> First(r.sent, |old(r.sent)|, SetGait(Walk))
    ensures r.script(old(r.next)).basic == Stepping ==> First(r.sent, |old(r.sent)|, Motion)
    ensures r.script(old(r.next)).basic !in {RlMode, Stepping} ==>
      ok && r.sent == old(r.sent) && state == r.script(old(r.next)).basic
    ensures (Look(ok, r.next), state) == LeaveLooks(r.script, old(r.next))
  {
    hide Seek, ToWalkLooks, HaltLooks;
    state := r.BasicState();
    ghost var from, s0 := |r.sent|, r.sent;
    if state == RlMode {
      ok := BackToWalk(r);
      PhaseJoins(s0, r.sent, from, ForceRank, SetGait(Walk), 1, 1, 1);
      if !ok { return; }
      state := r.BasicState();
    }
    ghost var s1 := r.sent;
    ok, state := Halt(r, state);
    PhaseJoins(s1, r.sent, from, ForceRank, Motion, 1, 1, 2);
  }

  const SETTLE_FORCE_BOUND := 26800

  /** forceStand from any standing or moving state: leave RL mode, stop, switch to force control. */
  method StopAndForce(r: Robot) returns (ok: bool)
    modifies r
    ensures ok ==> r.last.basic == ForceStand
    ensures old(r.now) <= r.now <= old(r.now) + SETTLE_FORCE_BOUND && old(r.next) < r.next
    ensures old(r.sent) <= r.sent && |r.sent| <= |old(r.sent)| + 5 && Ranked(r.sent, |old(r.sent)|, ForceRank, 1, 3)
    ensures r.script(old(r.next)).basic == RlMode ==> First(r.sent, |old(r.sent)|, SetGait(Walk))
    ensures r.script(old(r.next)).basic == Stepping ==> First(r.sent, |old(r.sent)|, Motion)
    ensures r.script(old(r.next)).basic == InitialStand ==> First(r.sent, |old(r.sent)|, ForceControl)
    ensures Look(ok, r.next) == StopAndForceLooks(r.script, old(r.next))
  {
    hide Seek, LeaveLooks, HaltLooks;
    var state;
    ok, state := LeaveMotion(r);
    if !ok { return false; }
    ghost var before := r.sent;
    if state == InitialStand {
      ok := CommandAndWait(r, ForceControl, {ForceStand}, FORCE_STAND_WAIT);
      PhaseJoins(before, r.sent, |old(r.sent)|, ForceRank, ForceControl, 1, 2, 3);
      if !ok { return false; }
    }
    state := r.BasicState();
    return state == ForceStand;
  }

  const FORCE_STAND_BOUND := 60100

  /**
   forceStand. Success has a witness: FORCE_STAND was observed inside the call and
   nothing was observed after it. The call returns within 60.1 seconds and sends
   at most eleven commands, phase by phase; a robot found lying is seen standing
   before it can succeed.
   */
  method ForceStanding(r: Robot) returns (ok: bool)
    modifies r
    ensures ok ==> r.last.basic == ForceStand && old(r.next) < r.next
    ensures old(r.now) <= r.now <= old(r.now) + FORCE_STAND_BOUND
    ensures old(r.sent) <= r.sent && |r.sent| <= |old(r.sent)| + 11 && Ranked(r.sent, |old(r.sent)|, ForceRank, 0, 3)
    ensures ok && r.script(old(r.next)).basic in {SoftEstop, LyingDown, GoingDown} ==>
      Stood(r.script, old(r.next), r.next) && First(r.sent, |old(r.sent)|, StandUpDown)
    ensures r.script(old(r.next)).basic == ForceStand ==> ok && r.sent == old(r.sent) && r.now == old(r.now)
    ensures r.script(old(r.next)).basic == StandingUp || r.script(old(r.next)).basic.OtherBasic? ==>
      !ok && r.sent == old(r.sent)
    ensures Look(ok, r.next) == ForceLooks(r.script, old(r.next))
  {
    hide RiseLooks, StopAndForceLooks;
    var state := r.BasicState();
    if state == ForceStand { return true; }
    ok := Rise(r, state);
    if !ok { return false; }
    ghost var risen := r.sent;
    ok := StopAndForce(r);
    RankedJoin(risen, r.sent, |old(r.sent)|, ForceRank, 1, 0, 3);
  }

  const LIE_BASE := 42900
  const SETTLE_ROUND := 11000

  /**
   The settle loop before the final lie-down. Every STEPPING reading stops the
   motion again and restarts the three seconds, so the loop ends because STEPPING
   is read finitely often: remaining STEPPING readings, then time to the deadline.
   */
  method Settle(r: Robot, ghost bound: nat) returns (end: Settled, ghost rounds: nat)
    requires Ends(r.script, bound)
    modifies r
    ensures rounds <= Max(bound - old(r.next), 0)
    ensures old(r.now) <= r.now <= old(r.now) + SETTLE + LIE_STOP_TIMEOUT + WARMUP + rounds * SETTLE_ROUND
    ensures end.StillStanding? ==>
      old(r.now) + SETTLE <= r.now <= old(r.now) + SETTLE + SETTLE_POLL + rounds * SETTLE_ROUND
    ensures end.StillStanding? ==> Within(r.sent, |old(r.sent)|, old(r.now), r.now - SETTLE)
    ensures end == Down(true) ==> r.last.basic == LyingDown && old(r.next) < r.next
    ensures old(r.next) <= r.next && old(r.sent) <= r.sent
    ensures Only(r.sent, |old(r.sent)|, Motion) && |r.sent| <= |old(r.sent)| + 3 * (rounds + 1)
    ensures (end, r.next) == SettleLooks(r.script, old(r.next), 30, bound)
  {
    hide Seek, Attempts, CeilDiv;
    AttemptCounts();
    var deadline := r.now + SETTLE;
    rounds := 0;
    while r.now < deadline
      invariant old(r.now) <= r.now < deadline + SETTLE_POLL
      invariant deadline <= old(r.now) + SETTLE + rounds * SETTLE_ROUND
      invariant rounds <= Max(bound - old(r.next), 0) && rounds <= r.next - old(r.next)
      invariant old(r.sent) <= r.sent && Only(r.sent, |old(r.sent)|, Motion)
      invariant |r.sent| <= |old(r.sent)| + 3 * rounds
      invariant old(r.now) + SETTLE <= deadline <= r.now + SETTLE
      invariant Within(r.sent, |old(r.sent)|, old(r.now), deadline - SETTLE)
      invariant Max(deadline - r.now, 0) % SETTLE_POLL == 0
      invariant SettleLooks(r.script, r.next, Max(deadline - r.now, 0) / SETTLE_POLL, bound)
                == SettleLooks(r.script, old(r.next), 30, bound)
      decreases Max(bound - r.next, 0), deadline - r.now
    {
      var state := r.BasicState();
      if state == LyingDown { return Down(true), rounds; }
      if state == GoingDown {
        var ok := r.WaitForBasic({LyingDown}, LIE_FINAL_WAIT);
        return Down(ok), rounds;
      }
      if state == Stepping {
        assert r.next - 1 < bound;
        var ok := SendToggleCommandWithRetries(r, Motion, {ForceStand, InitialStand},
                                               LIE_STOP_TIMEOUT, LIE_STOP_RESEND, WARMUP);
        if !ok { return StuckStepping, rounds; }
        deadline := r.now + SETTLE;
        rounds := rounds + 1;
      }
      r.Pass(SETTLE_POLL);
    }
    return StillStanding, rounds;
  }

  /** Neither of the next two looks finds the robot stepping or standing. */
  predicate LiesAtOnce(script: nat -> Obs, k: nat) {
    script(k).basic != Stepping && script(k + 1).basic !in {ForceStand, InitialStand}
  }

  /**
   The first command down, when it follows a look that found the robot standing,
   goes out three seconds or more after the call began and after every stop.
   */
  ghost predicate SettledFirst(sent: seq<Sent>, from: nat, since: int) {
    forall i :: from <= i < |sent| && sent[i].command == StandUpDown && Only(sent[..i], from, Motion)
                && sent[i].seen.basic in {ForceStand, InitialStand} ==>
      sent[i].at >= since + SETTLE && Within(sent[..i], from, since, sent[i].at - SETTLE)
  }

  lemma DownSettles(before: seq<Sent>, sent: seq<Sent>, from: nat, since: int)
    requires from <= |before| < |sent| && before <= sent && Only(before, from, Motion)
    requires Only(sent, |before|, StandUpDown)
    requires sent[|before|].seen.basic in {ForceStand, InitialStand} ==>
      sent[|before|].at >= since + SETTLE && Within(before, from, since, sent[|before|].at - SETTLE)
    ensures SettledFirst(sent, from, since)
  {
    forall i | |before| < i < |sent| ensures !Only(sent[..i], from, Motion) {
      assert sent[..i][|before|].command == StandUpDown;
    }
    assert sent[..|before|] == before;
  }

  lemma NothingSettles(sent: seq<Sent>, from: nat, since: int)
    requires Only(sent, from, Motion)
    ensures SettledFirst(sent, from, since)
  {
  }

  /** A stepping robot is told to stop, any other is left alone. */
  method StopStepping(r: Robot) returns (ok: bool)
    modifies r
    ensures old(r.now) <= r.now <= old(r.now) + LIE_STOP_TIMEOUT + (if ok then 0 else WARMUP) && old(r.next) < r.next
    ensures old(r.sent) <= r.sent && |r.sent| <= |old(r.sent)| + 3 && Only(r.sent, |old(r.sent)|, Motion)
    ensures Within(r.sent, |old(r.sent)|, old(r.now), r.now)
    ensures r.script(old(r.next)).basic == Stepping ==> First(r.sent, |old(r.sent)|, Motion)
    ensures r.script(old(r.next)).basic != Stepping ==> ok && r.sent == old(r.sent) && r.next == old(r.next) + 1
    ensures Look(ok, r.next) ==
      if r.script(old(r.next)).basic == Stepping then Seek(r.script, old(r.next) + 1, STOPPED, 3)
      else Look(true, old(r.next) + 1)
  {
    hide Seek, Attempts, CeilDiv;
    AttemptCounts();
    var state := r.BasicState();
    ok := true;
    if state == Stepping {
      ok := SendToggleCommandWithRetries(r, Motion, {ForceStand, InitialStand},
                                         LIE_STOP_TIMEOUT, LIE_STOP_RESEND, WARMUP);
    }
  }

  /** The command down, and the wait until the robot lies. */
  method GoDown(r: Robot) returns (ok: bool)
    modifies r
    ensures ok ==> r.last.basic == LyingDown
    ensures old(r.now) <= r.now <= old(r.now) + LIE_OVERALL + LIE_FINAL_WAIT && old(r.next) < r.next
    ensures old(r.sent) <= r.sent && |old(r.sent)| < |r.sent| <= |old(r.sent)| + 4
    ensures Only(r.sent, |old(r.sent)|, StandUpDown)
    ensures r.sent[|old(r.sent)|] == Sent(StandUpDown, old(r.now) + WARMUP, old(r.last))
    ensures Look(ok, r.next) == GoDownLooks(r.script, old(r.next))
  {
    hide Seek, Attempts, CeilDiv;
    AttemptCounts();
    ok := SendToggleCommandWithRetries(r, StandUpDown, {GoingDown, LyingDown}, LIE_OVERALL, LIE_RESEND, WARMUP);
    if ok {
      OneLook(r.script, r.next, LYING);
      ok := r.WaitForBasic({LyingDown}, LIE_FINAL_WAIT);
    } else {
      SeekFinds(r.script, old(r.next), Basics({GoingDown, LyingDown}), 4);
    }
  }

  /** lieDown once the robot is not in RL mode: stop stepping, settle, send it down. */
  method StopAndLie(r: Robot, ghost bound: nat) returns (ok: bool, ghost rounds: nat)
    requires Ends(r.script, bound)
    modifies r
    ensures ok ==> r.last.basic == LyingDown && old(r.next) < r.next
    ensures old(r.now) <= r.now <= old(r.now) + 30100 + rounds * SETTLE_ROUND
    ensures rounds <= Max(bound - old(r.next), 0)
    ensures old(r.sent) <= r.sent && |r.sent| <= |old(r.sent)| + 10 + 3 * rounds
    ensures r.script(old(r.next)).basic == Stepping ==> First(r.sent, |old(r.sent)|, Motion)
    ensures LiesAtOnce(r.script, old(r.next)) ==> First(r.sent, |old(r.sent)|, StandUpDown)
    ensures SettledFirst(r.sent, |old(r.sent)|, old(r.now))
    ensures Look(ok, r.next) == StopAndLieLooks(r.script, old(r.next), bound)
  {
    hide SettledFirst, Seek, SettleLooks, GoDownLooks;
    rounds := 0;
    ok := StopStepping(r);
    if !ok {
      NothingSettles(r.sent, |old(r.sent)|, old(r.now));
      return false, rounds;
    }
    var state := r.BasicState();
    if state == ForceStand || state == InitialStand {
      var end;
      end, rounds := Settle(r, bound);
      NothingSettles(r.sent, |old(r.sent)|, old(r.now));
      if end == StuckStepping { return false, rounds; }
      if end.Down? { return end.ok, rounds; }
    }
    ghost var before := r.sent;
    ok := GoDown(r);
    DownSettles(before, r.sent, |old(r.sent)|, old(r.now));
  }

  /**
   lieDown. Success has a witness: LYING_DOWN was observed inside the call and
   nothing was observed after it. It always returns, within 42.9 seconds plus
   11 seconds for each STEPPING reading of the settle loop, given that STEPPING
   is not read for ever. A robot already lying or going down gets no command.
   */
  method LieDown(r: Robot, ghost bound: nat) returns (ok: bool, ghost rounds: nat)
    requires Ends(r.script, bound)
    modifies r
    ensures ok ==> r.last.basic == LyingDown && old(r.next) < r.next
    ensures old(r.now) <= r.now <= old(r.now) + LIE_BASE + rounds * SETTLE_ROUND
    ensures rounds <= Max(bound - old(r.next), 0)
    ensures old(r.sent) <= r.sent && |r.sent| <= |old(r.sent)| + 12 + 3 * rounds
    ensures r.script(old(r.next)).basic == LyingDown ==> ok
    ensures r.script(old(r.next)).basic in {LyingDown, GoingDown} ==> r.sent == old(r.sent)
    ensures r.script(old(r.next)).basic in {SoftEstop, RlMode} ==> First(r.sent, |old(r.sent)|, StandUpDown)
    ensures SettledFirst(r.sent, |old(r.sent)|, old(r.now))
    ensures Look(ok, r.next) == LieLooks(r.script, old(r.next), bound)
  {
    hide Seek, StopAndLieLooks;
    rounds := 0;
    var state := r.BasicState();
    if state == LyingDown { return true, rounds; }
    if state == GoingDown {
      OneLook(r.script, r.next, LYING);
      ok := r.WaitForBasic({LyingDown}, GOING_DOWN_WAIT);
      return ok, rounds;
    }
    if state == SoftEstop {
      ok := SendSingleCommandAndWait(r, StandUpDown, {LyingDown}, SINGLE_TIMEOUT, WARMUP);
      return ok, rounds;
    }
    if state == RlMode {
      ok := SendSingleCommandAndWait(r, StandUpDown, {ForceStand, InitialStand, Stepping, GoingDown, LyingDown},
                                     LIE_TRANSITION, WARMUP);
      if !ok { return false, rounds; }
      state := r.BasicState();
      if state == LyingDown { return true, rounds; }
      if state == GoingDown {
        OneLook(r.script, r.next, LYING);
        ok := r.WaitForBasic({LyingDown}, LIE_FINAL_WAIT);
        return ok, rounds;
      }
    }
    ok, rounds := StopAndLie(r, bound);
  }

  predicate StandTarget(g: Gait) { g == LWalk || g == Mountain || g == Silent || g == LStair }

  const STAND_BOUND := 59100

  /** RL_MODE and the target gait were seen at once, or by the last two looks of the call. */
  ghost predicate StandWitness(r: Robot, from: nat, target: Gait)
    reads r
  {
    || (from < r.next && r.last.basic == RlMode && r.last.gait == target)
    || (from + 1 < r.next && r.script(r.next - 2).basic == RlMode && r.script(r.next - 1).gait == target)
  }

  /** Force control from the initial stand, nothing when already beyond it, refusal otherwise. */
  method EnterForceStand(r: Robot) returns (ok: bool)
    modifies r
    ensures old(r.now) <= r.now <= old(r.now) + WARMUP + FORCE_STAND_WAIT && old(r.next) < r.next
    ensures old(r.sent) <= r.sent && |r.sent| <= |old(r.sent)| + 1 && Only(r.sent, |old(r.sent)|, ForceControl)
    ensures |r.sent| > |old(r.sent)| <==> r.script(old(r.next)).basic == InitialStand
    ensures ok <==>
      || r.script(old(r.next)).basic in {ForceStand, RlMode, Stepping}
      || (r.script(old(r.next)).basic == InitialStand && r.script(old(r.next) + 1).basic == ForceStand)
    ensures Look(ok, r.next) == EnterForceLooks(r.script, old(r.next))
  {
    hide Seek;
    var state := r.BasicState();
    if state == InitialStand {
      ok := CommandAndWait(r, ForceControl, {ForceStand}, FORCE_STAND_WAIT);
    } else {
      ok := state == ForceStand || state == RlMode || state == Stepping;
    }
  }

  /** From FORCE_STAND into stepping, then the two looks that follow. */
  method StartStepping(r: Robot) returns (ok: bool)
    modifies r
    ensures old(r.now) <= r.now <= old(r.now) + START_MOTION_TIMEOUT + (if ok then 0 else WARMUP)
    ensures old(r.next) <= r.next && old(r.sent) <= r.sent && |r.sent| <= |old(r.sent)| + 3
    ensures First(r.sent, |old(r.sent)|, Motion) && Only(r.sent, |old(r.sent)|, Motion)
    ensures var a := Seek(r.script, old(r.next), Basics({Stepping}), 3);
      Look(ok, r.next) == if a.ok then Look(true, a.next + 2) else a
  {
    hide Attempts, CeilDiv, Seek;
    AttemptCounts();
    ok := SendToggleCommandWithRetries(r, Motion, {Stepping}, START_MOTION_TIMEOUT, START_MOTION_RESEND, WARMUP);
    if ok {
      var state := r.BasicState();
      var gait := r.GaitState();
    }
  }

  /**
   The last phase of stand. Without a command it succeeds only when two successive
   looks find RL mode and the target gait; otherwise the last command is the
   target gait and the state it asks for is then seen in one look.
   */
  method EnterTargetGait(r: Robot, target: Gait) returns (ok: bool)
    modifies r
    ensures old(r.now) <= r.now <= old(r.now) + START_MOTION_TIMEOUT + WARMUP + TARGET_GAIT_TIMEOUT
    ensures old(r.next) <= r.next && old(r.sent) <= r.sent && |r.sent| <= |old(r.sent)| + 4
    ensures Ranked(r.sent, |old(r.sent)|, StandRank, 2, 3)
    ensures ok ==> StandWitness(r, old(r.next), target)
    ensures ok && |r.sent| > |old(r.sent)| ==>
      r.last.basic == RlMode && r.last.gait == target && r.sent[|r.sent| - 1].command == SetGait(target)
    ensures r.script(old(r.next)).basic == ForceStand ==> First(r.sent, |old(r.sent)|, Motion)
    ensures r.script(old(r.next)).basic != ForceStand ==> Only(r.sent, |old(r.sent)|, SetGait(target))
    ensures Look(ok, r.next) == TargetLooks(r.script, old(r.next), target)
  {
    hide Seek;
    var state := r.BasicState();
    var gait := r.GaitState();
    if state == RlMode && gait == target { return true; }
    ghost var from, s0 := |r.sent|, r.sent;
    if state == ForceStand {
      ok := StartStepping(r);
      PhaseJoins(s0, r.sent, from, StandRank, Motion, 2, 2, 2);
      if !ok { return false; }
    }
    ok := SwitchGait(r, from, target);
  }

  method SwitchGait(r: Robot, ghost from: nat, target: Gait) returns (ok: bool)
    requires from <= |r.sent| && Ranked(r.sent, from, StandRank, 2, 2)
    modifies r
    ensures old(r.now) <= r.now <= old(r.now) + WARMUP + TARGET_GAIT_TIMEOUT && old(r.next) < r.next
    ensures |r.sent| == |old(r.sent)| + 1 && old(r.sent) <= r.sent && Only(r.sent, |old(r.sent)|, SetGait(target))
    ensures Ranked(r.sent, from, StandRank, 2, 3)
    ensures ok == (r.last.basic == RlMode && r.last.gait == target)
    ensures Look(ok, r.next) == Seek(r.script, old(r.next), Both(RlMode, target), 1)
  {
    r.Pass(WARMUP);
    r.Send(SetGait(target));
    PhaseJoins(old(r.sent), r.sent, from, StandRank, SetGait(target), 2, 2, 3);
    ok := r.WaitForState((o: Obs) => o.basic == RlMode && o.gait == target, TARGET_GAIT_TIMEOUT);
  }

  /** The first phase of stand: out of a soft stop, onto the feet; other states are refused. */
  method GetUp(r: Robot, first: Basic) returns (ok: bool)
    modifies r
    ensures old(r.now) <= r.now <= old(r.now) + RISE_BOUND && old(r.next) <= r.next
    ensures old(r.sent) <= r.sent && |r.sent| <= |old(r.sent)| + 6 && Only(r.sent, |old(r.sent)|, StandUpDown)
    ensures first !in {SoftEstop, LyingDown, GoingDown} ==>
      |r.sent| == |old(r.sent)| && (ok <==> first in {InitialStand, ForceStand, Stepping, RlMode})
    ensures ok && NeedsRise(first) ==> |old(r.sent)| < |r.sent| && Stood(r.script, old(r.next), r.next)
    ensures Look(ok, r.next) == GetUpLooks(r.script, old(r.next), first)
  {
    hide Seek, StandUpLooks;
    var state := first;
    if state == SoftEstop {
      ok := SendSingleCommandAndWait(r, StandUpDown, {LyingDown}, SINGLE_TIMEOUT, WARMUP);
      if !ok { return false; }
      state := r.BasicState();
    }
    if state == LyingDown || state == GoingDown {
      ok := StandUp(r);
    } else {
      ok := state == InitialStand || state == ForceStand || state == Stepping || state == RlMode;
    }
  }

  lemma RankedWidens(sent: seq<Sent>, from: nat)
    requires Ranked(sent, from, StandRank, 0, 1)
    ensures Ranked(sent, from, StandRank, 0, 3)
  {
  }

  /** The first two phases of stand. */
  method GetUpAndForce(r: Robot, first: Basic) returns (ok: bool)
    modifies r
    ensures old(r.now) <= r.now <= old(r.now) + RISE_BOUND + WARMUP + FORCE_STAND_WAIT && old(r.next) <= r.next
    ensures old(r.sent) <= r.sent && |r.sent| <= |old(r.sent)| + 7 && Ranked(r.sent, |old(r.sent)|, StandRank, 0, 1)
    ensures ok && NeedsRise(first) ==> Stood(r.script, old(r.next), r.next) && First(r.sent, |old(r.sent)|, StandUpDown)
    ensures first !in {SoftEstop, LyingDown, GoingDown, InitialStand, ForceStand, Stepping, RlMode} ==>
      !ok && |r.sent| == |old(r.sent)|
    ensures var a := GetUpLooks(r.script, old(r.next), first);
      Look(ok, r.next) == if a.ok then EnterForceLooks(r.script, a.next) else a
  {
    hide GetUpLooks, EnterForceLooks;
    ok := GetUp(r, first);
    if !ok { return false; }
    ghost var before := r.sent;
    ok := EnterForceStand(r);
    PhaseJoins(before, r.sent, |old(r.sent)|, StandRank, ForceControl, 0, 0, 1);
  }

  /** The first readings of stand, and its first two phases. */
  method ToForceStand(r: Robot) returns (ok: bool)
    modifies r
    ensures old(r.now) <= r.now <= old(r.now) + RISE_BOUND + WARMUP + FORCE_STAND_WAIT && old(r.next) <= r.next
    ensures old(r.sent) <= r.sent && |r.sent| <= |old(r.sent)| + 7 && Ranked(r.sent, |old(r.sent)|, StandRank, 0, 1)
    ensures Ranked(r.sent, |old(r.sent)|, StandRank, 0, 3)
    ensures ok && NeedsRise(r.script(old(r.next)).basic) ==>
      Stood(r.script, old(r.next), r.next) && First(r.sent, |old(r.sent)|, StandUpDown)
    ensures r.script(old(r.next)).basic == StandingUp ==> !ok && |r.sent| == |old(r.sent)|
    ensures var a := GetUpLooks(r.script, old(r.next) + 2, r.script(old(r.next)).basic);
      Look(ok, r.next) == if a.ok then EnterForceLooks(r.script, a.next) else a
  {
    hide Ranked, First, GetUpLooks, EnterForceLooks;
    var state := r.BasicState();
    var gait := r.GaitState();
    ok := GetUpAndForce(r, state);
    RankedWidens(r.sent, |old(r.sent)|);
  }

  /**
   stand, for every robot behaviour: it returns within 59.1 seconds, sends at most
   eleven commands, phase by phase, none at all for an unsupported gait, and
   succeeds only with a witness for RL mode and for the target gait. A robot found
   lying is commanded up and seen on its feet before that.
   */
  method Stand(r: Robot, target: Gait) returns (ok: bool)
    modifies r
    ensures !StandTarget(target) ==> !ok && r.sent == old(r.sent) && r.now == old(r.now)
    ensures ok ==> StandWitness(r, old(r.next), target)
    ensures old(r.now) <= r.now <= old(r.now) + STAND_BOUND
    ensures old(r.sent) <= r.sent && |r.sent| <= |old(r.sent)| + 11 && Ranked(r.sent, |old(r.sent)|, StandRank, 0, 3)
    ensures ok && NeedsRise(r.script(old(r.next)).basic) ==>
      Stood(r.script, old(r.next), r.next) && First(r.sent, |old(r.sent)|, StandUpDown)
    ensures r.script(old(r.next)).basic == StandingUp ==> !ok && |r.sent| == |old(r.sent)|
    ensures StandTarget(target) ==> Look(ok, r.next) == StandLooks(r.script, old(r.next), target)
  {
    if !StandTarget(target) { return false; }
    hide Ranked, Stood, First, GetUpLooks, EnterForceLooks, TargetLooks;
    ok := ToForceStand(r);
    if !ok { return false; }
    ghost var before, looked := r.sent, r.next;
    ok := EnterTargetGait(r, target);
    RankedJoin(before, r.sent, |old(r.sent)|, StandRank, 1, 0, 3);
    StoodLater(r.script, old(r.next), looked, r.next, before, r.sent, |old(r.sent)|, StandUpDown);
  }
}
