/** The navigation gait switch of the X30 bridge against the adversarial robot. */
module X30Gait {
  import opened Prelude
  import opened X30Robot
  import opened X30Executor
  import opened X30Looks

  const SWITCH_TIMEOUT := 8000
  const SLOW_SWITCH_TIMEOUT := 12000
  const STATE_WAIT := 4000
  const MOTION_RETRY := 1500
  const GAIT_BOUND := 20400

  predicate Supported(g: Gait) { !g.OtherGait? }

  predicate RlGait(g: Gait) { g == LWalk || g == Mountain || g == Silent || g == LStair }

  predicate CrawlCompatible(g: Gait) { g == Walk || g == Slope }

  predicate Refused(o: Obs, g: Gait) {
    || !o.connected
    || (o.crawling && !CrawlCompatible(g))
    || o.basic !in {RlMode, Stepping, ForceStand}
  }

  function Expected(g: Gait): Basic { if RlGait(g) then RlMode else Stepping }

  predicate Reached(o: Obs, g: Gait) { o.basic == Expected(g) && o.gait == g }

  /** How many commands since `from` are the motion toggle. */
  function Motions(sent: seq<Sent>, from: nat): nat
    decreases |sent|
  {
    if |sent| <= from then 0
    else Motions(sent[..|sent| - 1], from) + if sent[|sent| - 1].command == Motion then 1 else 0
  }

  lemma MotionsAppend(sent: seq<Sent>, from: nat, s: Sent)
    requires from <= |sent|
    ensures Motions(sent + [s], from) == Motions(sent, from) + if s.command == Motion then 1 else 0
  {
  }

  lemma DisciplinedAppend(sent: seq<Sent>, from: nat, s: Sent, g: Gait)
    requires Disciplined(sent, from, g)
    requires (s.command == Motion && s.seen.basic == ForceStand) || s.command == SetGait(g)
    ensures Disciplined(sent + [s], from, g)
  {
  }

  /** Every motion toggle went out right after a look that read FORCE_STAND; the rest is the gait itself. */
  ghost predicate Disciplined(sent: seq<Sent>, from: nat, g: Gait) {
    forall i :: from <= i < |sent| ==>
      || (sent[i].command == Motion && sent[i].seen.basic == ForceStand)
      || sent[i].command == SetGait(g)
  }

  // ---------- The switch, told on the looks ----------

  ghost function FinishLooks(script: nat -> Obs, k: nat, g: Gait): Look {
    if RlGait(g) then Seek(script, k, Both(RlMode, g), 1)
    else
      var a := Seek(script, k, InGait(g), 1);
      if !a.ok then a else Seek(script, a.next, Both(Stepping, g), 6)
  }

  ghost function SwitchLooks(script: nat -> Obs, k: nat, g: Gait, fromForceStand: bool): Look {
    if !fromForceStand then FinishLooks(script, k, g)
    else
      var a := Seek(script, k, Basics({Stepping}), 6);
      if !a.ok then a
      else if !RlGait(g) && script(a.next).gait == g then Look(true, a.next + 1)
      else FinishLooks(script, a.next + 1, g)
  }

  /** setNavigationGait for a supported gait. */
  ghost function NavigationLooks(script: nat -> Obs, k: nat, g: Gait): Look {
    if Refused(script(k), g) then Look(false, k + 1)
    else if Reached(script(k), g) then Look(true, k + 1)
    else SwitchLooks(script, k + 1, g, script(k).basic == ForceStand)
  }

  /**
   From FORCE_STAND an RL gait is reached by a robot that starts to step within six
   looks, three at its own pace and three after a command, and then takes the gait.
   */
  lemma ForceStandReachesRl(script: nat -> Obs, k: nat, n: nat, g: Gait)
    requires Supported(g) && RlGait(g) && script(k).connected && !script(k).crawling && script(k).basic == ForceStand
    requires n < 6 && FirstAt(script, k + 1, Basics({Stepping}), n) && Reached(script(k + n + 3), g)
    ensures NavigationLooks(script, k, g) == Look(true, k + n + 4)
  {
    SeekFinds(script, k + 1, Basics({Stepping}), 6);
  }

  /** From an RL gait a walking gait is reached by a robot that takes it and steps within six looks. */
  lemma RlReachesWalk(script: nat -> Obs, k: nat, n: nat, g: Gait)
    requires Supported(g) && !RlGait(g) && script(k).connected && !script(k).crawling && script(k).basic == RlMode
    requires script(k + 1).gait == g && n < 6 && FirstAt(script, k + 2, Both(Stepping, g), n)
    ensures NavigationLooks(script, k, g) == Look(true, k + n + 3)
  {
    hide Seek, FirstAt;
    OneLook(script, k + 1, InGait(g));
    SeekFinds(script, k + 2, Both(Stepping, g), 6);
  }

  /** A robot just read in FORCE_STAND is told to move. */
  method MoveOn(r: Robot, snap: Obs, ghost from: nat, ghost g: Gait)
    requires from <= |r.sent| && Disciplined(r.sent, from, g) && r.last == snap
    modifies r`sent
    ensures old(r.sent) <= r.sent && Disciplined(r.sent, from, g)
    ensures Motions(r.sent, from) <= Motions(old(r.sent), from) + 1
    ensures snap.basic == ForceStand ==> First(r.sent, |old(r.sent)|, Motion)
  {
    if snap.basic == ForceStand {
      hide Motions, Disciplined;
      MotionsAppend(r.sent, from, Sent(Motion, r.now, r.last));
      DisciplinedAppend(r.sent, from, Sent(Motion, r.now, r.last), g);
      r.Send(Motion);
    }
  }

  /**
   Start the motion from FORCE_STAND, retrying until a look or a wait finds the
   wanted state or four seconds are over. `from` and `g` are the caller's.
   */
  method StartMotion(r: Robot, want: Obs -> bool, ghost w: Want, ghost from: nat, ghost g: Gait) returns (ok: bool)
    requires forall o :: want(o) <==> Meets(o, w)
    requires from <= |r.sent| && Disciplined(r.sent, from, g)
    modifies r
    ensures ok ==> old(r.next) < r.next && want(r.last) && r.last == r.script(r.next - 1)
    ensures old(r.now) <= r.now <= old(r.now) + STATE_WAIT && old(r.next) <= r.next
    ensures !ok ==> r.now == old(r.now) + STATE_WAIT
    ensures old(r.sent) <= r.sent && Disciplined(r.sent, from, g)
    ensures Motions(r.sent, from) <= Motions(old(r.sent), from) + 3
    ensures Look(ok, r.next) == Seek(r.script, old(r.next), w, 6)
    ensures r.script(old(r.next)).basic == ForceStand && !want(r.script(old(r.next))) ==>
      First(r.sent, |old(r.sent)|, Motion)
  {
    hide Seek, Missed, FirstAt, Motions, Disciplined;
    var deadline := r.now + STATE_WAIT;
    NothingMissed(r.script, r.next, w);
    ghost var n: nat := 0;
    while r.now < deadline
      invariant r.now == old(r.now) + Min(n * MOTION_RETRY, STATE_WAIT) && old(r.next) <= r.next && n <= 3
      invariant old(r.sent) <= r.sent && Disciplined(r.sent, from, g)
      invariant Motions(r.sent, from) <= Motions(old(r.sent), from) + n
      invariant if n == 0 then r.sent == old(r.sent)
        else r.script(old(r.next)).basic == ForceStand ==> First(r.sent, |old(r.sent)|, Motion)
      invariant r.next == old(r.next) + 2 * n && Missed(r.script, old(r.next), 2 * n, w)
      decreases deadline - r.now
    {
      OneMoreLook(r.script, old(r.next), 2 * n, w);
      SeekFinds(r.script, old(r.next), w, 6);
      var snap := r.Snapshot();
      if want(snap) { return true; }
      OneMoreLook(r.script, old(r.next), 2 * n + 1, w);
      MoveOn(r, snap, from, g);
      var remaining := deadline - r.now;
      if remaining <= 0 { break; }
      ok := r.WaitForState(want, Min(MOTION_RETRY, remaining));
      if ok { return true; }
      n := n + 1;
    }
    AllMissed(r.script, old(r.next), 6, w);
    return false;
  }

  /** Send the gait and wait for the state it leads to. */
  method FinishSwitch(r: Robot, g: Gait, ghost from: nat) returns (ok: bool)
    requires from <= |r.sent| && Disciplined(r.sent, from, g)
    modifies r
    ensures ok ==> Reached(r.last, g) && old(r.next) < r.next
    ensures old(r.now) <= r.now <= old(r.now) + SLOW_SWITCH_TIMEOUT + STATE_WAIT && old(r.next) < r.next
    ensures old(r.sent) <= r.sent && |old(r.sent)| < |r.sent| && r.sent[|old(r.sent)|].command == SetGait(g)
    ensures Disciplined(r.sent, from, g)
    ensures Motions(r.sent, from) <= Motions(old(r.sent), from) + 3
    ensures Look(ok, r.next) == FinishLooks(r.script, old(r.next), g)
  {
    hide Seek, Motions, Disciplined;
    OneLook(r.script, r.next, Both(RlMode, g));
    OneLook(r.script, r.next, InGait(g));
    MotionsAppend(r.sent, from, Sent(SetGait(g), r.now, r.last));
    DisciplinedAppend(r.sent, from, Sent(SetGait(g), r.now, r.last), g);
    r.Send(SetGait(g));
    if RlGait(g) {
      ok := r.WaitForState((o: Obs) => o.basic == RlMode && o.gait == g, SWITCH_TIMEOUT);
    } else {
      ok := r.WaitForGait(g, SLOW_SWITCH_TIMEOUT);
      if !ok { return false; }
      ok := StartMotion(r, (o: Obs) => o.basic == Stepping && o.gait == g, Both(Stepping, g), from, g);
    }
  }

  lemma NothingSent(sent: seq<Sent>, g: Gait)
    ensures Disciplined(sent, |sent|, g) && Motions(sent, |sent|) == 0
  {
  }

  /** The last look found the gait reached, or STEPPING and then the gait were seen by two successive looks. */
  ghost predicate GaitWitness(r: Robot, from: nat, g: Gait)
    reads r
  {
    || (from < r.next && Reached(r.last, g))
    || (from + 1 < r.next && r.script(r.next - 2).basic == Stepping && r.script(r.next - 1).gait == g && !RlGait(g))
  }

  /** Out of FORCE_STAND into motion, and a look at the gait found there; None when the robot does not move. */
  method LeaveForceStand(r: Robot, g: Gait, ghost from: nat) returns (again: Option<Obs>)
    requires from <= |r.sent| && Disciplined(r.sent, from, g)
    modifies r
    ensures old(r.now) <= r.now <= old(r.now) + STATE_WAIT && old(r.next) <= r.next
    ensures old(r.sent) <= r.sent && Disciplined(r.sent, from, g)
    ensures Motions(r.sent, from) <= Motions(old(r.sent), from) + 3
    ensures var a := Seek(r.script, old(r.next), Basics({Stepping}), 6);
      if !a.ok then again == None && r.next == a.next
      else again == Some(r.script(a.next)) && r.next == a.next + 1
    ensures again.Some? ==>
      again.value == r.last && old(r.next) + 1 < r.next && r.script(r.next - 2).basic == Stepping
    ensures r.script(old(r.next)).basic == ForceStand ==> First(r.sent, |old(r.sent)|, Motion)
  {
    hide Motions, Disciplined, Seek;
    var ok := StartMotion(r, (o: Obs) => o.basic == Stepping, Basics({Stepping}), from, g);
    if !ok { return None; }
    var snap := r.Snapshot();
    again := Some(snap);
  }

  /** The last look found the gait, an RL gait in RL mode; with any other the robot stepped then or one look before. */
  ghost predicate SeenMoving(r: Robot, g: Gait)
    reads r
  {
    && r.last.gait == g
    && if g in {LWalk, Mountain, Silent, LStair} then r.last.basic == RlMode
       else r.last.basic == Stepping || (1 < r.next && r.script(r.next - 2).basic == Stepping)
  }

  /** The switch itself: out of FORCE_STAND into motion first, then the gait. */
  method SwitchFrom(r: Robot, g: Gait, fromForceStand: bool) returns (ok: bool)
    modifies r
    ensures old(r.now) <= r.now <= old(r.now) + GAIT_BOUND && old(r.next) <= r.next
    ensures old(r.sent) <= r.sent && Disciplined(r.sent, |old(r.sent)|, g) && Motions(r.sent, |old(r.sent)|) <= 6
    ensures ok ==> GaitWitness(r, old(r.next), g) && SeenMoving(r, g)
    ensures ok && RlGait(g) ==> SetGait(g) in Commands(r.sent, |old(r.sent)|)
    ensures Look(ok, r.next) == SwitchLooks(r.script, old(r.next), g, fromForceStand)
    ensures !fromForceStand ==> First(r.sent, |old(r.sent)|, SetGait(g))
    ensures fromForceStand && r.script(old(r.next)).basic == ForceStand ==> First(r.sent, |old(r.sent)|, Motion)
  {
    hide Motions, Disciplined, Seek, FinishLooks, Commands;
    ghost var from := |r.sent|;
    NothingSent(r.sent, g);
    r.Pass(WARMUP);
    if fromForceStand {
      var again := LeaveForceStand(r, g, from);
      if again == None { return false; }
      if !RlGait(g) && again.value.gait == g { return true; }
    }
    ghost var before := r.sent;
    ok := FinishSwitch(r, g, from);
    CommandIn(r.sent, from, |before|);
  }

  /**
   setNavigationGait, for every robot behaviour: it returns within 20.4 seconds,
   sends at most six motion toggles, each right after a look that read FORCE_STAND,
   and otherwise only the requested gait; success has a witness; a refused request
   sends nothing and takes no time.
   */
  method SetNavigationGait(r: Robot, g: Gait) returns (ok: bool)
    modifies r
    ensures old(r.now) <= r.now <= old(r.now) + GAIT_BOUND
    ensures old(r.sent) <= r.sent && Disciplined(r.sent, |old(r.sent)|, g) && Motions(r.sent, |old(r.sent)|) <= 6
    ensures ok ==> GaitWitness(r, old(r.next), g)
    ensures ok ==> SeenMoving(r, g)
    ensures var o := r.script(old(r.next));
      g.OtherGait? || !o.connected || (o.crawling && g != Walk && g != Slope)
      || (o.basic != RlMode && o.basic != Stepping && o.basic != ForceStand) ==>
        !ok && |r.sent| == |old(r.sent)| && r.now == old(r.now)
    ensures var o := r.script(old(r.next));
      !g.OtherGait? && o.connected && (o.crawling ==> g == Walk || g == Slope) && o.gait == g
      && (if g in {LWalk, Mountain, Silent, LStair} then o.basic == RlMode else o.basic == Stepping) ==>
        ok && |r.sent| == |old(r.sent)| && r.now == old(r.now)
    ensures ok && RlGait(g) && !Reached(r.script(old(r.next)), g) ==> SetGait(g) in Commands(r.sent, |old(r.sent)|)
    ensures Supported(g) ==> Look(ok, r.next) == NavigationLooks(r.script, old(r.next), g)
    ensures var o := r.script(old(r.next));
      Supported(g) && !Refused(o, g) && !Reached(o, g) ==>
        && (o.basic != ForceStand ==> First(r.sent, |old(r.sent)|, SetGait(g)))
        && (o.basic == r.script(old(r.next) + 1).basic == ForceStand ==> First(r.sent, |old(r.sent)|, Motion))
  {
    hide SwitchLooks;
    NothingSent(r.sent, g);
    if !Supported(g) { return false; }
    var snap := r.Snapshot();
    if !snap.connected { return false; }
    if snap.crawling && !CrawlCompatible(g) { return false; }
    var fromForceStand := snap.basic == ForceStand;
    if snap.basic != RlMode && snap.basic != Stepping && !fromForceStand { return false; }
    if snap.gait == g && snap.basic == Expected(g) { return true; }
    ok := SwitchFrom(r, g, fromForceStand);
  }

  lemma CommandIn(sent: seq<Sent>, from: nat, i: nat)
    requires from <= i < |sent|
    ensures sent[i].command in Commands(sent, from)
  {
  }

  ghost function Commands(sent: seq<Sent>, from: nat): set<Command> {
    set i | from <= i < |sent| :: sent[i].command
  }
}
