/**
 What the X30 sequences answer, told on the looks alone: `script(k)` is what look k
 finds, and every call is a walk along the script. The executor is proved to take
 exactly these walks; the lemmas say when a walk ends well.
 */
module X30Looks {
  import opened Prelude
  import opened X30Robot

  /** The answer of a phase, and the look that the next phase starts with. */
  datatype Look = Look(ok: bool, next: nat)

  /** What a wait waits for. */
  datatype Want = Basics(states: set<Basic>) | InGait(gait: Gait) | Both(basic: Basic, gait: Gait)

  predicate Meets(o: Obs, w: Want) {
    match w
    case Basics(states) => o.basic in states
    case InGait(gait) => o.gait == gait
    case Both(basic, gait) => o.basic == basic && o.gait == gait
  }

  /** At most n looks, until one meets w. */
  ghost function Seek(script: nat -> Obs, k: nat, w: Want, n: nat): Look
    decreases n
  {
    if n == 0 then Look(false, k)
    else if Meets(script(k), w) then Look(true, k + 1)
    else Seek(script, k + 1, w, n - 1)
  }

  /** Look k + m is the first of those from k that meets w. */
  ghost predicate FirstAt(script: nat -> Obs, k: nat, w: Want, m: nat) {
    Meets(script(k + m), w) && forall i: nat :: k <= i < k + m ==> !Meets(script(i), w)
  }

  /** It succeeds exactly when one of the n looks meets w, and then stops right after the first. */
  lemma {:induction false} SeekFinds(script: nat -> Obs, k: nat, w: Want, n: nat)
    ensures Seek(script, k, w, n).ok <==> exists i: nat :: k <= i < k + n && Meets(script(i), w)
    ensures forall m: nat :: m < n && FirstAt(script, k, w, m) ==> Seek(script, k, w, n) == Look(true, k + m + 1)
    ensures !Seek(script, k, w, n).ok ==> Seek(script, k, w, n).next == k + n
    decreases n
  {
    if n > 0 && !Meets(script(k), w) {
      SeekFinds(script, k + 1, w, n - 1);
      forall m: nat | m < n && FirstAt(script, k, w, m) ensures Seek(script, k, w, n) == Look(true, k + m + 1) {
        assert m > 0 && FirstAt(script, k + 1, w, m - 1);
      }
    }
  }

  lemma OneLook(script: nat -> Obs, k: nat, w: Want)
    ensures Seek(script, k, w, 1) == Look(Meets(script(k), w), k + 1)
  {
  }

  const RISING := Basics({StandingUp, InitialStand, ForceStand, Stepping})
  const ON_FEET := Basics({InitialStand, ForceStand, Stepping})
  const STOPPED := Basics({ForceStand, InitialStand})
  const LYING := Basics({LyingDown})

  /** The stand-up command is sent up to four times; then one long wait. */
  ghost function StandUpLooks(script: nat -> Obs, k: nat): Look {
    var a := Seek(script, k, RISING, 4);
    if !a.ok then a else Seek(script, a.next, ON_FEET, 1)
  }

  // ---------- stand ----------

  ghost function UprightLooks(script: nat -> Obs, k: nat, state: Basic): Look {
    if state == LyingDown || state == GoingDown then StandUpLooks(script, k)
    else Look(state in {InitialStand, ForceStand, Stepping, RlMode}, k)
  }

  ghost function GetUpLooks(script: nat -> Obs, k: nat, first: Basic): Look {
    if first != SoftEstop then UprightLooks(script, k, first)
    else
      var a := Seek(script, k, LYING, 2);
      if !a.ok then a else UprightLooks(script, a.next + 1, script(a.next).basic)
  }

  ghost function EnterForceLooks(script: nat -> Obs, k: nat): Look {
    if script(k).basic == InitialStand then Seek(script, k + 1, Basics({ForceStand}), 1)
    else Look(script(k).basic in {ForceStand, RlMode, Stepping}, k + 1)
  }

  ghost function TargetLooks(script: nat -> Obs, k: nat, target: Gait): Look {
    if script(k).basic == RlMode && script(k + 1).gait == target then Look(true, k + 2)
    else if script(k).basic != ForceStand then Seek(script, k + 2, Both(RlMode, target), 1)
    else
      var a := Seek(script, k + 2, Basics({Stepping}), 3);
      if !a.ok then a else Seek(script, a.next + 2, Both(RlMode, target), 1)
  }

  /** stand, once the target gait is supported. */
  ghost function StandLooks(script: nat -> Obs, k: nat, target: Gait): Look {
    var a := GetUpLooks(script, k + 2, script(k).basic);
    if !a.ok then a
    else
      var b := EnterForceLooks(script, a.next);
      if !b.ok then b else TargetLooks(script, b.next, target)
  }

  // ---------- forceStand ----------

  ghost function RiseLooks(script: nat -> Obs, k: nat, first: Basic): Look {
    var a := if first == SoftEstop then Seek(script, k, LYING, 2) else Look(true, k);
    if !a.ok then a
    else if first in {SoftEstop, LyingDown, GoingDown} then
      var b := StandUpLooks(script, a.next);
      if !b.ok then b else Look(true, b.next + 1)
    else Look(first in {InitialStand, Stepping, RlMode}, k)
  }

  /** Out of RL mode; the state read last, if that went well. */
  ghost function ToWalkLooks(script: nat -> Obs, k: nat): Look {
    var a := Seek(script, k, InGait(Walk), 1);
    if !a.ok then a else Seek(script, a.next, Basics({Stepping}), 1)
  }

  ghost function HaltLooks(script: nat -> Obs, k: nat, state: Basic): (Look, Basic) {
    if state != RlMode && state != Stepping then (Look(true, k), state)
    else
      var a := Seek(script, k, STOPPED, 3);
      if !a.ok then (a, state) else (Look(true, a.next + 1), script(a.next).basic)
  }

  ghost function LeaveLooks(script: nat -> Obs, k: nat): (Look, Basic) {
    var state := script(k).basic;
    if state != RlMode then HaltLooks(script, k + 1, state)
    else
      var a := ToWalkLooks(script, k + 1);
      if !a.ok then (a, state) else HaltLooks(script, a.next + 1, script(a.next).basic)
  }

  ghost function StopAndForceLooks(script: nat -> Obs, k: nat): Look {
    var (a, state) := LeaveLooks(script, k);
    if !a.ok then a
    else
      var b := if state == InitialStand then Seek(script, a.next, Basics({ForceStand}), 1) else a;
      if !b.ok then b else Look(script(b.next).basic == ForceStand, b.next + 1)
  }

  ghost function ForceLooks(script: nat -> Obs, k: nat): Look {
    if script(k).basic == ForceStand then Look(true, k + 1)
    else
      var a := RiseLooks(script, k + 1, script(k).basic);
      if !a.ok then a else StopAndForceLooks(script, a.next)
  }

  // ---------- lieDown ----------

  ghost predicate Ends(script: nat -> Obs, bound: nat) { forall j: nat :: j >= bound ==> script(j).basic != Stepping }

  datatype Settled = StillStanding | Down(ok: bool) | StuckStepping

  /** The settle loop: thirty polls, begun anew (less the pause) whenever a stepping robot was stopped. */
  ghost function SettleLooks(script: nat -> Obs, k: nat, polls: nat, bound: nat): (Settled, nat)
    requires Ends(script, bound)
    decreases Max(bound - k, 0), polls
  {
    if polls == 0 then (StillStanding, k)
    else
      match script(k).basic
      case LyingDown => (Down(true), k + 1)
      case GoingDown => (Down(script(k + 1).basic == LyingDown), k + 2)
      case Stepping =>
        var a := Seek(script, k + 1, STOPPED, 3);
        SeekFinds(script, k + 1, STOPPED, 3);
        if !a.ok || a.next <= k then (StuckStepping, a.next) else SettleLooks(script, a.next, 29, bound)
      case _ => SettleLooks(script, k + 1, polls - 1, bound)
  }

  ghost function GoDownLooks(script: nat -> Obs, k: nat): Look {
    var a := Seek(script, k, Basics({GoingDown, LyingDown}), 4);
    if !a.ok then a else Seek(script, a.next, LYING, 1)
  }

  ghost function StopAndLieLooks(script: nat -> Obs, k: nat, bound: nat): Look
    requires Ends(script, bound)
  {
    var a := if script(k).basic == Stepping then Seek(script, k + 1, STOPPED, 3) else Look(true, k + 1);
    if !a.ok then a
    else if !Meets(script(a.next), STOPPED) then GoDownLooks(script, a.next + 1)
    else
      var (end, next) := SettleLooks(script, a.next + 1, 30, bound);
      match end
      case StillStanding => GoDownLooks(script, next)
      case Down(ok) => Look(ok, next)
      case StuckStepping => Look(false, next)
  }

  ghost function LieLooks(script: nat -> Obs, k: nat, bound: nat): Look
    requires Ends(script, bound)
  {
    match script(k).basic
    case LyingDown => Look(true, k + 1)
    case GoingDown => Seek(script, k + 1, LYING, 1)
    case SoftEstop => Seek(script, k + 1, LYING, 2)
    case RlMode =>
      var a := Seek(script, k + 1, Basics({ForceStand, InitialStand, Stepping, GoingDown, LyingDown}), 2);
      if !a.ok then a
      else if script(a.next).basic == LyingDown then Look(true, a.next + 1)
      else if script(a.next).basic == GoingDown then Seek(script, a.next + 1, LYING, 1)
      else StopAndLieLooks(script, a.next + 1, bound)
    case _ => StopAndLieLooks(script, k + 1, bound)
  }

  // ---------- When the walks end well ----------

  /** Look k + m is the first to find the robot rising, and it is on its feet at the next. */
  ghost predicate RisesAt(script: nat -> Obs, k: nat, m: nat) {
    && FirstAt(script, k, Basics({StandingUp, InitialStand, ForceStand, Stepping}), m)
    && script(k + m + 1).basic in {InitialStand, ForceStand, Stepping}
  }

  /** From look k on it takes force control, steps first at look k + n + 4 and then reaches the gait. */
  ghost predicate StepsAt(script: nat -> Obs, k: nat, n: nat, target: Gait) {
    && script(k).basic == InitialStand && script(k + 1).basic == script(k + 2).basic == ForceStand
    && FirstAt(script, k + 4, Basics({Stepping}), n)
    && script(k + n + 7).basic == RlMode && script(k + n + 7).gait == target
  }

  /**
   A robot that does what it is told is stood up: found lying, it answers one of the
   four stand-up commands, stands, takes force control, starts to step at one of the
   three motion commands and reaches the gait.
   */
  lemma LyingRobotStands(script: nat -> Obs, k: nat, m: nat, n: nat, target: Gait)
    requires script(k).basic in {LyingDown, GoingDown}
    requires m < 4 && RisesAt(script, k + 2, m) && n < 3 && StepsAt(script, k + m + 4, n, target)
    ensures StandLooks(script, k, target) == Look(true, k + m + n + 12)
  {
    hide Seek, StandUpLooks, StandLooks, StepsAt, RisesAt;
    RisingAnswers(script, k + 2, m);
    OnItsFeet(script, k, k + m + 4, n, target);
  }

  /** Found in a soft stop it first lies down at one of two commands. */
  lemma StoppedRobotStands(script: nat -> Obs, k: nat, j: nat, m: nat, n: nat, target: Gait)
    requires script(k).basic == SoftEstop && j < 2 && FirstAt(script, k + 2, Basics({LyingDown}), j)
    requires script(k + j + 3).basic == LyingDown && m < 4 && RisesAt(script, k + j + 4, m)
    requires n < 3 && StepsAt(script, k + j + m + 6, n, target)
    ensures StandLooks(script, k, target) == Look(true, k + j + m + n + 14)
  {
    hide Seek, StandUpLooks, StandLooks, StepsAt, RisesAt, FirstAt, GetUpLooks;
    StoppedRobotRises(script, k + 2, j, m);
    OnItsFeet(script, k, k + j + m + 6, n, target);
  }

  /** Once on its feet, wherever it was found. */
  lemma OnItsFeet(script: nat -> Obs, k: nat, up: nat, n: nat, target: Gait)
    requires GetUpLooks(script, k + 2, script(k).basic) == Look(true, up) && n < 3 && StepsAt(script, up, n, target)
    ensures StandLooks(script, k, target) == Look(true, up + n + 8)
  {
    hide Seek, GetUpLooks, TargetLooks, EnterForceLooks, StepsAt;
    SteppingAnswers(script, up, n, target);
  }

  lemma StoppedRobotRises(script: nat -> Obs, k: nat, j: nat, m: nat)
    requires j < 2 && FirstAt(script, k, Basics({LyingDown}), j) && script(k + j + 1).basic == LyingDown
    requires m < 4 && RisesAt(script, k + j + 2, m)
    ensures GetUpLooks(script, k, SoftEstop) == Look(true, k + j + m + 4)
  {
    SeekFinds(script, k, LYING, 2);
    hide Seek, StandUpLooks, RisesAt;
    RisingAnswers(script, k + j + 2, m);
  }

  lemma RisingAnswers(script: nat -> Obs, k: nat, m: nat)
    requires m < 4 && RisesAt(script, k, m)
    ensures StandUpLooks(script, k) == Look(true, k + m + 2)
  {
    SeekFinds(script, k, RISING, 4);
  }

  lemma SteppingAnswers(script: nat -> Obs, k: nat, n: nat, target: Gait)
    requires n < 3 && StepsAt(script, k, n, target)
    ensures EnterForceLooks(script, k) == Look(true, k + 2)
    ensures TargetLooks(script, k + 2, target) == Look(true, k + n + 8)
  {
    OneLook(script, k + 1, Basics({ForceStand}));
    SeekFinds(script, k + 4, Basics({Stepping}), 3);
  }

  /** Found lying it ends in force control: up, on its feet, force control. */
  lemma LyingRobotForces(script: nat -> Obs, k: nat, m: nat)
    requires script(k).basic in {LyingDown, GoingDown} && m < 4 && RisesAt(script, k + 1, m)
    requires script(k + m + 4).basic == InitialStand
    requires script(k + m + 5).basic == script(k + m + 6).basic == ForceStand
    ensures ForceLooks(script, k) == Look(true, k + m + 7)
  {
    hide Seek, StandUpLooks;
    RisingAnswers(script, k + 1, m);
    OneLook(script, k + m + 5, Basics({ForceStand}));
  }

  /** A walking robot that does what it is told ends in force control: walk gait, stop, force control. */
  lemma WalkingRobotStops(script: nat -> Obs, k: nat, n: nat)
    requires script(k).basic == RlMode && script(k + 1).basic == RlMode
    requires script(k + 2).gait == Walk && script(k + 3).basic == Stepping && script(k + 4).basic == Stepping
    requires n < 3 && FirstAt(script, k + 5, Basics({ForceStand, InitialStand}), n)
    requires script(k + n + 6).basic == InitialStand
    requires script(k + n + 7).basic == ForceStand && script(k + n + 8).basic == ForceStand
    ensures ForceLooks(script, k) == Look(true, k + n + 9)
  {
    WalkingRobotHalts(script, k + 1, n);
    OneLook(script, k + n + 7, Basics({ForceStand}));
    hide Seek, LeaveLooks, FirstAt;
  }

  lemma WalkingRobotHalts(script: nat -> Obs, k: nat, n: nat)
    requires script(k).basic == RlMode && script(k + 1).gait == Walk
    requires script(k + 2).basic == Stepping && script(k + 3).basic == Stepping
    requires n < 3 && FirstAt(script, k + 4, Basics({ForceStand, InitialStand}), n)
    ensures LeaveLooks(script, k) == (Look(true, k + n + 6), script(k + n + 5).basic)
  {
    OneLook(script, k + 1, InGait(Walk));
    OneLook(script, k + 2, Basics({Stepping}));
    SeekFinds(script, k + 4, STOPPED, 3);
    hide Seek, FirstAt;
  }

  /** While the robot is seen standing, the settle loop looks on for all its polls. */
  lemma {:induction false} SettlesStanding(script: nat -> Obs, k: nat, polls: nat, bound: nat)
    requires Ends(script, bound)
    requires forall i: nat :: k <= i < k + polls ==> script(i).basic == ForceStand || script(i).basic == InitialStand
    ensures SettleLooks(script, k, polls, bound) == (StillStanding, k + polls)
    decreases polls
  {
    if polls > 0 {
      assert script(k).basic == ForceStand || script(k).basic == InitialStand;
      SettlesStanding(script, k + 1, polls - 1, bound);
    }
  }

  /** A standing robot that does what it is told lies down: thirty calm looks, then one of four commands. */
  lemma StandingRobotLies(script: nat -> Obs, k: nat, n: nat, bound: nat)
    requires Ends(script, bound)
    requires forall i: nat :: k <= i < k + 33 ==> script(i).basic == ForceStand || script(i).basic == InitialStand
    requires n < 4 && FirstAt(script, k + 33, Basics({GoingDown, LyingDown}), n)
    requires script(k + n + 34).basic == LyingDown
    ensures LieLooks(script, k, bound) == Look(true, k + n + 35)
  {
    assert Meets(script(k), STOPPED) && Meets(script(k + 1), STOPPED) && Meets(script(k + 2), STOPPED);
    SettlesStanding(script, k + 3, 30, bound);
    SeekFinds(script, k + 33, Basics({GoingDown, LyingDown}), 4);
  }

  /** A robot in RL mode goes down at one of two commands. */
  lemma RlRobotLies(script: nat -> Obs, k: nat, n: nat, bound: nat)
    requires Ends(script, bound) && script(k).basic == RlMode && n < 2
    requires FirstAt(script, k + 1, Basics({ForceStand, InitialStand, Stepping, GoingDown, LyingDown}), n)
    requires script(k + n + 2).basic == GoingDown && script(k + n + 3).basic == LyingDown
    ensures LieLooks(script, k, bound) == Look(true, k + n + 4)
  {
    SeekFinds(script, k + 1, Basics({ForceStand, InitialStand, Stepping, GoingDown, LyingDown}), 2);
    OneLook(script, k + n + 3, LYING);
  }

  /** And so does one in a soft stop. */
  lemma StoppedRobotLies(script: nat -> Obs, k: nat, n: nat, bound: nat)
    requires Ends(script, bound) && script(k).basic == SoftEstop
    requires n < 2 && FirstAt(script, k + 1, Basics({LyingDown}), n)
    ensures LieLooks(script, k, bound) == Look(true, k + n + 2)
  {
    SeekFinds(script, k + 1, LYING, 2);
  }
}
