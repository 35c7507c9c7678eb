/**
 The flags and the questions of the D1 Max back end, told on the history: when an
 exit is confirmed, what creates an undock demand, when the undock may be skipped,
 and what each charge state means.
 */
module D1Flags {
  import opened Prelude
  import opened D1State
  import opened D1History

  // ---------- A confirmed exit ----------

  /** A RECHARGING or UNDOCK task that is starting, running or has failed. */
  predicate ChargeTask(e: Event) {
    && e.TaskUpdate? && e.task.kind in {RechargingTask, UndockTask}
    && e.task.status in {Starting, Running, Failure}
  }

  /** A present battery reports that it is charging. */
  predicate Charging(s: Sample) {
    || (s.battery.present1 && s.battery.status1 == Power.Charging)
    || (s.battery.present2 && s.battery.status2 == Power.Charging)
  }

  /** What ends a confirmed exit: charging on the pile, charge activity, or a new charge call. */
  predicate Contradicts(e: Event) {
    || (e.Telemetry? && e.sample.pile && Charging(e.sample))
    || ChargeTask(e) || e == RechargeCalled || e == UndockCommanded
  }

  /** An exit was accepted and nothing has contradicted it since. */
  ghost predicate Holding(h: seq<Event>) {
    exists j: nat :: j < |h| && h[j] == ExitAccepted && forall k :: j < k < |h| ==> !Contradicts(h[k])
  }

  lemma HoldingNext(h: seq<Event>, n: nat)
    requires |h| == n + 1
    ensures Holding(h) <==> h[n] == ExitAccepted || (Holding(h[..n]) && !Contradicts(h[n]))
  {
    if Holding(h) && h[n] != ExitAccepted {
      var j: nat :| j < |h| && h[j] == ExitAccepted && forall k :: j < k < |h| ==> !Contradicts(h[k]);
      assert h[..n][j] == ExitAccepted;
    }
    if Holding(h[..n]) && !Contradicts(h[n]) {
      var j: nat :| j < n && h[..n][j] == ExitAccepted && forall k :: j < k < n ==> !Contradicts(h[..n][k]);
      assert forall k :: j < k < n ==> h[k] == h[..n][k];
    }
  }

  lemma {:induction false} ConfirmedIffHolding(h: seq<Event>)
    ensures Fold(h).confirmed <==> Holding(h)
  {
    if h != [] {
      var n := |h| - 1;
      ConfirmedIffHolding(h[..n]);
      HoldingNext(h, n);
      hide Holding;
    }
  }

  // ---------- An undock demand ----------

  /**
   What demands an undock: a charging battery or the RECHARGE machine state, unless
   the sample keeps a confirmed exit; charge activity; and the demanding calls.
   */
  ghost predicate Demands(h: seq<Event>, i: nat)
    requires i < |h|
  {
    match h[i]
    case Telemetry(s, _) =>
      (Charging(s) || s.machine == Recharge) && !(Holding(h[..i]) && (!s.pile || !Charging(s)))
    case TaskUpdate(_, _) => ChargeTask(h[i])
    case UndockDemanded => true
    case UndockCommanded => true
    case _ => false
  }

  /** Something has demanded an undock since the last handoff. */
  ghost predicate Demanded(h: seq<Event>) {
    exists i: nat :: i < |h| && Demands(h, i) && Unspent(h, i)
  }

  lemma DemandedNext(h: seq<Event>, n: nat)
    requires |h| == n + 1
    ensures Demanded(h) <==> h[n] != ExitAccepted && (Demanded(h[..n]) || Demands(h, n))
  {
    if Demanded(h) && !Demands(h, n) {
      var i: nat :| i < |h| && Demands(h, i) && Unspent(h, i);
      assert h[..n][..i] == h[..i];
      assert Demands(h[..n], i) && Unspent(h[..n], i);
    }
    if Demanded(h[..n]) && h[n] != ExitAccepted {
      var i: nat :| i < n && Demands(h[..n], i) && Unspent(h[..n], i);
      assert h[..n][..i] == h[..i];
      assert forall k :: i < k < n ==> h[k] == h[..n][k];
      assert Demands(h, i) && Unspent(h, i);
    }
  }

  /** The flag behind the shortcut: an undock is required exactly when the history has demanded one. */
  lemma {:induction false} RequiredIffDemanded(h: seq<Event>)
    ensures Fold(h).required <==> Demanded(h)
  {
    if h != [] {
      var n := |h| - 1;
      RequiredIffDemanded(h[..n]);
      DemandedNext(h, n);
      ConfirmedIffHolding(h[..n]);
      hide Holding, Demanded;
    }
  }

  // ---------- The shortcut ----------

  /** The last sample, if there is one under five seconds old. */
  ghost predicate FreshSample(h: seq<Event>, now: int, t: nat) { LastTelemetry(h, t) && now - h[t].at < FRESH_MS }

  /** A battery is present, and every present one reports DISCHARGING or FULL. */
  predicate NoneCharges(b: Battery) {
    && (b.present1 || b.present2)
    && (b.present1 ==> b.status1 in {Discharging, Full}) && (b.present2 ==> b.status2 in {Discharging, Full})
  }

  /**
   The exit already holds: the last sample is fresh and shows the link down; or the
   link up, no battery charging and at least one known not to, with no demand.
   */
  ghost predicate Skippable(h: seq<Event>, now: int) {
    exists t: nat :: FreshSample(h, now, t)
      && (!h[t].sample.pile || (NoneCharges(h[t].sample.battery) && !Demanded(h)))
  }

  lemma FreshIsSampled(h: seq<Event>, now: int)
    ensures FreshAt(Fold(h), now) <==> exists t: nat :: FreshSample(h, now, t)
    ensures forall t: nat :: LastTelemetry(h, t) ==>
      && Fold(h).lastBasic == Some(h[t].at)
      && Fold(h).pile == h[t].sample.pile && Fold(h).battery == h[t].sample.battery
  {
    hide Fold;
    TelemetryIsLast(h);
    if t: nat :| LastTelemetry(h, t) && Some(h[t].at) == Fold(h).lastBasic
                 && h[t].sample.pile == Fold(h).pile && h[t].sample.battery == Fold(h).battery {
      assert FreshAt(Fold(h), now) ==> FreshSample(h, now, t);
      forall t': nat | LastTelemetry(h, t') ensures t' == t {}
    }
  }

  /** The shortcut's test on the digest decides exactly that. */
  lemma SkipsIffSkippable(h: seq<Event>, now: int)
    ensures ExitConfirmed(Fold(h), now) && CanSkipUndock(Fold(h)) && (!Fold(h).pile || !Fold(h).required)
       <==> Skippable(h, now)
  {
    hide Fold, Demanded;
    FreshIsSampled(h, now);
    RequiredIffDemanded(h);
    if FreshAt(Fold(h), now) { var t: nat :| FreshSample(h, now, t); }
  }

  // ---------- The start of a recharge ----------

  /** A RECHARGING task newer than min is the current one and active, and fresh telemetry shows charging. */
  ghost predicate Recharges(h: seq<Event>, min: nat, now: int) {
    exists i: nat, t: nat ::
      && LastTask(h, i) && h[i].task.kind == RechargingTask && h[i].task.status in {Starting, Running}
      && Ordinal(h, i) > min && FreshSample(h, now, t) && Charging(h[t].sample)
  }

  lemma TaskOf(h: seq<Event>, i: nat)
    requires LastTask(h, i)
    ensures Fold(h).task == h[i].task && Fold(h).sequence == Ordinal(h, i) > 0
  {
    hide Fold;
    TaskIsLast(h);
    SequenceIsCount(h);
    CountNext(h, i);
    OrdinalMonotone(h, i, |h| - 1);
  }

  lemma NoTask(h: seq<Event>)
    requires forall i: nat :: !LastTask(h, i)
    ensures Fold(h).sequence == 0 && Fold(h).task == INITIAL.task
  {
    TaskIsLast(h);
    if Fold(h).sequence > 0 { assert false; }
    Untouched(h);
  }

  lemma {:induction false} Untouched(h: seq<Event>)
    requires forall k: nat :: k < |h| ==> !h[k].TaskUpdate?
    ensures Fold(h).task == INITIAL.task
  {
    if h != [] { Untouched(h[..|h| - 1]); }
  }

  lemma StartsIffRecharges(h: seq<Event>, min: nat, now: int)
    ensures StartSucceeds(Fold(h), min, now) <==> Recharges(h, min, now)
  {
    hide Fold, Ordinal;
    FreshIsSampled(h, now);
    if i: nat :| LastTask(h, i) { TaskOf(h, i); } else { NoTask(h); }
  }

  // ---------- The charge state ----------

  /** The exit is confirmed, and the last sample is fresh and does not deny it. */
  ghost predicate Idle(h: seq<Event>, now: int) {
    Holding(h) && exists t: nat :: FreshSample(h, now, t) && (!h[t].sample.pile || !Charging(h[t].sample))
  }

  ghost predicate TaskIs(h: seq<Event>, kinds: set<TaskType>, statuses: set<TaskStatus>) {
    exists i: nat :: LastTask(h, i) && h[i].task.kind in kinds && h[i].task.status in statuses
  }

  ghost predicate LastCharging(h: seq<Event>) { exists t: nat :: LastTelemetry(h, t) && Charging(h[t].sample) }

  lemma TaskIsTask(h: seq<Event>, kinds: set<TaskType>, statuses: set<TaskStatus>)
    requires OtherTask !in kinds || Unknown !in statuses
    ensures TaskIs(h, kinds, statuses) <==> Fold(h).task.kind in kinds && Fold(h).task.status in statuses
  {
    hide Fold, Ordinal;
    if i: nat :| LastTask(h, i) {
      TaskOf(h, i);
      forall i': nat | LastTask(h, i') ensures i' == i {}
    } else {
      NoTask(h);
    }
  }

  lemma LastChargingIsDigest(h: seq<Event>)
    ensures LastCharging(h) <==> IsCharging(Fold(h))
  {
    FreshIsSampled(h, 0);
    if !exists t: nat :: LastTelemetry(h, t) {
      hide Fold;
      TelemetryIsLast(h);
      NoSample(h);
    }
  }

  lemma {:induction false} NoSample(h: seq<Event>)
    requires forall k: nat :: k < |h| ==> !h[k].Telemetry?
    ensures Fold(h).battery == INITIAL.battery
  {
    if h != [] { NoSample(h[..|h| - 1]); }
  }

  lemma IdleIsDigest(h: seq<Event>, now: int)
    ensures Idle(h, now) <==> Fold(h).confirmed && ExitConfirmed(Fold(h), now)
  {
    hide Fold, Holding;
    ConfirmedIffHolding(h);
    FreshIsSampled(h, now);
    if FreshAt(Fold(h), now) { var t: nat :| FreshSample(h, now, t); }
  }

  lemma EveryKind(kind: TaskType)
    ensures kind in {RechargingTask, UndockTask, OtherTask}
  {
    match kind
    case RechargingTask =>
    case UndockTask =>
    case OtherTask =>
  }

  /**
   Every charge state, told on the last task and the last sample: 0 while a confirmed
   exit stands on fresh telemetry; else 4 for a failed task under a demand, 3 for an
   active undock, 2 for a charging battery, 1 for an active recharge, and 0 again.
   */
  lemma ChargeCodeMeans(h: seq<Event>, now: int)
    ensures var code := ChargeCode(Fold(h), now);
      var failed := Demanded(h) && TaskIs(h, {RechargingTask, UndockTask, OtherTask}, {Failure});
      var undocking := TaskIs(h, {UndockTask}, {Starting, Running});
      var recharging := TaskIs(h, {RechargingTask}, {Starting, Running});
      && (code == 4 <==> !Idle(h, now) && failed)
      && (code == 3 <==> !Idle(h, now) && !failed && undocking)
      && (code == 2 <==> !Idle(h, now) && !failed && !undocking && LastCharging(h))
      && (code == 1 <==> !Idle(h, now) && !failed && !undocking && !LastCharging(h) && recharging)
      && (code == 0 <==> Idle(h, now) || (!failed && !undocking && !LastCharging(h) && !recharging))
  {
    hide Fold, Idle, Demanded, TaskIs, LastCharging;
    IdleIsDigest(h, now);
    RequiredIffDemanded(h);
    LastChargingIsDigest(h);
    TaskIsTask(h, {RechargingTask, UndockTask, OtherTask}, {Failure});
    EveryKind(Fold(h).task.kind);
    TaskIsTask(h, {UndockTask}, {Starting, Running});
    TaskIsTask(h, {RechargingTask}, {Starting, Running});
  }
}
