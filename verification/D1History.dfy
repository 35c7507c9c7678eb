/**
 The digest of the D1 Max back end against the full history it was folded from:
 what the history says, the sequence numbers and flags say, and conversely.
 */
module D1History {
  import opened Prelude
  import opened D1State

  // ---------- What the history says ----------

  /** The number of task updates in h, which is the sequence number of the last one. */
  function TaskCount(h: seq<Event>): nat {
    if h == [] then 0
    else TaskCount(h[..|h| - 1]) + if h[|h| - 1].TaskUpdate? then 1 else 0
  }

  /** The sequence number the task update at index i was given. */
  function Ordinal(h: seq<Event>, i: nat): nat
    requires i < |h|
  {
    TaskCount(h[..i + 1])
  }

  predicate IsUpdate(e: Event, kind: TaskType, status: TaskStatus) {
    e.TaskUpdate? && e.task.kind == kind && e.task.status == status
  }

  /** An update of this kind and status carries a sequence number above min. */
  ghost predicate Reported(h: seq<Event>, kind: TaskType, status: TaskStatus, min: nat) {
    exists i: nat :: i < |h| && IsUpdate(h[i], kind, status) && Ordinal(h, i) > min
  }

  ghost predicate LastUpdate(h: seq<Event>, i: nat, kind: TaskType, status: TaskStatus) {
    && i < |h| && IsUpdate(h[i], kind, status)
    && forall k :: i < k < |h| ==> !IsUpdate(h[k], kind, status)
  }

  /** No handoff has retired what happened at index i. */
  ghost predicate Unspent(h: seq<Event>, i: nat) {
    forall k :: i < k < |h| ==> h[k] != ExitAccepted
  }

  ghost predicate LastTelemetry(h: seq<Event>, t: nat) {
    && t < |h| && h[t].Telemetry?
    && forall k :: t < k < |h| ==> !h[k].Telemetry?
  }

  predicate ShowsExit(sample: Sample) { !sample.pile || !ChargingBattery(sample.battery) }

  ghost predicate HistoryFails(h: seq<Event>, min: nat) { Reported(h, UndockTask, Failure, min) }

  /**
   The latest UNDOCK SUCCESS is newer than min and unspent, and the last telemetry
   is no older than the wait and that SUCCESS, under five seconds old, and shows
   the link down or no present battery charging.
   */
  ghost predicate HistorySucceeds(h: seq<Event>, min: nat, started: int, now: int) {
    exists s: nat, t: nat ::
      && LastUpdate(h, s, UndockTask, Success) && Ordinal(h, s) > min && Unspent(h, s)
      && LastTelemetry(h, t)
      && h[t].at >= started && h[t].at >= h[s].at && now - h[t].at < FRESH_MS && ShowsExit(h[t].sample)
  }

  // ---------- Digest and history agree ----------

  lemma {:induction false} SequenceIsCount(h: seq<Event>)
    ensures Fold(h).sequence == TaskCount(h)
  {
    if h != [] { SequenceIsCount(h[..|h| - 1]); }
  }

  lemma CountNext(h: seq<Event>, k: nat)
    requires k < |h|
    ensures TaskCount(h[..k + 1]) == TaskCount(h[..k]) + if h[k].TaskUpdate? then 1 else 0
  {
    assert h[..k + 1][..k] == h[..k];
  }

  lemma {:induction false} CountMonotone(h: seq<Event>, i: nat, k: nat)
    requires i <= k <= |h|
    ensures TaskCount(h[..i]) <= TaskCount(h[..k])
    decreases k
  {
    if i < k {
      CountMonotone(h, i, k - 1);
      CountNext(h, k - 1);
    }
  }

  lemma OrdinalMonotone(h: seq<Event>, i: nat, k: nat)
    requires i <= k < |h|
    ensures Ordinal(h, i) <= Ordinal(h, k) <= TaskCount(h)
    ensures i < k && h[k].TaskUpdate? ==> Ordinal(h, i) < Ordinal(h, k)
  {
    CountMonotone(h, i + 1, k + 1);
    OrdinalInCount(h, k);
    if i < k && h[k].TaskUpdate? {
      CountMonotone(h, i + 1, k);
      CountNext(h, k);
    }
  }

  lemma OrdinalInCount(h: seq<Event>, k: nat)
    requires k < |h|
    ensures Ordinal(h, k) <= TaskCount(h)
  {
    CountMonotone(h, k + 1, |h|);
    assert h[..|h|] == h;
  }

  lemma OrdinalOfPrefix(h: seq<Event>, n: nat, i: nat)
    requires i < n <= |h|
    ensures Ordinal(h[..n], i) == Ordinal(h, i) && h[..n][i] == h[i]
  {
    assert h[..n][..i + 1] == h[..i + 1];
  }

  /** Which field of the digest remembers the last update of this kind and status. */
  function Remembered(d: Digest, kind: TaskType, status: TaskStatus): nat {
    if kind == RechargingTask && status == Stopped then d.rechargeStopped
    else if kind == UndockTask && status == Failure then d.undock.failure
    else if kind == UndockTask && status == Stopped then d.undock.stopped
    else 0
  }

  predicate Edge(kind: TaskType, status: TaskStatus) {
    || (kind == RechargingTask && status == Stopped)
    || (kind == UndockTask && (status == Failure || status == Stopped))
  }

  lemma KeepsLast(h: seq<Event>, n: nat, i: nat, kind: TaskType, status: TaskStatus)
    requires |h| == n + 1 && LastUpdate(h[..n], i, kind, status) && !IsUpdate(h[n], kind, status)
    ensures LastUpdate(h, i, kind, status) && Ordinal(h, i) == Ordinal(h[..n], i)
  {
    OrdinalOfPrefix(h, n, i);
    assert forall k :: i <= k < n ==> h[k] == h[..n][k];
  }

  /** What one more event does to a remembered number. */
  lemma RememberedNext(h: seq<Event>, n: nat, kind: TaskType, status: TaskStatus)
    requires |h| == n + 1 && Edge(kind, status)
    ensures Remembered(Fold(h), kind, status) ==
      if IsUpdate(h[n], kind, status) then Ordinal(h, n) else Remembered(Fold(h[..n]), kind, status)
    ensures IsUpdate(h[n], kind, status) ==> Ordinal(h, n) > 0
  {
    SequenceIsCount(h[..n]);
    CountNext(h, n);
  }

  /** The remembered number is that of the last such update, whatever came after it. */
  lemma {:induction false} RememberedIsLast(h: seq<Event>, kind: TaskType, status: TaskStatus)
    requires Edge(kind, status)
    ensures var n := Remembered(Fold(h), kind, status);
      || (n > 0 && exists i: nat :: LastUpdate(h, i, kind, status) && n == Ordinal(h, i))
      || (n == 0 && forall k: nat :: k < |h| ==> !IsUpdate(h[k], kind, status))
  {
    if h != [] {
      var n := |h| - 1;
      RememberedIsLast(h[..n], kind, status);
      RememberedNext(h, n, kind, status);
      hide Fold, TaskCount, Ordinal, Remembered;
      if IsUpdate(h[n], kind, status) {
        assert LastUpdate(h, n, kind, status);
      } else if i: nat :|
        LastUpdate(h[..n], i, kind, status) && Remembered(Fold(h[..n]), kind, status) == Ordinal(h[..n], i)
      {
        KeepsLast(h, n, i, kind, status);
      } else {
        assert forall k: nat :: k < n ==> h[k] == h[..n][k];
      }
    }
  }

  /** A later task update can never hide one of the remembered terminal events. */
  lemma RememberedIffReported(h: seq<Event>, kind: TaskType, status: TaskStatus, min: nat)
    requires Edge(kind, status)
    ensures Remembered(Fold(h), kind, status) > min <==> Reported(h, kind, status, min)
  {
    RememberedIsLast(h, kind, status);
    var n := Remembered(Fold(h), kind, status);
    if i: nat :| LastUpdate(h, i, kind, status) && n == Ordinal(h, i) {
      forall k: nat | k < |h| && IsUpdate(h[k], kind, status) ensures Ordinal(h, k) <= n {
        if k > i { assert false; } else { OrdinalMonotone(h, k, i); }
      }
    }
  }

  lemma {:induction false} SuccessIsLast(h: seq<Event>)
    ensures var u := Fold(h).undock;
      || (u.success > 0 && exists i: nat :: LastUpdate(h, i, UndockTask, Success) && Unspent(h, i)
                                           && u.success == Ordinal(h, i) && u.successTime == h[i].at)
      || (u.success == 0 && forall k: nat :: k < |h| && IsUpdate(h[k], UndockTask, Success) ==> !Unspent(h, k))
  {
    if h != [] {
      var n := |h| - 1;
      var u := Fold(h[..n]).undock;
      SuccessIsLast(h[..n]);
      SequenceIsCount(h[..n]);
      assert h[..n + 1] == h;
      if IsUpdate(h[n], UndockTask, Success) {
        assert LastUpdate(h, n, UndockTask, Success) && Unspent(h, n) && Ordinal(h, n) == Fold(h).undock.success;
      } else if h[n] == ExitAccepted {
        forall k: nat | k < |h| && IsUpdate(h[k], UndockTask, Success) ensures !Unspent(h, k) { assert k < n; }
      } else if i: nat :| LastUpdate(h[..n], i, UndockTask, Success) && Unspent(h[..n], i)
                          && u.success == Ordinal(h[..n], i) && u.successTime == h[..n][i].at {
        OrdinalOfPrefix(h, n, i);
        assert forall k :: i < k < n ==> h[k] == h[..n][k];
        assert LastUpdate(h, i, UndockTask, Success) && Unspent(h, i);
      } else {
        forall k: nat | k < |h| && IsUpdate(h[k], UndockTask, Success) ensures !Unspent(h, k) {
          assert k < n && h[..n][k] == h[k];
          var m :| k < m < n && h[..n][m] == ExitAccepted;
          assert h[m] == ExitAccepted;
        }
      }
    }
  }

  /** What one more event does to the telemetry fields. */
  lemma TelemetryNext(h: seq<Event>, n: nat)
    requires |h| == n + 1
    ensures var d, d' := Fold(h[..n]), Fold(h);
      if h[n].Telemetry? then
        d'.pile == h[n].sample.pile && d'.battery == h[n].sample.battery && d'.lastBasic == Some(h[n].at)
      else
        d'.pile == d.pile && d'.battery == d.battery && d'.lastBasic == d.lastBasic
  {
  }

  lemma {:induction false} TelemetryIsLast(h: seq<Event>)
    ensures var d := Fold(h);
      if d.lastBasic == None then forall k: nat :: k < |h| ==> !h[k].Telemetry?
      else exists t: nat :: LastTelemetry(h, t) && h[t].at == d.lastBasic.value
                            && h[t].sample.pile == d.pile && h[t].sample.battery == d.battery
  {
    if h != [] {
      var n := |h| - 1;
      hide Apply;
      var d := Fold(h[..n]);
      TelemetryIsLast(h[..n]);
      TelemetryNext(h, n);
      if h[n].Telemetry? {
        assert LastTelemetry(h, n);
      } else if t: nat :| LastTelemetry(h[..n], t) && Some(h[..n][t].at) == d.lastBasic
                          && h[..n][t].sample.pile == d.pile && h[..n][t].sample.battery == d.battery {
        assert forall k :: t <= k < n ==> h[k] == h[..n][k];
        assert LastTelemetry(h, t);
      } else {
        assert forall k: nat :: k < n ==> h[k] == h[..n][k];
      }
    }
  }

  lemma LastUpdateUnique(h: seq<Event>, i: nat, k: nat, kind: TaskType, status: TaskStatus)
    requires LastUpdate(h, i, kind, status) && LastUpdate(h, k, kind, status)
    ensures i == k
  {
  }

  /** The digest's success test rests on a last SUCCESS and a last sample of the history. */
  lemma SuccessIsWitnessed(h: seq<Event>, min: nat, started: int, now: int)
    requires WaitSucceeds(Fold(h), min, started, now)
    ensures HistorySucceeds(h, min, started, now)
  {
    hide Fold, Ordinal, Unspent;
    var d := Fold(h);
    SuccessIsLast(h);
    TelemetryIsLast(h);
    var s: nat :| LastUpdate(h, s, UndockTask, Success) && Unspent(h, s)
                  && d.undock.success == Ordinal(h, s) && d.undock.successTime == h[s].at;
    var t: nat :| LastTelemetry(h, t) && Some(h[t].at) == d.lastBasic
                  && h[t].sample.pile == d.pile && h[t].sample.battery == d.battery;
  }

  /** And what the history shows, the digest knows. */
  lemma WitnessIsSuccess(h: seq<Event>, min: nat, started: int, now: int, s: nat, t: nat)
    requires LastUpdate(h, s, UndockTask, Success) && Ordinal(h, s) > min && Unspent(h, s) && LastTelemetry(h, t)
    requires h[t].at >= started && h[t].at >= h[s].at && now - h[t].at < FRESH_MS && ShowsExit(h[t].sample)
    ensures WaitSucceeds(Fold(h), min, started, now)
  {
    hide Fold, Ordinal, Unspent;
    var d := Fold(h);
    SuccessIsLast(h);
    TelemetryIsLast(h);
    var s': nat :| LastUpdate(h, s', UndockTask, Success)
                   && d.undock.success == Ordinal(h, s') && d.undock.successTime == h[s'].at;
    LastUpdateUnique(h, s, s', UndockTask, Success);
    var t': nat :| LastTelemetry(h, t') && Some(h[t'].at) == d.lastBasic
                   && h[t'].sample.pile == d.pile && h[t'].sample.battery == d.battery;
    assert t == t';
  }

  /**
   The refinement behind waitForUndockCompleted: on every history the digest test
   fails exactly when an UNDOCK FAILURE newer than the snapshot was reported, and
   its success test holds exactly when the history shows the completed exit.
   */
  lemma WaitRefinesHistory(h: seq<Event>, min: nat, started: int, now: int)
    ensures WaitFails(Fold(h), min) <==> HistoryFails(h, min)
    ensures WaitSucceeds(Fold(h), min, started, now) <==> HistorySucceeds(h, min, started, now)
  {
    hide Fold, Ordinal;
    RememberedIffReported(h, UndockTask, Failure, min);
    if WaitSucceeds(Fold(h), min, started, now) { SuccessIsWitnessed(h, min, started, now); }
    if s: nat, t: nat :|
      && LastUpdate(h, s, UndockTask, Success) && Ordinal(h, s) > min && Unspent(h, s)
      && LastTelemetry(h, t)
      && h[t].at >= started && h[t].at >= h[s].at && now - h[t].at < FRESH_MS && ShowsExit(h[t].sample)
    {
      WitnessIsSuccess(h, min, started, now, s, t);
    }
  }

  // ---------- Demands and evidence along a history ----------

  /** h' continues h, and everything it adds is a callback or one of the extra events. */
  ghost predicate Adds(h: seq<Event>, h': seq<Event>, extra: set<Event>) {
    h <= h' && forall k :: |h| <= k < |h'| ==> Callback(h'[k]) || h'[k] in extra
  }

  lemma AddsTrans(h: seq<Event>, h1: seq<Event>, h2: seq<Event>, extra: set<Event>)
    requires Adds(h, h1, extra) && Adds(h1, h2, extra)
    ensures Adds(h, h2, extra)
  {
  }

  /** Every telemetry sample from index `from` on shows the pile link up. */
  predicate LinkUp(h: seq<Event>, from: nat) {
    forall k :: from <= k < |h| && h[k].Telemetry? ==> h[k].sample.pile
  }

  /** An undock demand stands until a handoff retires it, and the link stays up while samples say so. */
  lemma {:induction false} DemandStands(h: seq<Event>, h': seq<Event>)
    requires h <= h' && forall k :: |h| <= k < |h'| ==> h'[k] != ExitAccepted
    requires Fold(h).required
    ensures Fold(h').required
    ensures Fold(h).pile && LinkUp(h', |h|) ==> Fold(h').pile
  {
    if |h| < |h'| {
      DemandStands(h, h'[..|h'| - 1]);
    } else {
      assert h == h';
    }
  }

  /** The wait accepted here on the strength of the UNDOCK SUCCESS at index s. */
  ghost predicate Consumes(h: seq<Event>, at: nat, s: nat) {
    && at < |h| && h[at] == ExitAccepted
    && LastUpdate(h[..at], s, UndockTask, Success) && Unspent(h[..at], s)
  }

  /** Linear use of evidence: two handoffs by waiting rest on two different SUCCESS events, in order. */
  lemma EvidenceIsLinear(h: seq<Event>, a: nat, s: nat, b: nat, s': nat)
    requires a < b && Consumes(h, a, s) && Consumes(h, b, s')
    ensures s < a < s' < b
    ensures Ordinal(h, s) < Ordinal(h, s')
  {
    assert h[..b][a] == ExitAccepted;
    assert !(s' < a);
    assert h[..b][s'] == h[s'];
    OrdinalMonotone(h, s, s');
  }

  // ---------- The recharge wait reads the current task, not a remembered edge ----------

  ghost predicate LastTask(h: seq<Event>, i: nat) {
    && i < |h| && h[i].TaskUpdate?
    && forall k :: i < k < |h| ==> !h[k].TaskUpdate?
  }

  lemma {:induction false} TaskIsLast(h: seq<Event>)
    ensures Fold(h).sequence > 0 ==>
      exists i: nat :: LastTask(h, i) && h[i].task == Fold(h).task && Ordinal(h, i) == Fold(h).sequence
    ensures Fold(h).sequence == 0 ==> forall k: nat :: k < |h| ==> !h[k].TaskUpdate?
  {
    if h != [] {
      var n := |h| - 1;
      TaskIsLast(h[..n]);
      SequenceIsCount(h);
      assert h[..n + 1] == h;
      if h[n].TaskUpdate? {
        assert LastTask(h, n);
      } else if i: nat :| LastTask(h[..n], i) && h[..n][i].task == Fold(h[..n]).task
                          && Ordinal(h[..n], i) == Fold(h[..n]).sequence {
        OrdinalOfPrefix(h, n, i);
        assert forall k :: i < k < n ==> h[k] == h[..n][k];
        assert LastTask(h, i);
      } else {
        assert forall k: nat :: k < n ==> h[k] == h[..n][k];
      }
    }
  }

  predicate StartFails(d: Digest, min: nat) {
    d.sequence > min && d.task.kind == RechargingTask && d.task.status == Failure
  }

  predicate StartSucceeds(d: Digest, min: nat, now: int) {
    d.sequence > min && d.task.kind == RechargingTask && Active(d.task) && FreshAt(d, now) && IsCharging(d)
  }

  /**
   waitForRechargeStarted sees a RECHARGING FAILURE newer than its snapshot exactly
   when no later task update, of any kind, has replaced it.
   */
  lemma StartFailsIffLast(h: seq<Event>, min: nat)
    ensures StartFails(Fold(h), min) <==>
      exists i: nat :: LastTask(h, i) && IsUpdate(h[i], RechargingTask, Failure) && Ordinal(h, i) > min
  {
    TaskIsLast(h);
    if i: nat :| LastTask(h, i) && IsUpdate(h[i], RechargingTask, Failure) && Ordinal(h, i) > min {
      SequenceIsCount(h);
      OrdinalMonotone(h, i, |h| - 1);
      var k: nat :| LastTask(h, k) && h[k].task == Fold(h).task && Ordinal(h, k) == Fold(h).sequence;
      assert i == k;
    }
  }

  /** So, unlike an undock failure, any reported recharge failure is hidden by any later update. */
  lemma RechargeFailureIsHidden(h: seq<Event>, min: nat, task: Task, at: int)
    requires Reported(h, RechargingTask, Failure, min)
    requires !(task.kind == RechargingTask && task.status == Failure)
    ensures var h' := h + [TaskUpdate(task, at)];
      Reported(h', RechargingTask, Failure, min) && !StartFails(Fold(h'), min)
  {
    var h' := h + [TaskUpdate(task, at)];
    var i: nat :| i < |h| && IsUpdate(h[i], RechargingTask, Failure) && Ordinal(h, i) > min;
    assert h'[..|h|] == h;
    OrdinalOfPrefix(h', |h|, i);
  }
}
