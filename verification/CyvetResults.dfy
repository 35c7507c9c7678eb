/**
 What the results of jobs mean, stated on the positions of the log: a success is
 only ever told for what the job ordered, and the robot reported, after the job was
 taken; motion enabled by a job is told as its success, and an exception as such.
 */
module CyvetResults {
  import opened Prelude
  import opened CyvetState
  import opened CyvetSafety

  // ---------- What the wire says of the log ----------

  /** Control gained at g is still held at j: it was neither lost nor left. */
  ghost predicate HeldSince(log: seq<Stamp>, g: nat, j: nat) {
    g < j <= |log| && log[g].entry.Gained? && forall m :: g < m < j ==> !log[m].entry.Lost? && !log[m].entry.Left?
  }

  ghost predicate Holding(log: seq<Stamp>, j: nat) { exists g: nat :: HeldSince(log, g, j) }

  lemma HeldNext(log: seq<Stamp>, j: nat)
    requires 0 < j <= |log|
    ensures var e := log[j - 1].entry;
      Holding(log, j) <==> e.Gained? || (Holding(log, j - 1) && !e.Lost? && !e.Left?)
  {
    if log[j - 1].entry.Gained? { assert HeldSince(log, j - 1, j); }
    if g: nat :| HeldSince(log, g, j) && g < j - 1 { assert HeldSince(log, g, j - 1); }
    if !log[j - 1].entry.Lost? && !log[j - 1].entry.Left? && Holding(log, j - 1) {
      var g: nat :| HeldSince(log, g, j - 1);
      assert HeldSince(log, g, j);
    }
  }

  lemma {:induction false} HeldMeans(start: int, log: seq<Stamp>, j: nat)
    requires j <= |log|
    ensures Fold(start, log[..j]).wire.held <==> Holding(log, j)
  {
    NothingIsReady(start, log);
    hide Fold, Apply;
    if j > 0 {
      FoldNext(start, log, j - 1);
      WireNext(Fold(start, log[..j - 1]), log[j - 1]);
      HeldMeans(start, log, j - 1);
      HeldNext(log, j);
      hide Holding;
    }
  }

  /** No motion command goes out from i up to j. */
  ghost predicate Motionless(log: seq<Stamp>, i: nat, j: nat) {
    forall m :: i <= m < j && m < |log| ==> !Moves(log[m].entry)
  }

  /** That command is the last motion command before j. */
  ghost predicate OrderedAt(log: seq<Stamp>, m: nat, j: nat, rpc: Rpc) {
    m < j <= |log| && log[m].entry == Issued(rpc) && rpc != ReleaseCall && Motionless(log, m + 1, j)
  }

  lemma {:induction false} OrderedMeans(start: int, log: seq<Stamp>, j: nat, rpc: Rpc) returns (m: nat)
    requires j <= |log| && Fold(start, log[..j]).wire.latest == Order(rpc)
    ensures OrderedAt(log, m, j, rpc)
  {
    NothingIsReady(start, log);
    hide Fold, Apply;
    FoldNext(start, log, j - 1);
    WireNext(Fold(start, log[..j - 1]), log[j - 1]);
    if Moves(log[j - 1].entry) {
      m := j - 1;
    } else {
      m := OrderedMeans(start, log, j - 1, rpc);
    }
  }

  lemma {:induction false} AnsweredMeans(start: int, log: seq<Stamp>, j: nat, action: Action) returns (r: nat)
    requires j <= |log| && action in Fold(start, log[..j]).wire.answers
    ensures r < j && log[r].entry == Reported(action) && Motionless(log, r, j)
  {
    NothingIsReady(start, log);
    hide Fold, Apply;
    FoldNext(start, log, j - 1);
    WireNext(Fold(start, log[..j - 1]), log[j - 1]);
    if log[j - 1].entry == Reported(action) {
      r := j - 1;
    } else {
      r := AnsweredMeans(start, log, j - 1, action);
    }
  }

  /** Without a motion command nothing is counted. */
  lemma {:induction false} NothingOrdered(start: int, log: seq<Stamp>, i: nat, j: nat)
    requires i <= j <= |log| && Motionless(log, i, j)
    ensures var w, w' := Fold(start, log[..i]).wire, Fold(start, log[..j]).wire;
      w'.orders == w.orders && w'.stops == w.stops && w'.emergencies == w.emergencies
    decreases j
  {
    hide Fold, Apply;
    if i < j {
      FoldNext(start, log, j - 1);
      WireNext(Fold(start, log[..j - 1]), log[j - 1]);
      NothingOrdered(start, log, i, j - 1);
    }
  }

  /** An order that leaves the count alone was not given. */
  lemma {:induction false} OrderCounts(start: int, log: seq<Stamp>, i: nat, j: nat)
    requires i <= j <= |log|
    ensures Fold(start, log[..i]).wire.orders <= Fold(start, log[..j]).wire.orders
    ensures Fold(start, log[..i]).wire.orders == Fold(start, log[..j]).wire.orders ==>
      forall m :: i <= m < j && log[m].entry.Issued? ==> !Moves(log[m].entry)
    decreases j
  {
    hide Fold, Apply;
    if i < j {
      FoldNext(start, log, j - 1);
      WireNext(Fold(start, log[..j - 1]), log[j - 1]);
      OrderCounts(start, log, i, j - 1);
    }
  }

  lemma {:induction false} EmergencyReported(start: int, log: seq<Stamp>, i: nat, j: nat) returns (r: nat)
    requires i <= j <= |log| && Fold(start, log[..i]).wire.estops < Fold(start, log[..j]).wire.estops
    ensures i <= r < j && log[r].entry == Reported(EmergencyStop)
    decreases j
  {
    hide Fold, Apply;
    FoldNext(start, log, j - 1);
    WireNext(Fold(start, log[..j - 1]), log[j - 1]);
    if log[j - 1].entry == Reported(EmergencyStop) {
      r := j - 1;
    } else {
      r := EmergencyReported(start, log, i, j - 1);
    }
  }

  /** The order was given, and its answer reported, between the two moments; no other motion command followed. */
  ghost predicate Obeyed(log: seq<Stamp>, k: nat, j: nat, rpc: Rpc, action: Action) {
    exists m: nat, r: nat :: ObeyedAt(log, k, m, r, j, rpc, action)
  }

  ghost predicate ObeyedAt(log: seq<Stamp>, k: nat, m: nat, r: nat, j: nat, rpc: Rpc, action: Action) {
    k < m < r < j && OrderedAt(log, m, j, rpc) && log[r].entry == Reported(action)
  }

  lemma ObeyedMeans(start: int, log: seq<Stamp>, k: nat, j: nat, rpc: Rpc, action: Action)
    requires k < j <= |log| && log[k].entry.Popped?
    requires var w, w' := Fold(start, log[..k]).wire, Fold(start, log[..j]).wire;
      && w'.latest == Order(rpc) && action in w'.answers
      && (w.orders < w'.orders || w.stops < w'.stops || w.emergencies < w'.emergencies)
    ensures Obeyed(log, k, j, rpc, action)
  {
    hide Fold;
    var m := OrderedMeans(start, log, j, rpc);
    var r := AnsweredMeans(start, log, j, action);
    if m < k { NothingOrdered(start, log, k, j); }
    assert ObeyedAt(log, k, m, r, j, rpc, action);
  }

  // ---------- What the job has done ----------

  /** Motion was enabled between the two moments. */
  ghost predicate EnabledBetween(log: seq<Stamp>, k: nat, j: nat) {
    exists e: nat :: k < e < j && e < |log| && log[e].entry.Enabled?
  }

  /** What one entry does to the job taken last. */
  lemma RunNext(l: Ledger, st: Stamp)
    ensures var e, h, h' := st.entry, l.hand, Apply(l, st).hand;
      && h'.running == (if e.Popped? then Some(e.id) else if e.Settled? then None else h.running)
      && h'.run ==
         (if e.Popped? then Some(Run(e.task, l.wire, false)) else if e.Enabled? then Enabling(h).run else h.run)
  {
  }

  /** The job taken at k is the last one taken before j. */
  ghost predicate LastTaken(log: seq<Stamp>, k: nat, j: nat) {
    k < j <= |log| && log[k].entry.Popped? && forall m :: k < m < j ==> !log[m].entry.Popped?
  }

  lemma {:induction false} RunMeans(start: int, log: seq<Stamp>, j: nat) returns (k: nat)
    requires j <= |log| && Fold(start, log[..j]).hand.run.Some?
    ensures LastTaken(log, k, j)
    ensures Fold(start, log[..j]).hand.run.value ==
      Run(log[k].entry.task, Fold(start, log[..k]).wire, EnabledBetween(log, k, j))
    ensures Fold(start, log[..j]).hand.running.Some? ==> Fold(start, log[..j]).hand.running.value == log[k].entry.id
  {
    NothingIsReady(start, log);
    hide Fold, Apply;
    FoldNext(start, log, j - 1);
    RunNext(Fold(start, log[..j - 1]), log[j - 1]);
    if log[j - 1].entry.Popped? {
      k := j - 1;
    } else {
      RunningHasRun(start, log, j - 1);
      k := RunMeans(start, log, j - 1);
      if log[j - 1].entry.Enabled? { assert EnabledBetween(log, k, j); }
      if EnabledBetween(log, k, j) && !log[j - 1].entry.Enabled? {
        var e: nat :| k < e < j && log[e].entry.Enabled?;
        assert EnabledBetween(log, k, j - 1);
      }
    }
  }

  lemma {:induction false} RunningHasRun(start: int, log: seq<Stamp>, j: nat)
    requires j <= |log|
    ensures Fold(start, log[..j]).hand.running.Some? ==> Fold(start, log[..j]).hand.run.Some?
  {
    NothingIsReady(start, log);
    hide Fold, Apply;
    if j > 0 {
      FoldNext(start, log, j - 1);
      RunNext(Fold(start, log[..j - 1]), log[j - 1]);
      RunningHasRun(start, log, j - 1);
    }
  }

  /** The job taken at k gets its result at j. */
  ghost predicate ResultAt(log: seq<Stamp>, k: nat, j: nat) {
    k < j < |log| && log[k].entry.Popped? && log[j].entry.Settled? && log[j].entry.id == log[k].entry.id
  }

  lemma PoppedOnce(limit: int, start: int, log: seq<Stamp>, i: nat, j: nat)
    requires Fine(limit, start, log) && i < j < |log| && log[i].entry.Popped? && log[j].entry.Popped?
    ensures log[i].entry.id != log[j].entry.id
  {
    FineAt(limit, start, log, j);
    FoldNext(start, log, i);
    Grows(start, log, i + 1, j);
  }

  /** The ledger of a result: what the job has done since it was taken has earned it. */
  lemma ResultIsEarned(limit: int, start: int, log: seq<Stamp>, k: nat, j: nat)
    requires Fine(limit, start, log) && ResultAt(log, k, j)
    ensures !log[j].entry.how.Drained? && LastTaken(log, k, j)
    ensures Earned(Run(log[k].entry.task, Fold(start, log[..k]).wire, EnabledBetween(log, k, j)),
                   Fold(start, log[..j]).wire, log[j].entry.how)
  {
    hide Fold, Fine, Apply, Earned, EnabledBetween;
    FineAt(limit, start, log, j);
    TakenIsTaken(start, log, k, j);
    var last := RunMeans(start, log, j);
    if last != k { PoppedOnce(limit, start, log, k, last); }
  }

  lemma TakenIsTaken(start: int, log: seq<Stamp>, k: nat, j: nat)
    requires k < j <= |log| && log[k].entry.Popped?
    ensures log[k].entry.id in Fold(start, log[..j]).taken
  {
    FoldNext(start, log, k);
    Grows(start, log, k + 1, j);
  }

  lemma {:induction false} TaskMeans(start: int, log: seq<Stamp>, j: nat, id: nat) returns (i: nat)
    requires j <= |log| && id in Fold(start, log[..j]).tasks
    ensures i < j && log[i].entry.Accepted?
    ensures log[i].entry.id == id && log[i].entry.task == Fold(start, log[..j]).tasks[id]
  {
    FoldNext(start, log, j - 1);
    if log[j - 1].entry.Accepted? && log[j - 1].entry.id == id {
      i := j - 1;
    } else {
      i := TaskMeans(start, log, j - 1, id);
    }
  }

  // ---------- Results ----------

  /** Every result but a drained one is of a job taken before, whose task was accepted before that. */
  lemma ResultWasTaken(limit: int, start: int, log: seq<Stamp>, j: nat) returns (i: nat, k: nat)
    requires Fine(limit, start, log) && j < |log| && log[j].entry.Settled? && !log[j].entry.how.Drained?
    ensures i < k && ResultAt(log, k, j) && LastTaken(log, k, j)
    ensures log[i].entry.Accepted? && log[i].entry.id == log[j].entry.id && log[i].entry.task == log[k].entry.task
  {
    hide Fold, Fine, EnabledBetween;
    FineAt(limit, start, log, j);
    k := RunMeans(start, log, j);
    FineAt(limit, start, log, k);
    i := TaskMeans(start, log, k, log[k].entry.id);
  }

  /**
   A robot was stopped between the two moments: a stop went out and walking was
   reported after it, with no other motion command; or the emergency stop it was
   reported in before was reported again.
   */
  ghost predicate StopConfirmed(log: seq<Stamp>, k: nat, j: nat) {
    || Obeyed(log, k, j, StopAction, Walking)
    || (EmergencyAt(log, k) && exists r: nat :: k < r < j && r < |log| && log[r].entry == Reported(EmergencyStop))
  }

  /** An emergency stop is the last report. */
  ghost predicate EmergencyAt(log: seq<Stamp>, k: nat) {
    exists r: nat :: r < k && r < |log| && log[r].entry == Reported(EmergencyStop) && Unheard(log, r, k)
  }

  /** A release or disconnect that succeeds has ended control, and if it was held, with a confirmed stop. */
  lemma ReleaseMeans(limit: int, start: int, log: seq<Stamp>, k: nat, j: nat)
    requires Fine(limit, start, log) && ResultAt(log, k, j) && log[j].entry.how == Ran(true)
    requires log[k].entry.task == Release || log[k].entry.task == Disconnect
    ensures !Holding(log, j) && (Holding(log, k) ==> StopConfirmed(log, k, j))
  {
    hide Fold, Fine, Holding, Obeyed;
    ResultIsEarned(limit, start, log, k, j);
    HeldMeans(start, log, k);
    HeldMeans(start, log, j);
    if Holding(log, k) { HaltMeans(start, log, k, j); }
  }

  lemma HaltMeans(start: int, log: seq<Stamp>, k: nat, j: nat)
    requires k < j <= |log| && log[k].entry.Popped?
    requires Halting(Fold(start, log[..k]).wire, Fold(start, log[..j]).wire)
    ensures StopConfirmed(log, k, j)
  {
    hide Fold, Obeyed;
    var w, w' := Fold(start, log[..k]).wire, Fold(start, log[..j]).wire;
    if w.stops < w'.stops && w'.latest == Order(StopAction) && Walking in w'.answers {
      ObeyedMeans(start, log, k, j, StopAction, Walking);
    } else {
      var before := ReportMeans(start, log, k);
      var again := EmergencyReported(start, log, k, j);
    }
  }

  /** A soft stop that succeeds has ordered the emergency stop, and the robot reported it after that. */
  lemma SoftEstopMeans(limit: int, start: int, log: seq<Stamp>, k: nat, j: nat)
    requires Fine(limit, start, log) && ResultAt(log, k, j) && log[j].entry.how == Ran(true)
    requires log[k].entry.task == SoftEstop
    ensures Obeyed(log, k, j, EmergencyStopCall, EmergencyStop)
  {
    hide Fold, Fine, Obeyed;
    ResultIsEarned(limit, start, log, k, j);
    ObeyedMeans(start, log, k, j, EmergencyStopCall, EmergencyStop);
  }

  /** Lying down that succeeds was ordered and reported after that, and control has ended. */
  lemma LieMeans(limit: int, start: int, log: seq<Stamp>, k: nat, j: nat)
    requires Fine(limit, start, log) && ResultAt(log, k, j) && log[j].entry.how == Ran(true)
    requires log[k].entry.task == Lie
    ensures Obeyed(log, k, j, StartAction(Laying), Laying) && !Holding(log, j)
  {
    hide Fold, Fine, Obeyed, Holding;
    ResultIsEarned(limit, start, log, k, j);
    ObeyedMeans(start, log, k, j, StartAction(Laying), Laying);
    HeldMeans(start, log, j);
  }

  /** Control that was taken with success is held when the caller is told. */
  lemma TakeControlMeans(limit: int, start: int, log: seq<Stamp>, k: nat, j: nat)
    requires Fine(limit, start, log) && ResultAt(log, k, j) && log[j].entry.how == Ran(true)
    requires log[k].entry.task == TakeControl
    ensures Holding(log, j)
  {
    hide Fold, Fine, Holding;
    ResultIsEarned(limit, start, log, k, j);
    HeldMeans(start, log, j);
  }

  /** A preparation succeeds exactly when it has enabled motion, and no other job ever enables any. */
  lemma PreparationMeans(limit: int, start: int, log: seq<Stamp>, k: nat, j: nat)
    requires Fine(limit, start, log) && ResultAt(log, k, j)
    ensures EnabledBetween(log, k, j) <==> Prepares(log[k].entry.task) && log[j].entry.how == Ran(true)
  {
    hide Fold, Fine;
    ResultIsEarned(limit, start, log, k, j);
    if EnabledBetween(log, k, j) {
      var e: nat :| k < e < j && log[e].entry.Enabled?;
      OnlyPreparations(limit, start, log, k, e);
    }
  }

  lemma OnlyPreparations(limit: int, start: int, log: seq<Stamp>, k: nat, e: nat)
    requires Fine(limit, start, log) && e < |log| && LastTaken(log, k, e) && log[e].entry.Enabled?
    ensures Prepares(log[k].entry.task)
  {
    hide Fold, Fine, EnabledBetween;
    FineAt(limit, start, log, e);
    RunningHasRun(start, log, e);
    var last := RunMeans(start, log, e);
    var prepared := LastMeans(start, log, e);
    FineAt(limit, start, log, k);
    var accepted := TaskMeans(start, log, k, log[k].entry.id);
    if accepted < prepared { AcceptedOnce(limit, start, log, accepted, prepared); }
    if prepared < accepted { AcceptedOnce(limit, start, log, prepared, accepted); }
  }

  lemma AcceptedOnce(limit: int, start: int, log: seq<Stamp>, i: nat, j: nat)
    requires Fine(limit, start, log) && i < j < |log| && log[i].entry.Accepted? && log[j].entry.Accepted?
    ensures log[i].entry.id != log[j].entry.id
  {
    FineAt(limit, start, log, i);
    FineAt(limit, start, log, j);
    FoldNext(start, log, i);
    AcceptedGrows(limit, start, log, i + 1, j);
  }

  lemma {:induction false} AcceptedGrows(limit: int, start: int, log: seq<Stamp>, i: nat, j: nat)
    requires Fine(limit, start, log) && i <= j <= |log|
    ensures Fold(start, log[..i]).accepted <= Fold(start, log[..j]).accepted
    decreases j
  {
    if i < j {
      FoldNext(start, log, j - 1);
      FineAt(limit, start, log, j - 1);
      AcceptedGrows(limit, start, log, i, j - 1);
    }
  }

  /**
   A job that threw has enabled nothing, motion is off, and a robot still under
   control was last told to stop in an emergency.
   */
  lemma ThrewMeans(limit: int, start: int, log: seq<Stamp>, k: nat, j: nat)
    requires Fine(limit, start, log) && ResultAt(log, k, j) && log[j].entry.how == Threw
    ensures !EnabledBetween(log, k, j) && forall e: nat :: e < j && log[e].entry.Enabled? ==> !Quiet(log, e, j)
    ensures Holding(log, j) ==> exists m: nat :: OrderedAt(log, m, j, EmergencyStopCall)
  {
    hide Fold, Fine, Holding, OrderedAt;
    ResultIsEarned(limit, start, log, k, j);
    FineAt(limit, start, log, j);
    HeldMeans(start, log, j);
    forall e: nat | e < j && log[e].entry.Enabled? ensures !Quiet(log, e, j) {
      if Quiet(log, e, j) { ReadyStays(start, log, e, j); }
    }
    if Holding(log, j) { var m := OrderedMeans(start, log, j, EmergencyStopCall); }
  }

  lemma {:induction false} IdleStays(start: int, log: seq<Stamp>, i: nat, j: nat)
    requires i <= j <= |log| && Fold(start, log[..i]).hand.running == None
    requires forall m :: i <= m < j ==> !log[m].entry.Popped?
    ensures Fold(start, log[..j]).hand.running == None
    decreases j
  {
    hide Fold, Apply;
    if i < j {
      FoldNext(start, log, j - 1);
      RunNext(Fold(start, log[..j - 1]), log[j - 1]);
      IdleStays(start, log, i, j - 1);
    }
  }

  /** No velocity goes out between the start of a job and its result. */
  lemma NoVelocityInJob(limit: int, start: int, log: seq<Stamp>, k: nat, m: nat, j: nat)
    requires Fine(limit, start, log) && ResultAt(log, k, j) && k < m < j
    ensures !log[m].entry.Sent?
  {
    hide Fold, Fine, EnabledBetween, Earned;
    if log[m].entry.Sent? {
      var moved, read, timed, report := SentWasAccepted(limit, start, log, m);
      assert Disturbs(log[k].entry);
      FineAt(limit, start, log, read);
      ResultIsEarned(limit, start, log, k, j);
      IdleStays(start, log, read, j);
      FineAt(limit, start, log, j);
    }
  }

  /** Overtaken work has commanded no motion and enabled none. */
  lemma SupersededMeans(limit: int, start: int, log: seq<Stamp>, k: nat, j: nat)
    requires Fine(limit, start, log) && ResultAt(log, k, j) && log[j].entry.how == Superseded
    ensures !Urgent(log[k].entry.task) && Motionless(log, k, j) && !EnabledBetween(log, k, j)
  {
    hide Fold, Fine, EnabledBetween;
    ResultIsEarned(limit, start, log, k, j);
    OrderCounts(start, log, k, j);
    forall m | k <= m < j ensures !Moves(log[m].entry) {
      if k < m { NoVelocityInJob(limit, start, log, k, m, j); }
    }
  }
}
