/**
 What every run of the Cyvet back end keeps, stated on the positions of the log
 alone. The class leaves a `Fine` log behind for every pair of scripts; the
 theorems here are about every fine log.
 */
module CyvetSafety {
  import opened Prelude
  import opened CyvetState

  lemma {:induction false} FineAt(limit: int, start: int, log: seq<Stamp>, j: nat)
    requires Fine(limit, start, log) && j < |log|
    ensures Fine(limit, start, log[..j]) && EntryFine(limit, Fold(start, log[..j]), log[j])
    decreases |log|
  {
    var n := |log| - 1;
    if j < n {
      FineAt(limit, start, log[..n], j);
      assert log[..n][..j] == log[..j];
    }
  }

  lemma FoldNext(start: int, log: seq<Stamp>, j: nat)
    requires j < |log|
    ensures Fold(start, log[..j + 1]) == Apply(Fold(start, log[..j]), log[j])
  {
    assert log[..j + 1][..j] == log[..j];
  }

  /** No entry between k and j starts a generation. */
  ghost predicate Quiet(log: seq<Stamp>, k: nat, j: nat) {
    forall m :: k < m < j && m < |log| ==> !Bumps(log[m].entry)
  }

  /** No report was parsed between k and j. */
  ghost predicate Unheard(log: seq<Stamp>, k: nat, j: nat) {
    forall m :: k < m < j && m < |log| ==> !log[m].entry.Reported?
  }

  predicate Disturbs(e: Entry) { e.Read? || e.Sent? || e.Popped? }

  /** The worker neither takes another copy nor sends nor starts a job between k and j. */
  ghost predicate Undisturbed(log: seq<Stamp>, k: nat, j: nat) {
    forall m :: k < m < j && m < |log| ==> !Disturbs(log[m].entry)
  }

  // ---------- What the ledger says of the log ----------

  lemma {:induction false} LastMeans(start: int, log: seq<Stamp>, j: nat) returns (k: nat)
    requires j <= |log| && Fold(start, log[..j]).gate.last.Some?
    ensures k < j && log[k].entry == Fold(start, log[..j]).gate.last.value && Bumps(log[k].entry) && Quiet(log, k, j)
  {
    hide Fold, Apply;
    NothingIsReady(start, log);
    FoldNext(start, log, j - 1);
    GateNext(Fold(start, log[..j - 1]), log[j - 1]);
    if Bumps(log[j - 1].entry) {
      k := j - 1;
    } else {
      k := LastMeans(start, log, j - 1);
    }
  }

  /** What one entry does to the gate. */
  lemma GateNext(l: Ledger, st: Stamp)
    ensures var g := Apply(l, st).gate;
      if Bumps(st.entry) then !g.ready
      else g.generation == l.gate.generation && (g.ready <==> st.entry.Enabled? || l.gate.ready)
    ensures Apply(l, st).gate.last == if Bumps(st.entry) then Some(st.entry) else l.gate.last
    ensures Apply(l, st).clock == st.at
  {
  }

  /** What one entry does to the stop callers. */
  lemma CallersNext(l: Ledger, st: Stamp)
    ensures var e, w := st.entry, Apply(l, st).waiting;
      w == if e.Back? then l.waiting - {e.id}
           else if e.Accepted? && Urgent(e.task) then l.waiting + {e.id}
           else l.waiting
  {
  }

  /** What one entry does to the worker's tests. */
  lemma TestsNext(l: Ledger, st: Stamp)
    ensures var e, h := st.entry, Apply(l, st).hand;
      && h.timed == (if e.Timed? then Some(st.at) else if Disturbs(e) then None else l.hand.timed)
      && h.tested == (if e.Tested? then Some(e.command) else if Disturbs(e) then None else l.hand.tested)
  {
  }

  /** And to its copy. */
  lemma CopyNext(l: Ledger, st: Stamp)
    ensures var e, h := st.entry, Apply(l, st).hand;
      && h.copy == (if e.Read? then Some(e.command) else if e.Popped? then None else l.hand.copy)
      && h.spent == (e.Sent? || (l.hand.spent && !e.Read?))
  {
  }

  /** A velocity or a command that decides how the robot moves. */
  predicate Moves(e: Entry) {
    e.Sent? || (e.Issued? && e.rpc != ReleaseCall)
  }

  /** What one entry does to the wire. */
  lemma WireNext(l: Ledger, st: Stamp)
    ensures var e, w, v := st.entry, l.wire, Apply(l, st).wire;
      && v.report == (if e.Reported? then e.action else w.report)
      && v.latest == (if e.Sent? then Drive else if Moves(e) then Order(e.rpc) else w.latest)
      && v.answers == (if Moves(e) then {} else if e.Reported? then w.answers + {e.action} else w.answers)
      && (v.held <==> e.Gained? || (w.held && !e.Lost? && !e.Left?))
      && v.orders == w.orders + (if e.Issued? && Moves(e) then 1 else 0)
      && v.stops == w.stops + (if e == Issued(StopAction) then 1 else 0)
      && v.emergencies == w.emergencies + (if e == Issued(EmergencyStopCall) then 1 else 0)
      && v.estops == w.estops + (if e == Reported(EmergencyStop) then 1 else 0)
  {
  }

  lemma NothingIsReady(start: int, log: seq<Stamp>)
    ensures Fold(start, log[..0]) == Empty(start)
  {
  }

  /** Enabled motion was enabled for the current generation, and nothing has started another since. */
  lemma {:induction false} ReadyMeans(limit: int, start: int, log: seq<Stamp>, j: nat) returns (k: nat)
    requires Fine(limit, start, log) && j <= |log| && Fold(start, log[..j]).gate.ready
    ensures k < j && log[k].entry == Enabled(Fold(start, log[..j]).gate.generation) && Quiet(log, k, j)
  {
    hide Fold, Fine, Apply;
    NothingIsReady(start, log);
    FoldNext(start, log, j - 1);
    GateNext(Fold(start, log[..j - 1]), log[j - 1]);
    FineAt(limit, start, log, j - 1);
    if log[j - 1].entry.Enabled? {
      k := j - 1;
    } else {
      k := ReadyMeans(limit, start, log, j - 1);
    }
  }

  lemma {:induction false} ReadyStays(start: int, log: seq<Stamp>, k: nat, j: nat)
    requires k < j <= |log| && log[k].entry.Enabled? && Quiet(log, k, j)
    ensures Fold(start, log[..j]).gate.ready
    decreases j
  {
    hide Fold, Apply;
    FoldNext(start, log, j - 1);
    GateNext(Fold(start, log[..j - 1]), log[j - 1]);
    if k < j - 1 {
      ReadyStays(start, log, k, j - 1);
    }
  }

  /** Motion that was on and is off was switched off by an entry that starts a generation. */
  lemma {:induction false} OffMeans(start: int, log: seq<Stamp>, i: nat, j: nat) returns (k: nat)
    requires i <= j <= |log| && Fold(start, log[..i]).gate.ready && !Fold(start, log[..j]).gate.ready
    ensures i <= k < j && Bumps(log[k].entry)
    decreases j
  {
    hide Fold, Apply;
    FoldNext(start, log, j - 1);
    GateNext(Fold(start, log[..j - 1]), log[j - 1]);
    if Bumps(log[j - 1].entry) {
      k := j - 1;
    } else {
      k := OffMeans(start, log, i, j - 1);
    }
  }

  lemma {:induction false} CopyMeans(start: int, log: seq<Stamp>, j: nat, c: Velocity) returns (k: nat)
    requires j <= |log| && Fold(start, log[..j]).hand.copy == Some(c)
    ensures k < j && log[k].entry == Read(c)
    ensures forall m :: k < m < j ==> !log[m].entry.Read? && !log[m].entry.Popped?
  {
    hide Fold, Apply;
    NothingIsReady(start, log);
    FoldNext(start, log, j - 1);
    CopyNext(Fold(start, log[..j - 1]), log[j - 1]);
    if log[j - 1].entry == Read(c) {
      k := j - 1;
    } else {
      k := CopyMeans(start, log, j - 1, c);
    }
  }

  lemma {:induction false} TimedMeans(start: int, log: seq<Stamp>, j: nat, t: int) returns (k: nat)
    requires j <= |log| && Fold(start, log[..j]).hand.timed == Some(t)
    ensures k < j && log[k] == Stamp(t, Timed) && Undisturbed(log, k, j)
  {
    hide Fold, Apply;
    NothingIsReady(start, log);
    FoldNext(start, log, j - 1);
    TestsNext(Fold(start, log[..j - 1]), log[j - 1]);
    if log[j - 1].entry.Timed? {
      k := j - 1;
    } else {
      k := TimedMeans(start, log, j - 1, t);
    }
  }

  lemma {:induction false} TestedMeans(start: int, log: seq<Stamp>, j: nat, c: Velocity) returns (k: nat)
    requires j <= |log| && Fold(start, log[..j]).hand.tested == Some(c)
    ensures k < j && log[k].entry == Tested(c) && Undisturbed(log, k, j)
  {
    hide Fold, Apply;
    NothingIsReady(start, log);
    FoldNext(start, log, j - 1);
    TestsNext(Fold(start, log[..j - 1]), log[j - 1]);
    if log[j - 1].entry.Tested? {
      k := j - 1;
    } else {
      k := TestedMeans(start, log, j - 1, c);
    }
  }

  lemma {:induction false} MovedMeans(start: int, log: seq<Stamp>, j: nat, c: Velocity) returns (k: nat)
    requires j <= |log| && c in Fold(start, log[..j]).moved
    ensures k < j && log[k].entry == Moved(c)
  {
    FoldNext(start, log, j - 1);
    if log[j - 1].entry == Moved(c) {
      k := j - 1;
    } else {
      k := MovedMeans(start, log, j - 1, c);
    }
  }

  lemma {:induction false} ReportMeans(start: int, log: seq<Stamp>, j: nat) returns (k: nat)
    requires j <= |log| && Fold(start, log[..j]).wire.report != NO_ACTION
    ensures k < j && log[k].entry == Reported(Fold(start, log[..j]).wire.report) && Unheard(log, k, j)
  {
    hide Fold, Apply;
    NothingIsReady(start, log);
    FoldNext(start, log, j - 1);
    WireNext(Fold(start, log[..j - 1]), log[j - 1]);
    if log[j - 1].entry.Reported? {
      k := j - 1;
    } else {
      k := ReportMeans(start, log, j - 1);
    }
  }

  lemma {:induction false} ReportStays(start: int, log: seq<Stamp>, k: nat, j: nat)
    requires k < j <= |log| && log[k].entry.Reported? && Unheard(log, k, j)
    ensures Fold(start, log[..j]).wire.report == log[k].entry.action
    decreases j
  {
    hide Fold, Apply;
    NothingIsReady(start, log);
    FoldNext(start, log, j - 1);
    WireNext(Fold(start, log[..j - 1]), log[j - 1]);
    if k < j - 1 {
      ReportStays(start, log, k, j - 1);
    }
  }

  lemma {:induction false} SpentStays(start: int, log: seq<Stamp>, k: nat, j: nat)
    requires k < j <= |log| && log[k].entry.Sent? && forall m :: k < m < j ==> !log[m].entry.Read?
    ensures Fold(start, log[..j]).hand.spent
    decreases j
  {
    hide Fold, Apply;
    FoldNext(start, log, j - 1);
    CopyNext(Fold(start, log[..j - 1]), log[j - 1]);
    if k < j - 1 {
      SpentStays(start, log, k, j - 1);
    }
  }

  ghost predicate Takes(e: Entry, id: nat) {
    (e.Popped? || e.Settled?) && e.id == id
  }

  lemma {:induction false} TakenMeans(start: int, log: seq<Stamp>, j: nat, id: nat) returns (k: nat)
    requires j <= |log| && id in Fold(start, log[..j]).taken
    ensures k < j && Takes(log[k].entry, id)
  {
    FoldNext(start, log, j - 1);
    if Takes(log[j - 1].entry, id) {
      k := j - 1;
    } else {
      k := TakenMeans(start, log, j - 1, id);
    }
  }

  ghost predicate Within(a: Ledger, b: Ledger) {
    && a.urgent <= b.urgent && a.plain <= b.plain && a.taken <= b.taken && a.settled <= b.settled
    && a.hand.failed <= b.hand.failed
  }

  lemma GrowsNext(l: Ledger, st: Stamp)
    ensures Within(l, Apply(l, st))
  {
  }

  /** Everything the ledger collects, except waiting callers, only grows. */
  lemma {:induction false} Grows(start: int, log: seq<Stamp>, i: nat, j: nat)
    requires i <= j <= |log|
    ensures Within(Fold(start, log[..i]), Fold(start, log[..j]))
    decreases j
  {
    hide Apply;
    if i < j {
      Grows(start, log, i, j - 1);
      FoldNext(start, log, j - 1);
      GrowsNext(Fold(start, log[..j - 1]), log[j - 1]);
    }
  }

  lemma BooksNext(limit: int, l: Ledger, st: Stamp)
    requires Books(l) && EntryFine(limit, l, st)
    ensures Books(Apply(l, st))
  {
    match st.entry
    case Accepted(id, task, generation) => BooksGrow(l, task, generation, st.at);
    case Popped(id, urgent, task) => BooksPop(limit, l, st);
    case Settled(id, how) => BooksSettle(limit, l, st);
    case _ =>
  }

  lemma BooksPop(limit: int, l: Ledger, st: Stamp)
    requires Books(l) && EntryFine(limit, l, st) && st.entry.Popped?
    ensures Books(Apply(l, st))
  {
  }

  lemma BooksSettle(limit: int, l: Ledger, st: Stamp)
    requires Books(l) && EntryFine(limit, l, st) && st.entry.Settled?
    ensures Books(Apply(l, st))
  {
  }

  lemma {:induction false} FineBooks(limit: int, start: int, log: seq<Stamp>)
    requires Fine(limit, start, log)
    ensures Books(Fold(start, log))
  {
    hide Books, Apply, EntryFine;
    if log == [] {
      EmptyBooks(start);
    } else {
      var past := log[..|log| - 1];
      FineBooks(limit, start, past);
      BooksNext(limit, Fold(start, past), log[|log| - 1]);
    }
  }

  lemma EmptyBooks(start: int)
    ensures Books(Empty(start))
  {
  }

  /** The clock of the log never goes back. */
  lemma {:induction false} ClockGrows(limit: int, start: int, log: seq<Stamp>, i: nat, j: nat)
    requires Fine(limit, start, log) && i < j < |log|
    ensures log[i].at <= log[j].at
    decreases j
  {
    hide Fold, Fine, Apply;
    FineAt(limit, start, log, j);
    FoldNext(start, log, j - 1);
    GateNext(Fold(start, log[..j - 1]), log[j - 1]);
    if i < j - 1 {
      ClockGrows(limit, start, log, i, j - 1);
    }
  }

  lemma {:induction false} WaitingMeans(start: int, log: seq<Stamp>, i: nat, j: nat, id: nat) returns (k: nat)
    requires i <= j <= |log| && id in Fold(start, log[..i]).waiting && id !in Fold(start, log[..j]).waiting
    ensures i <= k < j && log[k].entry == Back(id)
    decreases j
  {
    hide Fold, Apply;
    k := i;
    if i < j {
      FoldNext(start, log, j - 1);
      CallersNext(Fold(start, log[..j - 1]), log[j - 1]);
      if log[j - 1].entry == Back(id) {
        k := j - 1;
      } else {
        k := WaitingMeans(start, log, i, j - 1, id);
      }
    }
  }

  lemma {:induction false} SettledMeans(start: int, log: seq<Stamp>, j: nat, id: nat) returns (k: nat)
    requires j <= |log| && id in Fold(start, log[..j]).settled
    ensures k < j && log[k].entry.Settled? && log[k].entry.id == id
  {
    FoldNext(start, log, j - 1);
    if log[j - 1].entry.Settled? && log[j - 1].entry.id == id {
      k := j - 1;
    } else {
      k := SettledMeans(start, log, j - 1, id);
    }
  }

  // ---------- Stopping ----------

  ghost predicate StopAt(log: seq<Stamp>, i: nat) {
    i < |log| && log[i].entry.Accepted? && Urgent(log[i].entry.task)
  }

  /** The acceptance of the preparation that a token names. */
  ghost predicate PreparationAt(log: seq<Stamp>, k: nat, token: nat) {
    k < |log| && log[k].entry.Accepted? && Prepares(log[k].entry.task) && log[k].entry.generation == token
  }

  /**
   Motion is only ever enabled by the running preparation whose acceptance is the
   latest entry to have started a generation: nothing was accepted, preempted or
   lost in between.
   */
  lemma EnabledIsCurrent(limit: int, start: int, log: seq<Stamp>, j: nat) returns (k: nat)
    requires Fine(limit, start, log) && j < |log| && log[j].entry.Enabled?
    ensures k < j && PreparationAt(log, k, log[j].entry.token)
    ensures forall i :: 0 <= i < j && Bumps(log[i].entry) ==> i <= k
  {
    FineAt(limit, start, log, j);
    k := LastMeans(start, log, j);
  }

  /** After a stop was accepted, only a preparation accepted later can enable motion. */
  lemma StopsAreFinal(limit: int, start: int, log: seq<Stamp>, i: nat, j: nat) returns (k: nat)
    requires Fine(limit, start, log) && i < j < |log| && StopAt(log, i) && log[j].entry.Enabled?
    ensures i < k < j && PreparationAt(log, k, log[j].entry.token)
  {
    k := EnabledIsCurrent(limit, start, log, j);
    assert Bumps(log[i].entry);
  }

  /** And not before the stop's caller has returned with its result. */
  lemma StopsAreAnswered(limit: int, start: int, log: seq<Stamp>, i: nat, j: nat) returns (settled: nat, back: nat)
    requires Fine(limit, start, log) && i < j < |log| && StopAt(log, i) && log[j].entry.Enabled?
    ensures i < back < j && log[back].entry == Back(log[i].entry.id)
    ensures settled < back && log[settled].entry.Settled? && log[settled].entry.id == log[i].entry.id
  {
    FineAt(limit, start, log, j);
    FoldNext(start, log, i);
    back := WaitingMeans(start, log, i + 1, j, log[i].entry.id);
    FineAt(limit, start, log, back);
    settled := SettledMeans(start, log, back, log[i].entry.id);
  }

  /** Once an emergency stop was reported, no parameters, no stop command and no velocity until the next report. */
  lemma EmergencyStopHolds(limit: int, start: int, log: seq<Stamp>, i: nat, j: nat)
    requires Fine(limit, start, log) && i < j < |log|
    requires log[i].entry == Reported(EmergencyStop) && Unheard(log, i, j)
    ensures !log[j].entry.Sent? && log[j].entry != Issued(StopAction)
    ensures log[j].entry.Issued? ==> !log[j].entry.rpc.SetParams?
  {
    FineAt(limit, start, log, j);
    ReportStays(start, log, i, j);
  }

  // ---------- Velocities ----------

  /** A velocity whose RPC failed is never sent again. */
  lemma NeverReplayed(limit: int, start: int, log: seq<Stamp>, i: nat, j: nat)
    requires Fine(limit, start, log) && i < j < |log| && log[i].entry.Failed? && log[j].entry.Sent?
    ensures log[j].entry.command.id != log[i].entry.command.id
  {
    FineAt(limit, start, log, j);
    FoldNext(start, log, i);
    Grows(start, log, i + 1, j);
  }

  /**
   Every velocity sent was accepted by move; a copy of it was taken after that, the
   clock read after that showed it in time, and walking was the last report.
   */
  lemma SentWasAccepted(limit: int, start: int, log: seq<Stamp>, j: nat)
    returns (moved: nat, read: nat, timed: nat, report: nat)
    requires Fine(limit, start, log) && j < |log| && log[j].entry.Sent?
    ensures moved < read < timed < j && report < j
    ensures log[moved] == Stamp(log[j].entry.command.at, Moved(log[j].entry.command))
    ensures log[read].entry == Read(log[j].entry.command)
    ensures log[timed].entry.Timed? && log[timed].at - log[moved].at <= limit && Undisturbed(log, read, j)
    ensures log[report].entry == Reported(Walking) && Unheard(log, report, j)
  {
    hide Fold, Fine;
    var c := log[j].entry.command;
    FineAt(limit, start, log, j);
    var tested := TestedMeans(start, log, j, c);
    FineAt(limit, start, log, tested);
    read := CopyMeans(start, log, tested, c);
    FineAt(limit, start, log, read);
    moved := MovedMeans(start, log, read, c);
    FineAt(limit, start, log, moved);
    timed := TimedMeans(start, log, j, Fold(start, log[..j]).hand.timed.value);
    report := ReportMeans(start, log, j);
    FineAt(limit, start, log, timed);
    forall m | read < m < j ensures !log[m].entry.Sent? {
      if log[m].entry.Sent? { SpentStays(start, log, m, j); }
    }
  }

  /**
   The generation test before sending: motion was enabled for the velocity's own
   generation, nothing had started another one by then, and the worker does nothing
   else with velocities or jobs before it sends.
   */
  lemma SentIsCurrent(limit: int, start: int, log: seq<Stamp>, j: nat) returns (enabled: nat, tested: nat)
    requires Fine(limit, start, log) && j < |log| && log[j].entry.Sent?
    ensures enabled < tested < j && log[tested].entry == Tested(log[j].entry.command) && Undisturbed(log, tested, j)
    ensures log[enabled].entry == Enabled(log[j].entry.command.generation) && Quiet(log, enabled, tested)
  {
    hide Fold, Fine;
    FineAt(limit, start, log, j);
    tested := TestedMeans(start, log, j, log[j].entry.command);
    FineAt(limit, start, log, tested);
    enabled := ReadyMeans(limit, start, log, tested);
  }

  lemma {:induction false} FailingStays(limit: int, start: int, log: seq<Stamp>, i: nat, j: nat)
    requires Fine(limit, start, log) && i < j <= |log| && log[i].entry.Failed? && Quiet(log, i, j)
    requires forall m :: i < m < j ==> !log[m].entry.Sent? && !log[m].entry.Enabled?
    ensures Fold(start, log[..j]).gate.failing == Some(log[i].entry.command)
    decreases j
  {
    FoldNext(start, log, j - 1);
    if i < j - 1 {
      FailingStays(limit, start, log, i, j - 1);
      FineAt(limit, start, log, j - 1);
    }
  }

  /** The next velocity after a failed one, in the same stretch of enabled motion, is strictly newer. */
  lemma RetryIsNewer(limit: int, start: int, log: seq<Stamp>, i: nat, j: nat)
    requires Fine(limit, start, log) && i < j < |log| && log[i].entry.Failed? && log[j].entry.Sent?
    requires Quiet(log, i, j) && forall m :: i < m < j ==> !log[m].entry.Sent? && !log[m].entry.Enabled?
    ensures log[j].entry.command.at > log[i].entry.command.at
    ensures log[j].entry.command.generation == log[i].entry.command.generation
  {
    FailingStays(limit, start, log, i, j);
    FineAt(limit, start, log, j);
  }

  /**
   Stopping reaches the wire: after an accepted stop was taken from its queue, no
   velocity is sent until motion is enabled by a preparation accepted after the stop.
   */
  lemma StopsReachTheWire(limit: int, start: int, log: seq<Stamp>, i: nat, k: nat, j: nat)
    returns (prepared: nat, enabled: nat)
    requires Fine(limit, start, log) && StopAt(log, i) && k < j < |log|
    requires log[k].entry.Popped? && log[k].entry.id == log[i].entry.id && log[k].entry.urgent && log[j].entry.Sent?
    ensures i < prepared < enabled && k < enabled < j
    ensures log[enabled].entry.Enabled? && PreparationAt(log, prepared, log[enabled].entry.token)
  {
    hide Fold, Fine;
    var tested;
    enabled, tested := SentIsCurrent(limit, start, log, j);
    FineAt(limit, start, log, k);
    if enabled < k { ReadyStays(start, log, enabled, k); }
    TakenAfterAccepted(limit, start, log, i, k);
    prepared := StopsAreFinal(limit, start, log, i, enabled);
  }

  lemma {:induction false} DriveMeans(start: int, log: seq<Stamp>, j: nat) returns (k: nat)
    requires j <= |log| && Fold(start, log[..j]).wire.latest == Drive
    ensures k < j && log[k].entry.Sent? && forall m :: k < m < j ==> !Moves(log[m].entry)
  {
    hide Fold, Apply;
    NothingIsReady(start, log);
    FoldNext(start, log, j - 1);
    WireNext(Fold(start, log[..j - 1]), log[j - 1]);
    if log[j - 1].entry.Sent? {
      k := j - 1;
    } else {
      k := DriveMeans(start, log, j - 1);
    }
  }

  lemma {:induction false} DriveStays(start: int, log: seq<Stamp>, k: nat, j: nat)
    requires k < j <= |log| && log[k].entry.Sent? && forall m :: k < m < j ==> !Moves(log[m].entry)
    ensures Fold(start, log[..j]).wire.latest == Drive
    decreases j
  {
    hide Fold, Apply;
    NothingIsReady(start, log);
    FoldNext(start, log, j - 1);
    WireNext(Fold(start, log[..j - 1]), log[j - 1]);
    if k < j - 1 {
      DriveStays(start, log, k, j - 1);
    }
  }

  lemma {:induction false} TestedStays(start: int, log: seq<Stamp>, k: nat, j: nat)
    requires k < j <= |log| && log[k].entry.Tested? && Undisturbed(log, k, j)
    ensures Fold(start, log[..j]).hand.tested.Some?
    decreases j
  {
    hide Fold, Apply;
    FoldNext(start, log, j - 1);
    TestsNext(Fold(start, log[..j - 1]), log[j - 1]);
    if k < j - 1 {
      TestedStays(start, log, k, j - 1);
    }
  }

  /** Between the test of a velocity and the next motion command after it, nothing enables motion. */
  lemma NotEnabledBetween(limit: int, start: int, log: seq<Stamp>, tested: nat, sent: nat, k: nat)
    requires Fine(limit, start, log) && tested < sent < |log| && tested < k < |log|
    requires log[tested].entry.Tested? && Undisturbed(log, tested, sent)
    requires log[sent].entry.Sent? && forall m :: sent < m < |log| ==> !Moves(log[m].entry)
    ensures !log[k].entry.Enabled?
  {
    hide Fold, Fine;
    FineAt(limit, start, log, k);
    if k <= sent { TestedStays(start, log, tested, k); } else { DriveStays(start, log, sent, k); }
  }

  /**
   No runaway. While the last motion command is a velocity, motion is still on
   exactly when nothing has started a generation since that velocity was tested.
   Where it is on, the worker knows that the robot is moving (`InOrder`).
   */
  lemma NoRunaway(limit: int, start: int, log: seq<Stamp>) returns (tested: nat, sent: nat)
    requires Fine(limit, start, log) && Fold(start, log).wire.latest == Drive
    ensures tested < sent < |log| && log[sent].entry.Sent? && forall m :: sent < m < |log| ==> !Moves(log[m].entry)
    ensures log[tested].entry == Tested(log[sent].entry.command) && Undisturbed(log, tested, sent)
    ensures Fold(start, log).gate.ready <==> Quiet(log, tested, |log|)
  {
    hide Fold, Fine;
    var n := |log|;
    assert log[..n] == log;
    sent := DriveMeans(start, log, n);
    var enabled;
    enabled, tested := SentIsCurrent(limit, start, log, sent);
    if Fold(start, log).gate.ready {
      var again := ReadyMeans(limit, start, log, n);
      if tested < again { NotEnabledBetween(limit, start, log, tested, sent, again); }
    }
    if Quiet(log, tested, n) { ReadyStays(start, log, enabled, n); }
  }

  // ---------- A motion that nobody remembers ----------

  lemma FineNext(limit: int, start: int, log: seq<Stamp>, st: Stamp)
    requires Fine(limit, start, log) && EntryFine(limit, Fold(start, log), st)
    ensures Fine(limit, start, log + [st]) && Fold(start, log + [st]) == Apply(Fold(start, log), st)
  {
    assert (log + [st])[..|log|] == log;
  }

  lemma NothingIsFine(limit: int)
    ensures Fine(limit, 0, []) && Fold(0, []) == Empty(0)
  {
  }

  function AtZero(entries: seq<Entry>): seq<Stamp> {
    seq(|entries|, i requires 0 <= i < |entries| => Stamp(0, entries[i]))
  }

  lemma EntryNext(limit: int, es: seq<Entry>, e: Entry)
    requires Fine(limit, 0, AtZero(es)) && EntryFine(limit, Fold(0, AtZero(es)), Stamp(0, e))
    ensures Fine(limit, 0, AtZero(es + [e]))
    ensures Fold(0, AtZero(es + [e])) == Apply(Fold(0, AtZero(es)), Stamp(0, e))
  {
    FineNext(limit, 0, AtZero(es), Stamp(0, e));
    assert AtZero(es + [e]) == AtZero(es) + [Stamp(0, e)];
  }

  /** The robot is connected. */
  function Connection(): seq<Entry> {
    [Accepted(0, Connect, 0)] + [Popped(0, false, Connect)] + [Settled(0, Ran(true))]
  }

  /** Then a preparation is accepted and taken. */
  function Preparation(): seq<Entry> {
    Connection() + [Accepted(1, Stand, 1)] + [Popped(1, false, Stand)]
  }

  /** It takes control, finds the robot walking, and has the walk started and reported. */
  function Walk(): seq<Entry> {
    Preparation() + [Gained] + [Reported(Walking)] + [Issued(StartAction(Walking))] + [Reported(Walking)]
  }

  /** It ends with motion on. */
  function Standing(): seq<Entry> {
    Walk() + [Enabled(1)] + [Settled(1, Ran(true))]
  }

  lemma ConnectionIsFine(limit: int)
    ensures Fine(limit, 0, AtZero(Connection()))
    ensures Fold(0, AtZero(Connection())) ==
      Empty(0).(accepted := 1, plain := {0}, taken := {0}, settled := {0},
                tasks := map[0 := Connect],
                hand := Pop(Empty(0).hand, 0, false, Connect, Empty(0).wire).(running := None))
  {
    NothingIsFine(limit);
    hide Fold, Fine;
    var es: seq<Entry> := [];
    assert AtZero(es) == [];
    EntryNext(limit, es, Accepted(0, Connect, 0));
    es := es + [Accepted(0, Connect, 0)];
    EntryNext(limit, es, Popped(0, false, Connect));
    es := es + [Popped(0, false, Connect)];
    EntryNext(limit, es, Settled(0, Ran(true)));
    assert Connection() == es + [Settled(0, Ran(true))];
  }

  lemma PreparationIsFine(limit: int)
    ensures Fine(limit, 0, AtZero(Preparation()))
    ensures var l := Fold(0, AtZero(Preparation()));
      && l.clock == 0 && l.accepted == 2 && l.waiting == {} && l.moves == 0 && l.hand.failed == {}
      && l.urgent == {} && l.plain == {0, 1} && l.settled == {0}
      && l.hand.running == Some(1) && l.hand.run == Some(Run(Stand, Empty(0).wire, false)) && l.hand.tested == None
      && l.gate == Gate(1, false, Some(Accepted(1, Stand, 1)), None)
      && l.wire == Empty(0).wire
  {
    ConnectionIsFine(limit);
    hide Fold, Fine, Connection;
    var es := Connection();
    EntryNext(limit, es, Accepted(1, Stand, 1));
    EntryNext(limit, es + [Accepted(1, Stand, 1)], Popped(1, false, Stand));
  }

  lemma WalkIsFine(limit: int)
    ensures Fine(limit, 0, AtZero(Walk()))
    ensures var l := Fold(0, AtZero(Walk()));
      && l.clock == 0 && l.accepted == 2 && l.waiting == {} && l.moves == 0 && l.hand.failed == {}
      && l.urgent == {} && l.plain == {0, 1} && l.settled == {0}
      && l.hand.running == Some(1) && l.hand.run == Some(Run(Stand, Empty(0).wire, false)) && l.hand.tested == None
      && l.gate == Gate(1, false, Some(Accepted(1, Stand, 1)), None)
      && l.wire.report == Walking && l.wire.latest != Drive && l.wire.stops == l.wire.emergencies == 0
  {
    PreparationIsFine(limit);
    hide Fold, Fine, Preparation;
    var es := Preparation();
    EntryNext(limit, es, Gained);
    es := es + [Gained];
    EntryNext(limit, es, Reported(Walking));
    es := es + [Reported(Walking)];
    EntryNext(limit, es, Issued(StartAction(Walking)));
    EntryNext(limit, es + [Issued(StartAction(Walking))], Reported(Walking));
  }

  lemma StandingIsFine(limit: int)
    ensures Fine(limit, 0, AtZero(Standing()))
    ensures var l := Fold(0, AtZero(Standing()));
      && l.clock == 0 && l.accepted == 2 && l.waiting == {} && l.moves == 0 && l.hand.failed == {}
      && l.urgent == {} && l.hand.running == None
      && l.gate.ready && l.gate.generation == 1 && l.gate.failing == None && l.wire.report == Walking
      && l.wire.stops == l.wire.emergencies == 0
  {
    WalkIsFine(limit);
    hide Fold, Fine, Walk;
    EntryNext(limit, Walk(), Enabled(1));
    EntryNext(limit, Walk() + [Enabled(1)], Settled(1, Ran(true)));
  }

  /** From there on a velocity is accepted, copied, tested in time and sent. */
  function Driving(c: Velocity): seq<Entry> {
    Standing() + [Moved(c)] + [Read(c)] + [Timed] + [Tested(c)] + [Sent(c)]
  }

  lemma DrivingIsFine(limit: nat, c: Velocity)
    requires c.id == 0 && c.at == 0 && c.generation == 1
    ensures Fine(limit, 0, AtZero(Driving(c)))
    ensures var l := Fold(0, AtZero(Driving(c)));
      && l.clock == 0 && l.accepted == 2 && l.waiting == {} && l.gate.generation == 1 && l.wire.latest == Drive
      && l.urgent == {} && l.wire.stops == l.wire.emergencies == 0
  {
    StandingIsFine(limit);
    hide Fold, Fine, Standing;
    var es := Standing();
    EntryNext(limit, es, Moved(c));
    EntryNext(limit, es + [Moved(c)], Read(c));
    EntryNext(limit, es + [Moved(c)] + [Read(c)], Timed);
    EntryNext(limit, es + [Moved(c)] + [Read(c)] + [Timed], Tested(c));
    EntryNext(limit, es + [Moved(c)] + [Read(c)] + [Timed] + [Tested(c)], Sent(c));
  }

  /**
   A log in which a velocity goes out and then another preparation is accepted is
   allowed: motion is off and the robot was last told to drive, yet no stop was
   accepted or ordered. `ForgetDrive` shows the worker itself leaving it so.
   */
  lemma DriveOutlivesItsGeneration(limit: nat, c: Velocity) returns (log: seq<Stamp>)
    requires c.id == 0 && c.at == 0 && c.generation == 1
    ensures Fine(limit, 0, log) && Fold(0, log).wire.latest == Drive && !Fold(0, log).gate.ready
    ensures Fold(0, log).urgent == {} && Fold(0, log).wire.stops == Fold(0, log).wire.emergencies == 0
  {
    DrivingIsFine(limit, c);
    hide Fold, Fine, Driving;
    EntryNext(limit, Driving(c), Accepted(2, Stand, 2));
    log := AtZero(Driving(c) + [Accepted(2, Stand, 2)]);
  }

  // ---------- Jobs ----------

  /** Stops run in the order in which they were accepted, and so does the other work. */
  lemma JobsInOrder(limit: int, start: int, log: seq<Stamp>, i: nat, j: nat)
    requires Fine(limit, start, log) && i < j < |log|
    requires log[i].entry.Popped? && log[j].entry.Popped? && log[i].entry.urgent == log[j].entry.urgent
    ensures log[i].entry.id < log[j].entry.id
  {
    hide Fold, Fine;
    FineAt(limit, start, log, i);
    FineAt(limit, start, log, j);
    FineBooks(limit, start, log[..i]);
    FineBooks(limit, start, log[..j]);
    FoldNext(start, log, i);
    Grows(start, log, i, i + 1);
    Grows(start, log, i + 1, j);
  }

  /** No other work is popped while an accepted stop is still queued. */
  lemma StopsFirst(limit: int, start: int, log: seq<Stamp>, i: nat, j: nat) returns (k: nat)
    requires Fine(limit, start, log) && i < j < |log|
    requires StopAt(log, i) && log[j].entry.Popped? && !log[j].entry.urgent
    ensures i < k < j && Takes(log[k].entry, log[i].entry.id)
  {
    FineAt(limit, start, log, j);
    FoldNext(start, log, i);
    Grows(start, log, i + 1, j);
    k := TakenMeans(start, log, j, log[i].entry.id);
    TakenAfterAccepted(limit, start, log, i, k);
  }

  lemma TakenAfterAccepted(limit: int, start: int, log: seq<Stamp>, i: nat, k: nat)
    requires Fine(limit, start, log) && i < |log| && k < |log|
    requires log[i].entry.Accepted? && Takes(log[k].entry, log[i].entry.id)
    ensures i < k
  {
    hide Fold, Fine;
    FineAt(limit, start, log, i);
    FineAt(limit, start, log, k);
    FineBooks(limit, start, log[..i]);
    if k < i { Grows(start, log, k, i); }
  }

  /** No job ever gets two results. */
  lemma OneResult(limit: int, start: int, log: seq<Stamp>, i: nat, j: nat)
    requires Fine(limit, start, log) && i < j < |log| && log[i].entry.Settled? && log[j].entry.Settled?
    ensures log[i].entry.id != log[j].entry.id
  {
    FineAt(limit, start, log, j);
    FoldNext(start, log, i);
    Grows(start, log, i + 1, j);
  }

  /** A stop is never answered as superseded. */
  lemma StopsAlwaysRun(limit: int, start: int, log: seq<Stamp>, i: nat, j: nat)
    requires Fine(limit, start, log) && StopAt(log, i) && j < |log|
    requires log[j].entry.Settled? && log[j].entry.id == log[i].entry.id
    ensures i < j && !log[j].entry.how.Superseded?
  {
    hide Fold, Fine;
    TakenAfterAccepted(limit, start, log, i, j);
    FineAt(limit, start, log, j);
    FineBooks(limit, start, log[..j]);
    FoldNext(start, log, i);
    Grows(start, log, i + 1, j);
  }
}
