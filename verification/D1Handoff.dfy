/**
 The handoff between a successful charge exit and the charge state the bridge
 reports: they agree at once, stay in agreement, and part immediately when the
 SDK or the telemetry contradicts the exit.
 */
module D1Handoff {
  import opened Prelude
  import opened D1State
  import opened D1History
  import opened D1Backend

  /** Callbacks that do not contradict a confirmed exit. */
  predicate Calm(e: Event) {
    match e
    case Telemetry(sample, _) => ShowsExit(sample)
    case TaskUpdate(task, _) => !ChargeActivity(task)
    case _ => false
  }

  predicate Confirmed(d: Digest) { d.confirmed && (!d.pile || !IsCharging(d)) }

  lemma HandoffConfirms(h: seq<Event>, h': seq<Event>, extra: set<Event>, p: Proof)
    requires Handoff(h, h', extra, p)
    ensures Confirmed(Fold(h')) && !Fold(h').required && FreshAt(Fold(h'), p.at) && FreshAt(Fold(Front(h')), p.at)
  {
    var front := h'[..|h'| - 1];
    WaitRefinesHistory(front, p.min, p.started, p.at);
  }

  /** The wait of a successful call: where it began, and that its last look was at the proof's time. */
  lemma WaitOf(h: seq<Event>, h': seq<Event>, s: UndockScript, p: Proof) returns (base: seq<Event>)
    requires Pinned(h, h', s, p) && UndockScriptOk(s) && p.path == Waited
    ensures Began(h + s.first.callbacks, s, p, base) && Through(base, Front(h'), p.started, s.wakes, p.at)
  {
    base :| Began(h + s.first.callbacks, s, p, base) && Completes(base, h', s.wakes, p);
    AwaitUndockShape(base, p.min, p.started, p.started, s.wakes);
  }

  /**
   Agreement: when startUndock succeeds, the charge state is 0 at the very look
   that accepted the exit, at the time of that look: the call's second section, or
   the wake of its wait after which the exit was accepted. It is 0 at every other
   time at which the last sample is fresh, too.
   */
  lemma HandoffIsIdle(h: seq<Event>, h': seq<Event>, extra: set<Event>, s: UndockScript, p: Proof)
    returns (base: seq<Event>)
    requires Handoff(h, h', extra, p) && Pinned(h, h', s, p) && UndockScriptOk(s)
    ensures match p.path
      case AlreadyExited => p.at == s.second.at
      case Waited => Began(h + s.first.callbacks, s, p, base) && Through(base, Front(h'), p.started, s.wakes, p.at)
    ensures FreshAt(Fold(Front(h')), p.at) && ChargeCode(Fold(h'), p.at) == 0
    ensures forall now :: FreshAt(Fold(h'), now) ==> ChargeCode(Fold(h'), now) == 0
  {
    hide Fold, Handoff, Began, Through, Adds, Completes;
    HandoffConfirms(h, h', extra, p);
    base := [];
    if p.path == Waited { base := WaitOf(h, h', s, p); }
  }

  lemma {:induction false} CalmKeeps(h: seq<Event>, es: seq<Event>)
    requires Confirmed(Fold(h)) && forall e :: e in es ==> Calm(e)
    ensures Confirmed(Fold(h + es))
  {
    if es == [] {
      assert h + es == h;
    } else {
      var n := |es| - 1;
      CalmKeeps(h, es[..n]);
      assert es[n] in es;
      assert (h + es)[..|h + es| - 1] == h + es[..n];
    }
  }

  /**
   Stability: under any exit-consistent continuation without a new charge call the
   state stays 0 at every moment less than five seconds after the latest sample.
   */
  lemma StaysIdle(h: seq<Event>, h': seq<Event>, extra: set<Event>, p: Proof, es: seq<Event>, now: int)
    requires Handoff(h, h', extra, p)
    requires forall e :: e in es ==> Calm(e)
    requires FreshAt(Fold(h' + es), now)
    ensures ChargeCode(Fold(h' + es), now) == 0
  {
    HandoffConfirms(h, h', extra, p);
    CalmKeeps(h', es);
  }

  /** After a confirmed exit one more callback keeps the state at 0 exactly when it is calm. */
  lemma IdleIffCalm(h: seq<Event>, e: Event, now: int)
    requires Confirmed(Fold(h)) && Callback(e) && FreshAt(Fold(h + [e]), now)
    ensures ChargeCode(Fold(h + [e]), now) == 0 <==> Calm(e)
  {
  }

  /** Contradiction shows at once and at any time, fresh or stale, whatever came before. */
  lemma ContradictionShows(h: seq<Event>, e: Event, now: int)
    requires Callback(e) && !Calm(e)
    ensures ChargeCode(Fold(h + [e]), now) != 0
  {
  }

  // ---------- Linear use of evidence ----------

  lemma WaitEvidence(h: seq<Event>, h': seq<Event>, extra: set<Event>, p: Proof) returns (s: nat, t: nat)
    requires Handoff(h, h', extra, p) && p.path == Waited
    ensures Consumes(h', |h'| - 1, s) && Ordinal(h', s) > p.min && LastTelemetry(Front(h'), t)
    ensures h'[t].at >= Max(p.started, h'[s].at) && p.at - h'[t].at < FRESH_MS && ShowsExit(h'[t].sample)
  {
    var front := Front(h');
    var s': nat, t': nat :|
      && LastUpdate(front, s', UndockTask, Success) && Ordinal(front, s') > p.min && Unspent(front, s')
      && LastTelemetry(front, t')
      && front[t'].at >= p.started && front[t'].at >= front[s'].at && p.at - front[t'].at < FRESH_MS
      && ShowsExit(front[t'].sample);
    s, t := s', t';
    OrdinalOfPrefix(h', |h'| - 1, s);
  }

  /** What carries a number above the count of a prefix was reported after it. */
  lemma ReportedAfter(h: seq<Event>, n: nat, s: nat)
    requires n <= |h| && s < |h| && Ordinal(h, s) > TaskCount(h[..n])
    ensures s >= n
  {
    if s < n { CountMonotone(h, s + 1, n); }
  }

  /** Where the evidence of a wait lies, for each way the wait may have begun. */
  lemma EvidenceSince(e: seq<Event>, h': seq<Event>, s: UndockScript, p: Proof, base: seq<Event>, i: nat)
    requires h' != [] && Began(e, s, p, base) && base <= Front(h')
    requires i < |h'| && Ordinal(h', i) > p.min && LastUpdate(Front(h'), i, UndockTask, Success)
    ensures i >= |e| || (Reused(e, s, p, base) && LastUpdate(e, i, UndockTask, Success))
  {
    hide Fold;
    assert e <= base;
    assert h'[..|e|] == e;
    if Joined(e, s, p, base) {
      ReportedAfter(h', |e|, i);
    } else if Commanded(e, s, p, base) {
      var before :| e <= before && p.min == TaskCount(before) && base == before + [UndockCommanded] + s.fifth.callbacks;
      assert h'[..|before|] == before;
      ReportedAfter(h', |before|, i);
    } else if i < |e| {
      assert forall k :: i <= k < |e| ==> e[k] == Front(h')[k];
    }
  }

  /**
   A success by waiting consumes the latest unspent UNDOCK SUCCESS. That was
   reported after the call's first section, or it was the current task there. The
   last sample is no older than it and than the wait, under five seconds old at the
   time of the wake after which the exit was accepted, and shows the exit.
   */
  lemma WaitConsumes(h: seq<Event>, h': seq<Event>, extra: set<Event>, script: UndockScript, p: Proof)
    returns (base: seq<Event>, s: nat, t: nat)
    requires Handoff(h, h', extra, p) && Pinned(h, h', script, p) && UndockScriptOk(script) && p.path == Waited
    ensures Began(h + script.first.callbacks, script, p, base)
    ensures Through(base, Front(h'), p.started, script.wakes, p.at)
    ensures Consumes(h', |h'| - 1, s) && LastTelemetry(Front(h'), t)
    ensures var e := h + script.first.callbacks;
      s >= |e| || (Reused(e, script, p, base) && LastUpdate(e, s, UndockTask, Success))
    ensures h'[t].at >= Max(p.started, h'[s].at) && p.at - h'[t].at < FRESH_MS && ShowsExit(h'[t].sample)
  {
    hide Fold, Began, Pinned, Reused;
    s, t := WaitEvidence(h, h', extra, p);
    base := WaitOf(h, h', script, p);
    EvidenceSince(h + script.first.callbacks, h', script, p, base, s);
  }

  lemma ConsumesGrows(h: seq<Event>, h': seq<Event>, at: nat, s: nat)
    requires h <= h' && Consumes(h, at, s)
    ensures Consumes(h', at, s)
  {
  }

  lemma HandoffGrows(h: seq<Event>, h': seq<Event>, extra: set<Event>, p: Proof)
    requires Handoff(h, h', extra, p)
    ensures h < h'
  {
  }

  lemma PrefixTrans(h1: seq<Event>, h2: seq<Event>, h3: seq<Event>)
    requires h1 <= h2 < h3
    ensures h1 < h3
  {
  }

  /**
   Two startUndock calls that succeed by waiting, with any history between them,
   consume different UNDOCK SUCCESS events with strictly increasing numbers.
   */
  lemma WaitsUseDistinctEvidence(
      h: seq<Event>, h1: seq<Event>, p1: Proof, h2: seq<Event>, h3: seq<Event>, p2: Proof, extra: set<Event>)
    returns (s1: nat, s2: nat)
    requires Handoff(h, h1, extra, p1) && p1.path == Waited
    requires h1 <= h2 && Handoff(h2, h3, extra, p2) && p2.path == Waited
    ensures Consumes(h3, |h1| - 1, s1) && Consumes(h3, |h3| - 1, s2)
    ensures s1 < s2 < |h3| && Ordinal(h3, s1) < Ordinal(h3, s2)
  {
    hide *;
    HandoffGrows(h, h1, extra, p1);
    HandoffGrows(h2, h3, extra, p2);
    PrefixTrans(h1, h2, h3);
    var t1, t2;
    s1, t1 := WaitEvidence(h, h1, extra, p1);
    s2, t2 := WaitEvidence(h2, h3, extra, p2);
    ConsumesGrows(h1, h3, |h1| - 1, s1);
    EvidenceIsLinear(h3, |h1| - 1, s1, |h3| - 1, s2);
  }
}
