/**
 The control session of the X30 bridge: acquire, release and the control pulse
 that decides when a heartbeat and the one connection query go out. The theorems
 are about every run of such calls, stated on the list of calls itself.
 */
module X30Control {
  import opened Prelude

  datatype Call = Acquire | Release | Pulse(now: int, force: bool)

  /** `last` is None for the least time point, the source's "never sent". */
  datatype Session = Session(latched: bool, started: bool, querySent: bool, last: Option<int>)

  datatype Actions = Actions(active: bool, sessionStarted: bool, heartbeat: bool, query: bool)

  const IDLE := Session(false, false, false, None)
  const NOTHING := Actions(false, false, false, false)

  function Evaluate(s: Session, interval: int, now: int, force: bool): (Session, Actions) {
    if !s.latched then (s, NOTHING)
    else
      var first := !s.started;
      var beat := force || first || s.last == None || now - s.last.value >= interval;
      (Session(true, true, true, if beat then Some(now) else s.last),
       Actions(true, first, beat, !s.querySent))
  }

  function Apply(s: Session, interval: int, c: Call): Session {
    match c
    case Acquire => s.(latched := true)
    case Release => IDLE
    case Pulse(now, force) => Evaluate(s, interval, now, force).0
  }

  function After(calls: seq<Call>, interval: int): Session {
    if calls == [] then IDLE
    else Apply(After(calls[..|calls| - 1], interval), interval, calls[|calls| - 1])
  }

  /** What call i of the run sends. */
  function Sends(calls: seq<Call>, interval: int, i: nat): Actions
    requires i < |calls|
  {
    match calls[i]
    case Pulse(now, force) => Evaluate(After(calls[..i], interval), interval, now, force).1
    case _ => NOTHING
  }

  /** The session object of the bridge; each method is one critical section. */
  class ControlSession {
    const interval: int
    var latched: bool
    var started: bool
    var querySent: bool
    var last: Option<int>
    ghost var calls: seq<Call>

    ghost predicate Valid()
      reads this
    {
      Session(latched, started, querySent, last) == After(calls, interval)
    }

    constructor (interval: int)
      ensures Valid() && calls == [] && this.interval == interval
    {
      this.interval := interval;
      latched, started, querySent, last, calls := false, false, false, None, [];
    }

    method AcquireControl()
      requires Valid()
      modifies this
      ensures Valid() && calls == old(calls) + [Acquire]
    {
      latched := true;
      calls := calls + [Acquire];
      assert calls[..|calls| - 1] == old(calls);
    }

    method ReleaseControlOwnership() returns (had: bool)
      requires Valid()
      modifies this
      ensures Valid() && calls == old(calls) + [Release]
      ensures had <==> LatchedAt(old(calls), |old(calls)|)
    {
      ControlMeans(calls, interval);
      had := latched || started;
      latched := false;
      started := false;
      querySent := false;
      last := None;
      calls := calls + [Release];
      assert calls[..|calls| - 1] == old(calls);
    }

    method EvaluateControlPulse(now: int, forced: bool) returns (actions: Actions)
      requires Valid()
      modifies this
      ensures Valid() && calls == old(calls) + [Pulse(now, forced)]
      ensures actions == Sends(calls, interval, |calls| - 1)
    {
      calls := calls + [Pulse(now, forced)];
      assert calls[..|calls| - 1] == old(calls);
      actions := NOTHING;
      if !latched { return; }
      var force := forced;
      if !started {
        started := true;
        actions := actions.(sessionStarted := true);
        force := true;
      }
      if force || last == None || now - last.value >= interval {
        last := Some(now);
        actions := actions.(heartbeat := true);
      }
      if !querySent {
        querySent := true;
        actions := actions.(query := true);
      }
      actions := actions.(active := true);
    }

    /**
     warmupControl: latch, then forced pulses from now to exactly `warmup` later,
     never more than `pulse` apart. Sleeping is the only thing that takes time.
     */
    method WarmupControl(start: int, warmup: nat, pulse: nat) returns (end: int)
      requires Valid() && 0 < pulse
      modifies this
      ensures Valid() && old(calls) < calls && calls[|old(calls)|] == Acquire
      ensures end == start + warmup
      ensures Train(calls, |old(calls)| + 1, start, end, pulse)
    {
      AcquireControl();
      var deadline := start + warmup;
      var now := start;
      var unused := EvaluateControlPulse(now, true);
      while now < deadline
        invariant Valid() && old(calls) + [Acquire] < calls && start <= now <= deadline
        invariant Train(calls, |old(calls)| + 1, start, now, pulse)
        decreases deadline - now
      {
        now := now + Min(pulse, deadline - now);
        unused := EvaluateControlPulse(now, true);
      }
      end := now;
    }
  }

  /** From index `from` on: forced pulses, the first at start, the last at end, at most `pulse` apart. */
  ghost predicate Train(calls: seq<Call>, from: nat, start: int, end: int, pulse: nat) {
    && from < |calls|
    && (forall i :: from <= i < |calls| ==> calls[i].Pulse? && calls[i].force)
    && calls[from].now == start && calls[|calls| - 1].now == end
    && (forall i :: from < i < |calls| ==> calls[i - 1].now < calls[i].now <= calls[i - 1].now + pulse)
  }

  // ---------- Runs of calls ----------

  /** The last acquire or release before call i, if any, was an acquire. */
  ghost predicate LatchedAt(calls: seq<Call>, i: nat)
    requires i <= |calls|
  {
    exists a: nat :: a < i && calls[a] == Acquire && NoRelease(calls, a, i)
  }

  ghost predicate NoRelease(calls: seq<Call>, a: nat, i: nat)
    requires i <= |calls|
  {
    forall m :: a < m < i ==> calls[m] != Release
  }

  /** Call k is a pulse while latched, in the same session as call i. */
  ghost predicate EarlierPulse(calls: seq<Call>, k: nat, i: nat)
    requires i <= |calls|
  {
    k < i && calls[k].Pulse? && LatchedAt(calls, k) && NoRelease(calls, k, i)
  }

  lemma LatchedPrefix(calls: seq<Call>, n: nat, i: nat)
    requires i <= n <= |calls|
    ensures LatchedAt(calls[..n], i) == LatchedAt(calls, i)
  {
  }

  lemma {:induction false} LatchedMeans(calls: seq<Call>, interval: int)
    ensures After(calls, interval).latched <==> LatchedAt(calls, |calls|)
  {
    if calls != [] {
      var n := |calls| - 1;
      LatchedMeans(calls[..n], interval);
      LatchedPrefix(calls, n, n);
      if calls[n] == Acquire {
        assert NoRelease(calls, n, |calls|);
      } else if calls[n] != Release && LatchedAt(calls, n) {
        var a: nat :| a < n && calls[a] == Acquire && NoRelease(calls, a, n);
        assert NoRelease(calls, a, |calls|);
      } else if a: nat :| a < |calls| && calls[a] == Acquire && NoRelease(calls, a, |calls|) {
        assert NoRelease(calls, a, n);
      }
    }
  }

  /** No heartbeat and no query is ever sent while the session is not latched. */
  lemma SilentUnlessLatched(calls: seq<Call>, interval: int, i: nat)
    requires i < |calls| && Sends(calls, interval, i) != NOTHING
    ensures calls[i].Pulse? && LatchedAt(calls, i)
  {
    LatchedMeans(calls[..i], interval);
    LatchedPrefix(calls, i, i);
  }

  ghost predicate Began(calls: seq<Call>, i: nat)
    requires i <= |calls|
  {
    exists k: nat :: EarlierPulse(calls, k, i)
  }

  /** The latest heartbeat of the session that call i would continue. */
  ghost predicate LatestBeat(calls: seq<Call>, interval: int, j: nat, i: nat)
    requires i <= |calls|
  {
    && EarlierPulse(calls, j, i) && Sends(calls, interval, j).heartbeat
    && forall k :: j < k < i ==> !Sends(calls, interval, k).heartbeat
  }

  lemma EarlierPrefix(calls: seq<Call>, n: nat, k: nat, i: nat)
    requires i <= n <= |calls|
    ensures EarlierPulse(calls[..n], k, i) == EarlierPulse(calls, k, i)
  {
  }

  lemma SendsPrefix(calls: seq<Call>, interval: int, n: nat, j: nat)
    requires j < n <= |calls|
    ensures Sends(calls[..n], interval, j) == Sends(calls, interval, j)
  {
    assert calls[..n][..j] == calls[..j];
  }

  lemma LatestPrefix(calls: seq<Call>, interval: int, n: nat, j: nat, i: nat)
    requires i <= n <= |calls|
    ensures LatestBeat(calls[..n], interval, j, i) == LatestBeat(calls, interval, j, i)
  {
    EarlierPrefix(calls, n, j, i);
    if j < i {
      forall k | j <= k < i ensures Sends(calls[..n], interval, k) == Sends(calls, interval, k) {
        SendsPrefix(calls, interval, n, k);
      }
    }
  }

  lemma {:induction false} StartedMeans(calls: seq<Call>, interval: int)
    ensures var s := After(calls, interval);
      (s.started <==> Began(calls, |calls|)) && (s.querySent <==> s.started)
  {
    if calls != [] {
      var n := |calls| - 1;
      StartedMeans(calls[..n], interval);
      LatchedMeans(calls[..n], interval);
      LatchedPrefix(calls, n, n);
      if k: nat :| EarlierPulse(calls[..n], k, n) {
        EarlierPrefix(calls, n, k, n);
        assert calls[n] != Release ==> EarlierPulse(calls, k, |calls|);
      }
      if k: nat :| EarlierPulse(calls, k, |calls|) {
        if k < n {
          assert EarlierPulse(calls, k, n);
          EarlierPrefix(calls, n, k, n);
        }
      }
      assert calls[n].Pulse? && LatchedAt(calls, n) ==> EarlierPulse(calls, n, |calls|);
    }
  }

  lemma {:induction false} LastMeans(calls: seq<Call>, interval: int)
    ensures var s := After(calls, interval);
      && (s.last.Some? <==> s.started)
      && (s.last.Some? ==> exists j: nat :: LatestBeat(calls, interval, j, |calls|) && calls[j].now == s.last.value)
  {
    if calls != [] {
      var n := |calls| - 1;
      LastMeans(calls[..n], interval);
      LatchedMeans(calls[..n], interval);
      LatchedPrefix(calls, n, n);
      var s := After(calls[..n], interval);
      if Sends(calls, interval, n).heartbeat {
        assert LatestBeat(calls, interval, n, |calls|);
      } else if s.last.Some? && calls[n] != Release {
        var j: nat :| LatestBeat(calls[..n], interval, j, n) && calls[..n][j].now == s.last.value;
        LatestPrefix(calls, interval, n, j, n);
        assert LatestBeat(calls, interval, j, |calls|);
      }
    }
  }

  /**
   One query per ownership session: a call sends it exactly when it is the first
   latched pulse since the last release, and a heartbeat goes with it.
   */
  lemma OneQueryPerSession(calls: seq<Call>, interval: int, i: nat)
    requires i < |calls|
    ensures Sends(calls, interval, i).query <==>
      calls[i].Pulse? && LatchedAt(calls, i) && !Began(calls, i)
    ensures Sends(calls, interval, i).query ==> Sends(calls, interval, i).heartbeat
  {
    LatchedMeans(calls[..i], interval);
    LatchedPrefix(calls, i, i);
    StartedMeans(calls[..i], interval);
    if k: nat :| EarlierPulse(calls[..i], k, i) { EarlierPrefix(calls, i, k, i); }
    if k: nat :| EarlierPulse(calls, k, i) { EarlierPrefix(calls, i, k, i); }
  }

  /** A session that has begun is latched, so having control is having acquired it last. */
  lemma ControlMeans(calls: seq<Call>, interval: int)
    ensures var s := After(calls, interval); s.latched || s.started <==> LatchedAt(calls, |calls|)
  {
    LatchedMeans(calls, interval);
    StartedMeans(calls, interval);
    if k: nat :| EarlierPulse(calls, k, |calls|) {
      var a: nat :| a < k && calls[a] == Acquire && NoRelease(calls, a, k);
      assert NoRelease(calls, a, |calls|);
    }
  }

  /** The clock never runs backwards from pulse to pulse. */
  ghost predicate Monotone(calls: seq<Call>) {
    forall a, b :: 0 <= a < b < |calls| && calls[a].Pulse? && calls[b].Pulse? ==> calls[a].now <= calls[b].now
  }

  lemma BeatBefore(calls: seq<Call>, interval: int, i: nat) returns (j: nat)
    requires i < |calls| && Began(calls, i)
    ensures LatestBeat(calls, interval, j, i) && After(calls[..i], interval).last == Some(calls[j].now)
    ensures After(calls[..i], interval).started
  {
    var k: nat :| EarlierPulse(calls, k, i);
    EarlierPrefix(calls, i, k, i);
    StartedMeans(calls[..i], interval);
    LastMeans(calls[..i], interval);
    j :| LatestBeat(calls[..i], interval, j, i) && calls[..i][j].now == After(calls[..i], interval).last.value;
    LatestPrefix(calls, interval, i, j, i);
  }

  /** The session goes on since a pulse less than one interval after its latest heartbeat. */
  ghost predicate TooSoon(calls: seq<Call>, interval: int, i: nat)
    requires i < |calls| && calls[i].Pulse?
  {
    exists j: nat :: LatestBeat(calls, interval, j, i) && calls[i].now - calls[j].now < interval
  }

  /**
   What a pulse sends, told on the calls before it: nothing unless control was
   acquired and not released since; a heartbeat exactly when it is forced, or the
   first of its session, or an interval after the latest one; the query exactly when
   it is the first of its session.
   */
  lemma PulseMeans(calls: seq<Call>, interval: int, i: nat)
    requires i < |calls| && calls[i].Pulse?
    ensures var a, latched, first := Sends(calls, interval, i), LatchedAt(calls, i), !Began(calls, i);
      && (a.active <==> latched)
      && (a.sessionStarted <==> latched && first)
      && (a.heartbeat <==> latched && (calls[i].force || first || !TooSoon(calls, interval, i)))
      && (a.query <==> latched && first)
  {
    LatchedMeans(calls[..i], interval);
    LatchedPrefix(calls, i, i);
    StartedMeans(calls[..i], interval);
    if k: nat :| EarlierPulse(calls[..i], k, i) { EarlierPrefix(calls, i, k, i); }
    if k: nat :| EarlierPulse(calls, k, i) {
      EarlierPrefix(calls, i, k, i);
      var j := BeatBefore(calls, interval, i);
      assert forall j' :: LatestBeat(calls, interval, j', i) ==> j' == j;
    }
  }

  /** Every pulse of a warm-up is latched and sends a heartbeat. */
  lemma WarmupBeats(calls: seq<Call>, interval: int, from: nat, start: int, end: int, pulse: nat, i: nat)
    requires from > 0 && from <= i < |calls| && calls[from - 1] == Acquire && Train(calls, from, start, end, pulse)
    ensures Sends(calls, interval, i).heartbeat
  {
    assert NoRelease(calls, from - 1, i);
    PulseMeans(calls, interval, i);
  }

  /** An unforced heartbeat comes at least one interval after every earlier heartbeat of its session. */
  lemma UnforcedBeatsAreApart(calls: seq<Call>, interval: int, j: nat, i: nat)
    requires Monotone(calls) && j < i < |calls|
    requires calls[i].Pulse? && !calls[i].force && Sends(calls, interval, i).heartbeat
    requires EarlierPulse(calls, j, i) && Sends(calls, interval, j).heartbeat
    ensures calls[i].now - calls[j].now >= interval
  {
    var last := BeatBefore(calls, interval, i);
    if last < j { assert false; }
  }

  /** Any two pulses in a row, within one session, are at most `spacing` apart. */
  ghost predicate Paced(calls: seq<Call>, spacing: int, k: nat, i: nat)
    requires i < |calls|
  {
    && EarlierPulse(calls, k, i) && calls[i].Pulse?
    && (forall m :: k < m < i ==> !calls[m].Pulse?)
    && calls[i].now - calls[k].now <= spacing
  }

  /**
   Pulses at most `spacing` apart keep the heartbeats less than interval + spacing
   apart: whenever pulse i follows pulse k, the latest heartbeat before i is younger.
   */
  lemma BeatsAreDense(calls: seq<Call>, interval: int, spacing: int, k: nat, i: nat, j: nat)
    requires 0 < interval && i < |calls| && Paced(calls, spacing, k, i)
    requires LatestBeat(calls, interval, j, i)
    ensures calls[i].now - calls[j].now < interval + spacing
  {
    if j != k {
      if j > k { assert false; }
      LatchedMeans(calls[..k], interval);
      LatchedPrefix(calls, k, k);
      assert EarlierPulse(calls, j, k);
      var last := BeatBefore(calls, interval, k);
      if last < j { assert false; }
      if j < last { assert false; }
      assert !Sends(calls, interval, k).heartbeat;
      assert calls[k].now - calls[j].now < interval;
    }
  }
}
