/**
 The D1 Max back end object: SDK callbacks that overwrite a few fields, and the
 synchronous charge calls that wait on them.

 Callbacks run whenever a call has released the lock. They are supplied by the
 caller as scripts: what ran between two sections of a call, and what ran during
 each wait on the condition variable. A method is verified for every script.
 The ghost `history` lists every writing section so far; `Valid` says the fields
 are its digest, so the contracts can speak of the history itself.
 */
module D1Backend {
  import opened Prelude
  import opened D1State
  import opened D1History
  import opened D1Flags

  /** What happens during one wait on the condition variable. */
  datatype Wake = Wake(callbacks: seq<Event>, at: int, timedOut: bool)

  /** Callbacks between two sections of a call, and the clock afterwards. */
  datatype Gap = Gap(callbacks: seq<Event>, at: int)

  datatype Result = Done | Failed | TimedOut | NotSent | Refused | SdkError

  /** How startUndock reached its success. */
  datatype Path = AlreadyExited | Waited

  predicate Callbacks(es: seq<Event>) { forall e :: e in es ==> Callback(e) }

  predicate WakesOk(wakes: seq<Wake>) { forall w :: w in wakes ==> Callbacks(w.callbacks) }

  // ---------- Waiting, told on histories ----------

  datatype Ending = Ending(result: Result, history: seq<Event>, at: int)

  /**
   Waiting for an undock: at each wake the history decides, and a timeout ends
   the wait without another look. Running out of wakes is a timeout.
   */
  ghost function AwaitUndock(h: seq<Event>, min: nat, started: int, now: int, wakes: seq<Wake>): Ending
    decreases |wakes|
  {
    if HistoryFails(h, min) then Ending(Failed, h, now)
    else if HistorySucceeds(h, min, started, now) then Ending(Done, h + [ExitAccepted], now)
    else if wakes == [] then Ending(TimedOut, h, now)
    else if wakes[0].timedOut then Ending(TimedOut, h + wakes[0].callbacks, wakes[0].at)
    else AwaitUndock(h + wakes[0].callbacks, min, started, wakes[0].at, wakes[1..])
  }

  ghost function AwaitUpdate(
      h: seq<Event>, kind: TaskType, status: TaskStatus, min: nat, now: int, wakes: seq<Wake>): Ending
    decreases |wakes|
  {
    if Reported(h, kind, status, min) then Ending(Done, h, now)
    else if wakes == [] then Ending(TimedOut, h, now)
    else if wakes[0].timedOut then Ending(TimedOut, h + wakes[0].callbacks, wakes[0].at)
    else AwaitUpdate(h + wakes[0].callbacks, kind, status, min, wakes[0].at, wakes[1..])
  }

  lemma {:induction false} FoldAppend(h: seq<Event>, e: Event)
    ensures Fold(h + [e]) == Apply(Fold(h), e)
  {
  }

  // ---------- Facts about the waits ----------

  /** The callbacks of these wakes, and the clock after the last of them. */
  function Ran(wakes: seq<Wake>): seq<Event> {
    if wakes == [] then [] else wakes[0].callbacks + Ran(wakes[1..])
  }

  function Clock(now: int, wakes: seq<Wake>): int
    decreases |wakes|
  {
    if wakes == [] then now else Clock(wakes[0].at, wakes[1..])
  }

  /** From h to h' exactly these wakes, and that is the time after them. */
  predicate WentThrough(h: seq<Event>, h': seq<Event>, now: int, wakes: seq<Wake>, at: int) {
    h' == h + Ran(wakes) && at == Clock(now, wakes)
  }

  /** A wait from h went through the first few of its wakes. */
  ghost predicate Through(h: seq<Event>, h': seq<Event>, now: int, wakes: seq<Wake>, at: int) {
    exists k: nat :: k <= |wakes| && WentThrough(h, h', now, wakes[..k], at)
  }

  lemma ThroughNow(h: seq<Event>, now: int, wakes: seq<Wake>)
    ensures Through(h, h, now, wakes, now)
  {
    assert WentThrough(h, h, now, wakes[..0], now);
  }

  lemma ThroughNext(h: seq<Event>, h': seq<Event>, now: int, wakes: seq<Wake>, at: int)
    requires wakes != [] && Through(h + wakes[0].callbacks, h', wakes[0].at, wakes[1..], at)
    ensures Through(h, h', now, wakes, at)
  {
    var k: nat :| k <= |wakes| - 1 && WentThrough(h + wakes[0].callbacks, h', wakes[0].at, wakes[1..][..k], at);
    assert wakes[..k + 1][1..] == wakes[1..][..k];
    assert WentThrough(h, h', now, wakes[..k + 1], at);
  }

  lemma ThroughOne(h: seq<Event>, now: int, wakes: seq<Wake>)
    requires wakes != []
    ensures Through(h, h + wakes[0].callbacks, now, wakes, wakes[0].at)
  {
    ThroughNow(h + wakes[0].callbacks, wakes[0].at, wakes[1..]);
    ThroughNext(h, h + wakes[0].callbacks, now, wakes, wakes[0].at);
  }

  ghost predicate AcceptedAfter(h: seq<Event>, h': seq<Event>, min: nat, started: int, now: int) {
    && h' != [] && h'[|h'| - 1] == ExitAccepted
    && Adds(h, h'[..|h'| - 1], {})
    && HistorySucceeds(h'[..|h'| - 1], min, started, now)
  }

  /** The history at the last look of a wait, before the handoff if there was one. */
  function Looked(e: Ending): seq<Event> {
    if e.result == Done && e.history != [] then e.history[..|e.history| - 1] else e.history
  }

  /** A wait only adds callbacks, and a success adds the handoff that rests on them. */
  ghost predicate WaitShape(h: seq<Event>, e: Ending, min: nat, started: int) {
    match e.result
    case Done => AcceptedAfter(h, e.history, min, started, e.at)
    case Failed => Adds(h, e.history, {}) && HistoryFails(e.history, min)
    case TimedOut => Adds(h, e.history, {})
    case _ => false
  }

  lemma StillAdds(h: seq<Event>)
    ensures Adds(h, h, {})
  {
  }

  lemma CallbacksAdd(h: seq<Event>, es: seq<Event>)
    requires Callbacks(es)
    ensures Adds(h, h + es, {})
  {
  }

  lemma {:induction false} AwaitUndockShape(h: seq<Event>, min: nat, started: int, now: int, wakes: seq<Wake>)
    requires WakesOk(wakes)
    ensures var e := AwaitUndock(h, min, started, now, wakes);
      WaitShape(h, e, min, started) && Through(h, Looked(e), now, wakes, e.at)
    decreases |wakes|
  {
    hide HistoryFails, HistorySucceeds;
    ThroughNow(h, now, wakes);
    if HistoryFails(h, min) {
    } else if HistorySucceeds(h, min, started, now) {
      assert (h + [ExitAccepted])[..|h|] == h;
    } else if wakes != [] {
      ThroughOne(h, now, wakes);
      assert wakes[0] in wakes;
      var h' := h + wakes[0].callbacks;
      CallbacksAdd(h, wakes[0].callbacks);
      if !wakes[0].timedOut {
        AwaitUndockShape(h', min, started, wakes[0].at, wakes[1..]);
        var e := AwaitUndock(h', min, started, wakes[0].at, wakes[1..]);
        AddsTrans(h, h', Looked(e), {});
        ThroughNext(h, Looked(e), now, wakes, e.at);
      }
    }
  }

  lemma {:induction false} AwaitUpdateShape(
      h: seq<Event>, kind: TaskType, status: TaskStatus, min: nat, now: int, wakes: seq<Wake>)
    requires WakesOk(wakes)
    ensures var e := AwaitUpdate(h, kind, status, min, now, wakes);
      && Adds(h, e.history, {})
      && (e.result == Done || e.result == TimedOut)
      && (e.result == Done ==> Reported(e.history, kind, status, min))
    decreases |wakes|
  {
    if !Reported(h, kind, status, min) && wakes != [] {
      assert wakes[0] in wakes;
      var h' := h + wakes[0].callbacks;
      CallbacksAdd(h, wakes[0].callbacks);
      if !wakes[0].timedOut {
        AwaitUpdateShape(h', kind, status, min, wakes[0].at, wakes[1..]);
        AddsTrans(h, h', AwaitUpdate(h', kind, status, min, wakes[0].at, wakes[1..]).history, {});
      }
    }
  }

  lemma OldCount(h: seq<Event>, h': seq<Event>)
    requires h <= h'
    ensures TaskCount(h) <= TaskCount(h')
  {
  }

  lemma ReportedSince(h: seq<Event>, kind: TaskType, status: TaskStatus, earlier: nat, min: nat)
    requires earlier <= min
    ensures Reported(h, kind, status, min) ==> Reported(h, kind, status, earlier)
  {
  }

  lemma DemandKept(h: seq<Event>, h': seq<Event>)
    requires Adds(h, h', {UndockDemanded, UndockCommanded})
    ensures Fold(h).required ==> Fold(h').required
    ensures Fold(h).required && Fold(h).pile && LinkUp(h', |h|) ==> Fold(h').pile
  {
    if Fold(h).required { DemandStands(h, h'); }
  }

  /** Waiting for a recharge to start, told on the digest of the growing history. */
  ghost function AwaitStart(h: seq<Event>, min: nat, now: int, wakes: seq<Wake>): Ending
    decreases |wakes|
  {
    if StartFails(Fold(h), min) then Ending(Failed, h, now)
    else if StartSucceeds(Fold(h), min, now) then Ending(Done, h, now)
    else if wakes == [] then Ending(TimedOut, h, now)
    else if wakes[0].timedOut then Ending(TimedOut, h + wakes[0].callbacks, wakes[0].at)
    else AwaitStart(h + wakes[0].callbacks, min, wakes[0].at, wakes[1..])
  }

  lemma {:induction false} AwaitStartShape(h: seq<Event>, min: nat, now: int, wakes: seq<Wake>)
    requires WakesOk(wakes)
    ensures var e := AwaitStart(h, min, now, wakes);
      && Adds(h, e.history, {}) && Through(h, e.history, now, wakes, e.at)
      && (e.result == Done ==> StartSucceeds(Fold(e.history), min, e.at))
    decreases |wakes|
  {
    ThroughNow(h, now, wakes);
    if !StartFails(Fold(h), min) && !StartSucceeds(Fold(h), min, now) && wakes != [] {
      ThroughOne(h, now, wakes);
      assert wakes[0] in wakes;
      var h' := h + wakes[0].callbacks;
      CallbacksAdd(h, wakes[0].callbacks);
      if !wakes[0].timedOut {
        AwaitStartShape(h', min, wakes[0].at, wakes[1..]);
        var e := AwaitStart(h', min, wakes[0].at, wakes[1..]);
        AddsTrans(h, h', e.history, {});
        ThroughNext(h, e.history, now, wakes, e.at);
      }
    }
  }

  /** The SDK's answers and the callbacks around one startRecharge call. */
  datatype RechargeScript = RechargeScript(
    connected: bool, began: int, pileWakes: seq<Wake>, stillConnected: bool,
    controlOk: bool, stopOk: bool, before: Gap, startOk: bool, after: Gap, wakes: seq<Wake>)

  /** How the wait for the pile link ends: a timeout is followed by one more look. */
  datatype PileEnding = PileEnding(ok: bool, history: seq<Event>, at: int)

  /** Fresh telemetry shows the link up. */
  ghost predicate PileSeen(h: seq<Event>, now: int) {
    exists t: nat :: FreshSample(h, now, t) && h[t].sample.pile
  }

  ghost function AwaitPile(h: seq<Event>, now: int, wakes: seq<Wake>): PileEnding
    decreases |wakes|
  {
    if PileSeen(h, now) || wakes == [] then PileEnding(PileSeen(h, now), h, now)
    else
      var h', at := h + wakes[0].callbacks, wakes[0].at;
      if wakes[0].timedOut then PileEnding(PileSeen(h', at), h', at) else AwaitPile(h', at, wakes[1..])
  }

  lemma PileIsSeen(h: seq<Event>, now: int)
    ensures PileSeen(h, now) <==> Fold(h).pile && FreshAt(Fold(h), now)
  {
    hide Fold;
    FreshIsSampled(h, now);
    if FreshAt(Fold(h), now) { var t: nat :| FreshSample(h, now, t); }
  }

  lemma {:induction false} AwaitPileShape(h: seq<Event>, now: int, wakes: seq<Wake>)
    requires WakesOk(wakes)
    ensures var e := AwaitPile(h, now, wakes);
      Adds(h, e.history, {}) && Through(h, e.history, now, wakes, e.at) && e.ok == PileSeen(e.history, e.at)
    decreases |wakes|
  {
    ThroughNow(h, now, wakes);
    StillAdds(h);
    if !PileSeen(h, now) && wakes != [] {
      ThroughOne(h, now, wakes);
      assert wakes[0] in wakes;
      var h' := h + wakes[0].callbacks;
      CallbacksAdd(h, wakes[0].callbacks);
      if !wakes[0].timedOut {
        AwaitPileShape(h', wakes[0].at, wakes[1..]);
        var e := AwaitPile(h', wakes[0].at, wakes[1..]);
        AddsTrans(h, h', e.history, {});
        ThroughNext(h, e.history, now, wakes, e.at);
      }
    }
  }

  /** At some look of the wait for the pile, at the time of that look, fresh telemetry showed the link up. */
  ghost predicate ShowedPile(h: seq<Event>, h': seq<Event>, s: RechargeScript) {
    exists n: nat, now: int ::
      && |h| <= n <= |h'| && Through(h, h'[..n], s.began, s.pileWakes, now)
      && PileSeen(h'[..n], now)
  }

  /** The wait for a recharge requested in this history ended well at h', at a look at the time `at`. */
  ghost predicate StartedAfter(before: seq<Event>, h': seq<Event>, s: RechargeScript, at: int) {
    var base := before + [RechargeCalled] + s.after.callbacks;
    && AwaitStart(base, TaskCount(before), s.after.at, s.wakes) == Ending(Done, h', at)
    && Through(base, h', s.after.at, s.wakes, at)
    && Recharges(h', TaskCount(before), at)
  }

  /** When the recharge wait looked last, a recharge newer than this call's own request was charging. */
  ghost predicate Charges(h: seq<Event>, h': seq<Event>, s: RechargeScript, at: int) {
    exists before :: h <= before && StartedAfter(before, h', s, at)
  }

  /**
   How startRecharge ends: it waits for the pile, then takes control and stops the
   robot, and only then asks for the recharge and waits for it to charge.
   */
  ghost predicate RechargeEnds(h: seq<Event>, h': seq<Event>, s: RechargeScript, r: Result, commanded: bool) {
    var pile := AwaitPile(h, s.began, s.pileWakes);
    var before := pile.history + s.before.callbacks;
    var base := before + [RechargeCalled] + s.after.callbacks;
    var e := AwaitStart(base, TaskCount(before), s.after.at, s.wakes);
    if !s.connected then r == Refused && h' == h && !commanded
    else if !pile.ok then r == TimedOut && h' == pile.history && !commanded
    else if !s.stillConnected then r == Refused && h' == pile.history && !commanded
    else if !s.controlOk || !s.stopOk then r == SdkError && h' == before && !commanded
    else if !s.startOk then r == SdkError && h' == base && commanded
    else r == e.result && h' == e.history && commanded
  }

  ghost predicate InProgress(h: seq<Event>, kind: TaskType) {
    Fold(h).task.kind == kind && Active(Fold(h).task)
  }

  /** What a successful startUndock rests on. */
  datatype Proof = Proof(path: Path, min: nat, started: int, at: int)

  /** From h to h' the exit was handed over, on the grounds that the proof names. */
  ghost predicate Handoff(h: seq<Event>, h': seq<Event>, extra: set<Event>, p: Proof) {
    && h' != [] && h'[|h'| - 1] == ExitAccepted
    && var front := h'[..|h'| - 1];
       && Adds(h, front, extra)
       && match p.path
          case Waited => HistorySucceeds(front, p.min, p.started, p.at)
          case AlreadyExited =>
            && ExitConfirmed(Fold(front), p.at) && CanSkipUndock(Fold(front))
            && (!Fold(front).pile || !Fold(front).required)
  }

  /** The undock of an earlier call had succeeded when this one began, and was not used yet. */
  ghost predicate Succeeded(e: seq<Event>) {
    Fold(e).task.kind == UndockTask && Fold(e).task.status == Success && Fold(e).undock.success > 0
  }

  /** A handoff looked at the history without the event it leaves. */
  function Front(h: seq<Event>): seq<Event>
    requires h != []
  {
    h[..|h| - 1]
  }

  /** The history after the first section of startUndock, which saw e. */
  ghost function Entered(e: seq<Event>): seq<Event> {
    if InProgress(e, RechargingTask) || InProgress(e, UndockTask) || IsCharging(Fold(e)) then e + [UndockDemanded]
    else e
  }

  /** The undock was commanded in this call, and the wait is for what was reported after that. */
  ghost predicate Commanded(e: seq<Event>, s: UndockScript, p: Proof, base: seq<Event>) {
    && p.started == s.fifth.at
    && exists before ::
         e <= before && p.min == TaskCount(before) && base == before + [UndockCommanded] + s.fifth.callbacks
  }

  /** A wait for what was reported after the first section, which saw the history e. */
  ghost predicate Joined(e: seq<Event>, s: UndockScript, p: Proof, base: seq<Event>) {
    && p.started == s.second.at && InProgress(e, UndockTask) && p.min == TaskCount(e)
    && base == Entered(e) + s.second.callbacks
  }

  /** A wait that may use the SUCCESS that was the current task in e. */
  ghost predicate Reused(e: seq<Event>, s: UndockScript, p: Proof, base: seq<Event>) {
    && p.started == s.fourth.at && Succeeded(e) && p.min == Fold(e).undock.success - 1
    && base == Entered(e) + s.second.callbacks + s.third.callbacks + s.fourth.callbacks
  }

  /** The history, the snapshot and the time at which the wait of this call began. */
  ghost predicate Began(e: seq<Event>, s: UndockScript, p: Proof, base: seq<Event>) {
    Joined(e, s, p, base) || Reused(e, s, p, base) || Commanded(e, s, p, base)
  }

  /** The wait that began at `base` ended well at h', and its last look was at the time of the proof. */
  ghost predicate Completes(base: seq<Event>, h': seq<Event>, wakes: seq<Wake>, p: Proof) {
    AwaitUndock(base, p.min, p.started, p.started, wakes) == Ending(Done, h', p.at)
  }

  /**
   The snapshot, the start and the time of a proof are those of the call: the exit
   was looked at in its second section, or in the wait of the call, which began at
   the history, from the snapshot and at the time that its sections determine.
   */
  ghost predicate Pinned(h: seq<Event>, h': seq<Event>, s: UndockScript, p: Proof) {
    && h + s.first.callbacks <= h' && h' != []
    && match p.path
       case AlreadyExited => p.at == s.second.at
       case Waited => exists base :: Began(h + s.first.callbacks, s, p, base) && Completes(base, h', s.wakes, p)
  }

  ghost predicate Progress(h: seq<Event>, h': seq<Event>, r: Result, extra: set<Event>, p: Proof) {
    if r == Done then Handoff(h, h', extra, p) else Adds(h, h', extra)
  }

  lemma ProgressAfter(
      h: seq<Event>, h1: seq<Event>, h': seq<Event>, r: Result, inner: set<Event>, extra: set<Event>, p: Proof)
    requires Adds(h, h1, extra) && inner <= extra && Progress(h1, h', r, inner, p)
    ensures Progress(h, h', r, extra, p)
  {
  }

  lemma ReportedGrows(h: seq<Event>, h': seq<Event>, kind: TaskType, status: TaskStatus, min: nat)
    requires h <= h' && Reported(h, kind, status, min)
    ensures Reported(h', kind, status, min)
  {
    var i: nat :| i < |h| && IsUpdate(h[i], kind, status) && Ordinal(h, i) > min;
    assert h'[..|h|] == h;
    OrdinalOfPrefix(h', |h|, i);
  }

  /** The last sample so far shows the pile link up. */
  ghost predicate LinkShown(h: seq<Event>) { exists t: nat :: LastTelemetry(h, t) && h[t].sample.pile }

  /**
   Once something has demanded an undock and every sample shows the link up, the
   shortcut is closed: only a wait that saw the undock complete can succeed.
   */
  lemma Obligation(h: seq<Event>, e: seq<Event>, h': seq<Event>, p: Proof)
    requires Handoff(h, h', {UndockDemanded, UndockCommanded}, p) && h <= e <= Front(h')
    requires Demanded(e) && LinkShown(e) && LinkUp(h', |e|)
    ensures p.path == Waited
  {
    hide Fold, Demanded, ExitConfirmed, CanSkipUndock, HistorySucceeds;
    RequiredIffDemanded(e);
    FreshIsSampled(e, 0);
    DemandKept(e, Front(h'));
  }

  /** A wait that began after three gaps without a section that writes. */
  ghost predicate Resumed(h: seq<Event>, s: UndockScript, snapshot: nat, p: Proof, base: seq<Event>) {
    && p.started == s.fourth.at && p.min == snapshot
    && base == h + s.second.callbacks + s.third.callbacks + s.fourth.callbacks
  }

  /** The grounds of a success once no undock is running, given what the first section found. */
  ghost predicate Proceeded(h: seq<Event>, h': seq<Event>, s: UndockScript, succeeded: bool, snapshot: nat, p: Proof) {
    match p.path
    case AlreadyExited => p.at == s.second.at
    case Waited =>
      exists base ::
        && Completes(base, h', s.wakes, p)
        && ((succeeded && Resumed(h, s, snapshot, p, base)) || Commanded(h, s, p, base))
  }

  /**
   What startUndock answers once no undock is running and any recharge has stopped,
   by the history m that its second section sees. The shortcut is taken exactly when
   the exit holds already; without fresh telemetry, or without a demand, nothing is
   sent; an unused SUCCESS is waited on unless the battery charges again; otherwise
   the answer is that of the wait for the commanded undock.
   */
  ghost predicate Decided(m: seq<Event>, s: UndockScript, succeeded: bool, snapshot: nat, r: Result, p: Proof) {
    var looked := if succeeded then m + s.third.callbacks else m;
    var before := looked + s.fourth.callbacks;
    if Skippable(m, s.second.at) then r == Done && p.path == AlreadyExited
    else if !Demanded(m) || !(exists t: nat :: FreshSample(m, s.second.at, t)) then r == Failed
    else if succeeded && !LastCharging(looked) then
      r == AwaitUndock(before, snapshot, s.fourth.at, s.fourth.at, s.wakes).result && p.path == Waited
    else if !s.controlOk || !s.startOk then r == SdkError
    else
      && r == AwaitUndock(before + [UndockCommanded] + s.fifth.callbacks, TaskCount(before),
                          s.fifth.at, s.fifth.at, s.wakes).result
      && p.path == Waited
  }

  /** How stopRecharge ends, by the history it is called on. */
  ghost predicate StopEnds(h: seq<Event>, h': seq<Event>, s: StopScript, r: Result) {
    var seen := h + s.before.callbacks;
    var asked := seen + [UndockDemanded] + s.after.callbacks;
    var e := AwaitUpdate(asked, RechargingTask, Stopped, TaskCount(seen), s.after.at, s.wakes);
    if !s.connected then r == Refused && h' == h
    else if !InProgress(seen, RechargingTask) then r == NotSent && h' == seen
    else if !s.stopOk then r == SdkError && h' == asked
    else r == e.result && h' == e.history
  }

  /** An active recharge is stopped first; a stop that fails is the answer. */
  ghost predicate Concluded(
      h: seq<Event>, h': seq<Event>, s: UndockScript, rechargeActive: bool, succeeded: bool, snapshot: nat,
      r: Result, p: Proof)
  {
    if rechargeActive then
      || (r != Done && StopEnds(h, h', s.stop, r))
      || exists h1 :: StopEnds(h, h1, s.stop, Done) && Decided(h1 + s.second.callbacks, s, succeeded, snapshot, r, p)
    else
      Decided(h + s.second.callbacks, s, succeeded, snapshot, r, p)
  }

  /** The answer of startUndock, by the history e that its first section sees. */
  ghost predicate Answers(e: seq<Event>, h': seq<Event>, s: UndockScript, r: Result, p: Proof) {
    if InProgress(e, UndockTask) then
      r == AwaitUndock(Entered(e) + s.second.callbacks, TaskCount(e), s.second.at, s.second.at, s.wakes).result
    else
      var succeeded := Succeeded(e);
      Concluded(Entered(e), h', s, InProgress(e, RechargingTask), succeeded,
                if succeeded then Fold(e).undock.success - 1 else TaskCount(e), r, p)
  }

  /** The handoff comes after the callbacks that ran before it. */
  lemma HandoffIsLater(h: seq<Event>, h': seq<Event>, s: UndockScript, p: Proof)
    requires Handoff(h, h', {UndockDemanded, UndockCommanded}, p) && Pinned(h, h', s, p)
    requires Callbacks(s.first.callbacks)
    ensures h + s.first.callbacks <= Front(h')
  {
    hide Fold, ExitConfirmed, CanSkipUndock, HistorySucceeds, Began, Completes;
    var es := s.first.callbacks;
    if es != [] {
      assert es[|es| - 1] in es && (h + es)[|h + es| - 1] == es[|es| - 1];
    }
  }

  lemma ProceededIsPinned(
      h: seq<Event>, h1: seq<Event>, h': seq<Event>, s: UndockScript, succeeded: bool, snapshot: nat, p: Proof)
    requires Proceeded(h1, h', s, succeeded, snapshot, p) && h1 <= h' && h' != []
    requires h1 == Entered(h + s.first.callbacks)
    requires succeeded ==>
      Succeeded(h + s.first.callbacks) && snapshot == Fold(h + s.first.callbacks).undock.success - 1
    ensures Pinned(h, h', s, p)
  {
    hide Fold, AwaitUndock;
    var e := h + s.first.callbacks;
    if p.path == Waited {
      var base :|
        && Completes(base, h', s.wakes, p)
        && ((succeeded && Resumed(h1, s, snapshot, p, base)) || Commanded(h1, s, p, base));
      if Commanded(h1, s, p, base) { CommandedEarlier(e, h1, s, p, base); }
      assert Began(e, s, p, base);
    }
  }

  lemma ProgressIsPrefix(h: seq<Event>, h': seq<Event>, r: Result, extra: set<Event>, p: Proof)
    requires Progress(h, h', r, extra, p)
    ensures h <= h' && (r == Done ==> h' != [])
  {
  }

  lemma StopReported(h: seq<Event>, h1: seq<Event>, h': seq<Event>, r: Result, p: Proof)
    requires Adds(h, h1, {UndockDemanded})
    requires Progress(h1, h', r, {UndockDemanded}, p) || Reported(h', RechargingTask, Stopped, TaskCount(h1))
    ensures Progress(h, h', r, {UndockDemanded}, p) || Reported(h', RechargingTask, Stopped, TaskCount(h))
  {
    OldCount(h, h1);
    ReportedSince(h', RechargingTask, Stopped, TaskCount(h), TaskCount(h1));
  }

  /** Commanded after h1 is commanded after h. */
  lemma CommandedEarlier(h: seq<Event>, h1: seq<Event>, s: UndockScript, p: Proof, base: seq<Event>)
    requires h <= h1 && Commanded(h1, s, p, base)
    ensures Commanded(h, s, p, base)
  {
  }

  /** What is granted after a longer history, when a SUCCESS is not reused, is granted after this one. */
  lemma ProceededEarlier(
      h: seq<Event>, h1: seq<Event>, h': seq<Event>, s: UndockScript, snapshot: nat, p: Proof)
    requires h <= h1 && Proceeded(h1, h', s, false, snapshot, p)
    ensures Proceeded(h, h', s, false, snapshot, p)
  {
    hide AwaitUndock, TaskCount;
    if p.path == Waited {
      var base :| Completes(base, h', s.wakes, p) && Commanded(h1, s, p, base);
      CommandedEarlier(h, h1, s, p, base);
    }
  }

  /** The SDK's answers and the callbacks around one stopRecharge call. */
  datatype StopScript = StopScript(connected: bool, before: Gap, stopOk: bool, after: Gap, wakes: seq<Wake>)

  /** Likewise for one startUndock call; `before` of a section is what ran since the last one. */
  datatype UndockScript = UndockScript(
    connected: bool, first: Gap, stop: StopScript, second: Gap, third: Gap,
    controlOk: bool, fourth: Gap, startOk: bool, fifth: Gap, wakes: seq<Wake>)

  predicate StopScriptOk(s: StopScript) {
    Callbacks(s.before.callbacks) && Callbacks(s.after.callbacks) && WakesOk(s.wakes)
  }

  predicate UndockScriptOk(s: UndockScript) {
    && Callbacks(s.first.callbacks) && StopScriptOk(s.stop) && Callbacks(s.second.callbacks)
    && Callbacks(s.third.callbacks) && Callbacks(s.fourth.callbacks) && Callbacks(s.fifth.callbacks)
    && WakesOk(s.wakes)
  }

  class D1Max {
    var task: Task
    var sequence: nat
    var rechargeStopped: nat
    var undock: Undock
    var pile: bool
    var battery: Battery
    var lastBasic: Option<int>
    var required: bool
    var confirmed: bool
    ghost var history: seq<Event>

    function View(): Digest
      reads this
    {
      Digest(task, sequence, rechargeStopped, undock, pile, battery, lastBasic, required, confirmed)
    }

    ghost predicate Valid()
      reads this
    {
      View() == Fold(history)
    }

    constructor ()
      ensures Valid() && history == [] && View() == INITIAL
    {
      task, sequence, rechargeStopped := Task(OtherTask, Unknown, 0), 0, 0;
      undock := Undock(0, 0, 0, 0, 0);
      pile, battery, lastBasic := false, Battery(false, false, PowerUnknown, PowerUnknown), None;
      required, confirmed := false, false;
      history := [];
    }

    predicate ChargingLocked()
      reads this
      ensures ChargingLocked() == IsCharging(View())
    {
      (battery.present1 && battery.status1 == Charging) || (battery.present2 && battery.status2 == Charging)
    }

    predicate ExitConfirmedLocked(now: int)
      reads this
      ensures ExitConfirmedLocked(now) == ExitConfirmed(View(), now)
    {
      if lastBasic == None || now - lastBasic.value >= FRESH_MS then false
      else if !pile then true
      else !ChargingLocked()
    }

    method OnRobotStateData(sample: Sample, now: int)
      requires Valid()
      modifies this
      ensures Valid() && history == old(history) + [Telemetry(sample, now)]
    {
      pile := sample.pile;
      battery := sample.battery;
      lastBasic := Some(now);
      var exit := ExitConfirmedLocked(now);
      if !exit { confirmed := false; }
      if !confirmed && (ChargingLocked() || sample.machine == Recharge) { required := true; }
      assert View() == OnTelemetry(old(View()), sample, now);
      Record(Telemetry(sample, now));
    }

    method OnTaskStateData(data: Task, now: int)
      requires Valid()
      modifies this
      ensures Valid() && history == old(history) + [TaskUpdate(data, now)]
    {
      task := data;
      sequence := sequence + 1;
      if (data.kind == RechargingTask || data.kind == UndockTask) &&
         (data.status == Starting || data.status == Running || data.status == Failure) {
        confirmed := false;
        required := true;
      }
      if data.kind == RechargingTask && data.status == Stopped { rechargeStopped := sequence; }
      if data.kind == UndockTask {
        if data.status == Success { undock := undock.(success := sequence, successTime := now);
        } else if data.status == Failure { undock := undock.(failure := sequence, failureError := data.error);
        } else if data.status == Stopped { undock := undock.(stopped := sequence); }
      }
      assert View() == OnTask(old(View()), data, now);
      Record(TaskUpdate(data, now));
    }

    /** The callbacks of a script, in order. */
    method RunCallbacks(es: seq<Event>)
      requires Valid() && Callbacks(es)
      modifies this
      ensures Valid() && history == old(history) + es
    {
      for i := 0 to |es|
        invariant Valid() && history == old(history) + es[..i]
      {
        assert es[i] in es;
        match es[i] {
          case Telemetry(sample, at) => OnRobotStateData(sample, at);
          case TaskUpdate(data, at) => OnTaskStateData(data, at);
        }
        assert es[..i + 1] == es[..i] + [es[i]];
      }
      assert es[..|es|] == es;
    }

    /** A writing section of one of the charge calls. */
    ghost method Record(e: Event)
      requires View() == Apply(Fold(history), e)
      modifies `history
      ensures Valid() && history == old(history) + [e]
    {
      FoldAppend(history, e);
      history := history + [e];
    }

    method WaitForUndockCompleted(min: nat, started: int, wakes: seq<Wake>) returns (r: Result)
      requires Valid() && WakesOk(wakes)
      modifies this
      ensures Valid()
      ensures r == AwaitUndock(old(history), min, started, started, wakes).result
      ensures history == AwaitUndock(old(history), min, started, started, wakes).history
    {
      var now := started;
      var rest := wakes;
      while true
        invariant Valid() && WakesOk(rest)
        invariant AwaitUndock(history, min, started, now, rest)
                  == AwaitUndock(old(history), min, started, started, wakes)
        decreases |rest|
      {
        WaitRefinesHistory(history, min, started, now);
        if undock.failure > min { return Failed; }
        if undock.success > min && lastBasic.Some? && lastBasic.value >= Max(started, undock.successTime) &&
           ExitConfirmedLocked(now) {
          required := false;
          confirmed := true;
          undock := undock.(success := 0);
          Record(ExitAccepted);
          return Done;
        }
        if rest == [] { return TimedOut; }
        assert rest[0] in rest;
        RunCallbacks(rest[0].callbacks);
        now := rest[0].at;
        if rest[0].timedOut { return TimedOut; }
        rest := rest[1..];
      }
    }

    method WaitForRechargeStopped(min: nat, started: int, wakes: seq<Wake>) returns (r: Result, now: int)
      requires Valid() && WakesOk(wakes)
      modifies this
      ensures Valid()
      ensures var e := AwaitUpdate(old(history), RechargingTask, Stopped, min, started, wakes);
        r == e.result && history == e.history && now == e.at
    {
      now := started;
      var rest := wakes;
      while true
        invariant Valid() && WakesOk(rest)
        invariant AwaitUpdate(history, RechargingTask, Stopped, min, now, rest)
                  == AwaitUpdate(old(history), RechargingTask, Stopped, min, started, wakes)
        decreases |rest|
      {
        RememberedIffReported(history, RechargingTask, Stopped, min);
        if rechargeStopped > min { return Done, now; }
        if rest == [] { return TimedOut, now; }
        assert rest[0] in rest;
        RunCallbacks(rest[0].callbacks);
        now := rest[0].at;
        if rest[0].timedOut { return TimedOut, now; }
        rest := rest[1..];
      }
    }

    method WaitForUndockStopped(min: nat, started: int, wakes: seq<Wake>) returns (r: Result)
      requires Valid() && WakesOk(wakes)
      modifies this
      ensures Valid()
      ensures var e := AwaitUpdate(old(history), UndockTask, Stopped, min, started, wakes);
        r == e.result && history == e.history
    {
      var now := started;
      var rest := wakes;
      while true
        invariant Valid() && WakesOk(rest)
        invariant AwaitUpdate(history, UndockTask, Stopped, min, now, rest)
                  == AwaitUpdate(old(history), UndockTask, Stopped, min, started, wakes)
        decreases |rest|
      {
        RememberedIffReported(history, UndockTask, Stopped, min);
        if undock.stopped > min { return Done; }
        if rest == [] { return TimedOut; }
        assert rest[0] in rest;
        RunCallbacks(rest[0].callbacks);
        now := rest[0].at;
        if rest[0].timedOut { return TimedOut; }
        rest := rest[1..];
      }
    }

    /** wait_for with a predicate: it is tested once more after a timeout. */
    method WaitForPile(began: int, wakes: seq<Wake>) returns (ok: bool, now: int)
      requires Valid() && WakesOk(wakes)
      modifies this
      ensures Valid()
      ensures var e := AwaitPile(old(history), began, wakes); ok == e.ok && history == e.history && now == e.at
    {
      hide Fold, PileSeen;
      now := began;
      var rest := wakes;
      while true
        invariant Valid() && WakesOk(rest)
        invariant AwaitPile(history, now, rest) == AwaitPile(old(history), began, wakes)
        decreases |rest|
      {
        PileIsSeen(history, now);
        ok := pile && lastBasic.Some? && now - lastBasic.value < FRESH_MS;
        if ok || rest == [] { return ok, now; }
        assert rest[0] in rest;
        RunCallbacks(rest[0].callbacks);
        now := rest[0].at;
        if rest[0].timedOut {
          PileIsSeen(history, now);
          ok := pile && lastBasic.Some? && now - lastBasic.value < FRESH_MS;
          return ok, now;
        }
        rest := rest[1..];
      }
    }

    method WaitForRechargeStarted(min: nat, started: int, wakes: seq<Wake>) returns (r: Result, now: int)
      requires Valid() && WakesOk(wakes)
      modifies this
      ensures Valid()
      ensures var e := AwaitStart(old(history), min, started, wakes);
        r == e.result && history == e.history && now == e.at
    {
      now := started;
      var rest := wakes;
      while true
        invariant Valid() && WakesOk(rest)
        invariant AwaitStart(history, min, now, rest) == AwaitStart(old(history), min, started, wakes)
        decreases |rest|
      {
        var newTask := sequence > min && task.kind == RechargingTask;
        if newTask && task.status == Failure { return Failed, now; }
        var active := task.status == Starting || task.status == Running;
        var recent := lastBasic.Some? && now - lastBasic.value < FRESH_MS;
        var charging := ChargingLocked();
        if newTask && active && recent && charging { return Done, now; }
        if rest == [] { return TimedOut, now; }
        assert rest[0] in rest;
        RunCallbacks(rest[0].callbacks);
        now := rest[0].at;
        if rest[0].timedOut { return TimedOut, now; }
        rest := rest[1..];
      }
    }

    /** The recharge request itself, after the pile was seen: the snapshot to wait from. */
    method RequestRecharge(script: RechargeScript) returns (min: nat)
      requires Valid() && Callbacks(script.after.callbacks)
      modifies this
      ensures Valid() && min == TaskCount(old(history))
      ensures history == old(history) + [RechargeCalled] + script.after.callbacks
      ensures Adds(old(history), history, {RechargeCalled})
    {
      SequenceIsCount(history);
      confirmed := false;
      min := sequence;
      Record(RechargeCalled);
      RunCallbacks(script.after.callbacks);
      CallbacksAdd(old(history) + [RechargeCalled], script.after.callbacks);
      AddsTrans(old(history), old(history) + [RechargeCalled], history, {RechargeCalled});
    }

    /**
     startRecharge: no SDK command goes out unless the wait for the pile ended with
     a fresh link, at the time of that look. Success means that, when the recharge
     wait looked last, fresh telemetry showed a present battery charging under a
     RECHARGING task reported after this call's request. It confirms no exit.
     */
    method StartRecharge(script: RechargeScript) returns (r: Result, commanded: bool, ghost at: int)
      requires Valid() && Callbacks(script.before.callbacks) && Callbacks(script.after.callbacks)
      requires WakesOk(script.pileWakes) && WakesOk(script.wakes)
      modifies this
      ensures Valid()
      ensures Adds(old(history), history, {RechargeCalled})
      ensures commanded ==> ShowedPile(old(history), history, script)
      ensures r == Done ==> commanded && Charges(old(history), history, script, at)
      ensures RechargeEnds(old(history), history, script, r, commanded)
    {
      hide AwaitPile, PileSeen;
      commanded, at := false, script.began;
      if !script.connected { return Refused, commanded, at; }
      AwaitPileShape(history, script.began, script.pileWakes);
      var ok, now := WaitForPile(script.began, script.pileWakes);
      if !ok { return TimedOut, commanded, at; }
      ghost var h1 := history;
      if !script.stillConnected { return Refused, commanded, at; }
      RunCallbacks(script.before.callbacks);
      CallbacksAdd(h1, script.before.callbacks);
      AddsTrans(old(history), h1, history, {RechargeCalled});
      if !script.controlOk || !script.stopOk { return SdkError, commanded, at; }
      ghost var h2 := history;
      var min := RequestRecharge(script);
      ghost var h3 := history;
      AddsTrans(old(history), h2, h3, {RechargeCalled});
      commanded := true;
      assert h3[..|h1|] == h1;
      if !script.startOk { return SdkError, commanded, at; }
      AwaitStartShape(h3, min, script.after.at, script.wakes);
      var end;
      r, end := WaitForRechargeStarted(min, script.after.at, script.wakes);
      at := end;
      AddsTrans(old(history), h3, history, {RechargeCalled});
      assert history[..|h1|] == h1;
      StartsIffRecharges(history, min, at);
      assert r == Done ==> StartedAfter(h2, history, script, at);
    }

    /** The demand that goes with the stop command, and the callbacks until it is answered. */
    method DemandUndock(after: Gap) returns (min: nat)
      requires Valid() && Callbacks(after.callbacks)
      modifies this
      ensures Valid() && required && min == TaskCount(old(history)) && Adds(old(history), history, {UndockDemanded})
      ensures history == old(history) + [UndockDemanded] + after.callbacks
    {
      SequenceIsCount(history);
      required := true;
      min := sequence;
      Record(UndockDemanded);
      ghost var demanded := history;
      RunCallbacks(after.callbacks);
      CallbacksAdd(demanded, after.callbacks);
      DemandKept(demanded, history);
      AddsTrans(old(history), demanded, history, {UndockDemanded});
    }

    /** Stops an active recharge; on success the SDK reported RECHARGING STOPPED after the request. */
    method StopRecharge(script: StopScript) returns (r: Result)
      requires Valid() && StopScriptOk(script)
      modifies this
      ensures Valid()
      ensures Adds(old(history), history, {UndockDemanded})
      ensures r == Done ==> required && Reported(history, RechargingTask, Stopped, TaskCount(old(history)))
      ensures StopEnds(old(history), history, script, r)
    {
      hide TaskCount, Reported, AwaitUpdate;
      if !script.connected { return Refused; }
      RunCallbacks(script.before.callbacks);
      CallbacksAdd(old(history), script.before.callbacks);
      if task.kind != RechargingTask || (task.status != Starting && task.status != Running) { return NotSent; }
      ghost var h := history;
      OldCount(old(history), h);
      var min := DemandUndock(script.after);
      AddsTrans(old(history), h, history, {UndockDemanded});
      if !script.stopOk { return SdkError; }
      r := AwaitStopped(script, min);
      ReportedSince(history, RechargingTask, Stopped, TaskCount(old(history)), min);
    }

    method AwaitStopped(script: StopScript, min: nat) returns (r: Result)
      requires Valid() && StopScriptOk(script) && required
      modifies this
      ensures Valid() && Adds(old(history), history, {}) && required
      ensures r == Done ==> Reported(history, RechargingTask, Stopped, min)
      ensures var e := AwaitUpdate(old(history), RechargingTask, Stopped, min, script.after.at, script.wakes);
        r == e.result && history == e.history
    {
      hide TaskCount, Reported, AwaitUpdate;
      AwaitUpdateShape(history, RechargingTask, Stopped, min, script.after.at, script.wakes);
      var now;
      r, now := WaitForRechargeStopped(min, script.after.at, script.wakes);
      DemandKept(old(history), history);
    }

    /** The first section of startUndock: what is running, and the snapshot to wait from. */
    method EnterUndock(gap: Gap) returns (rechargeActive: bool, undockActive: bool, undockSucceeded: bool, min: nat)
      requires Valid() && Callbacks(gap.callbacks)
      modifies this
      ensures Valid() && Adds(old(history), history, {UndockDemanded}) && (old(required) ==> required)
      ensures var e := old(history) + gap.callbacks;
        && history == Entered(e)
        && rechargeActive == InProgress(e, RechargingTask) && undockActive == InProgress(e, UndockTask)
        && undockSucceeded == Succeeded(e)
        && min == (if undockSucceeded then Fold(e).undock.success - 1 else TaskCount(e))
        && (rechargeActive || undockActive || IsCharging(Fold(e)) ==> required)
    {
      RunCallbacks(gap.callbacks);
      CallbacksAdd(old(history), gap.callbacks);
      DemandKept(old(history), history);
      SequenceIsCount(history);
      rechargeActive := task.kind == RechargingTask && (task.status == Starting || task.status == Running);
      undockActive := task.kind == UndockTask && (task.status == Starting || task.status == Running);
      min := sequence;
      undockSucceeded := task.kind == UndockTask && task.status == Success && undock.success > 0;
      if undockSucceeded { min := undock.success - 1; }
      var charging := ChargingLocked();
      if rechargeActive || undockActive || charging {
        required := true;
        Record(UndockDemanded);
      }
    }

    /** The exit already holds: accepted without an undock task, or not decided here (NotSent). */
    method AcceptExited(gap: Gap) returns (r: Result)
      requires Valid() && Callbacks(gap.callbacks)
      modifies this
      ensures Valid() && (r == Done || r == Failed || r == NotSent)
      ensures var h := old(history) + gap.callbacks;
        && (r == Done <==> Skippable(h, gap.at))
        && (r == NotSent <==> r != Done && Demanded(h) && exists t: nat :: FreshSample(h, gap.at, t))
      ensures r != Done ==> Adds(old(history), history, {})
      ensures r == Done ==>
        && history != [] && history[|history| - 1] == ExitAccepted
        && var front := history[..|history| - 1];
           && Adds(old(history), front, {})
           && ExitConfirmed(Fold(front), gap.at) && CanSkipUndock(Fold(front))
           && (!Fold(front).pile || !Fold(front).required)
      ensures r == NotSent ==> required && history == old(history) + gap.callbacks
    {
      hide Fold, Skippable, Demanded;
      RunCallbacks(gap.callbacks);
      CallbacksAdd(old(history), gap.callbacks);
      SkipsIffSkippable(history, gap.at);
      RequiredIffDemanded(history);
      FreshIsSampled(history, gap.at);
      if lastBasic == None || gap.at - lastBasic.value >= FRESH_MS { return Failed; }
      var exit := ExitConfirmedLocked(gap.at);
      if exit && CanSkipUndock(View()) && (!pile || !required) {
        ghost var front := history;
        required := false;
        confirmed := true;
        undock := undock.(success := 0);
        Record(ExitAccepted);
        assert history[..|history| - 1] == front;
        return Done;
      }
      if !required { return Failed; }
      return NotSent;
    }

    /** Take control, command the undock task, and take the snapshot to wait from. */
    method CommandUndock(script: UndockScript) returns (r: Result, min: nat)
      requires Valid() && UndockScriptOk(script)
      modifies this
      ensures Valid() && (r == Done || r == SdkError)
      ensures Adds(old(history), history, {UndockCommanded})
      ensures r == Done <==> script.controlOk && script.startOk
      ensures r == Done ==>
        var before := old(history) + script.fourth.callbacks;
        min == TaskCount(before) && history == before + [UndockCommanded] + script.fifth.callbacks
    {
      min := 0;
      RunCallbacks(script.fourth.callbacks);
      CallbacksAdd(old(history), script.fourth.callbacks);
      if !script.controlOk { return SdkError, min; }
      SequenceIsCount(history);
      required := true;
      confirmed := false;
      min := sequence;
      Record(UndockCommanded);
      ghost var commanded := history;
      RunCallbacks(script.fifth.callbacks);
      CallbacksAdd(commanded, script.fifth.callbacks);
      return if script.startOk then Done else SdkError, min;
    }

    /**
     The wait that ends startUndock, after the callbacks that ran since the last
     section. The proof names the snapshot, the start and the end of this very wait.
     */
    method JoinUndock(gap: Gap, min: nat, wakes: seq<Wake>) returns (r: Result, ghost proof: Proof)
      requires Valid() && Callbacks(gap.callbacks) && WakesOk(wakes)
      modifies this
      ensures Valid() && (r == Done || r == Failed || r == TimedOut)
      ensures Progress(old(history), history, r, {}, proof)
      ensures var e := AwaitUndock(old(history) + gap.callbacks, min, gap.at, gap.at, wakes);
        r == e.result && history == e.history && proof == Proof(Waited, min, gap.at, e.at)
      ensures r == Failed ==> HistoryFails(history, min)
    {
      RunCallbacks(gap.callbacks);
      CallbacksAdd(old(history), gap.callbacks);
      ghost var mid := history;
      ghost var e := AwaitUndock(history, min, gap.at, gap.at, wakes);
      proof := Proof(Waited, min, gap.at, e.at);
      AwaitUndockShape(history, min, gap.at, gap.at, wakes);
      r := WaitForUndockCompleted(min, gap.at, wakes);
      ProgressAfter(old(history), mid, history, r, {}, {}, proof);
    }

    /** startUndock once no undock is running and any recharge has been stopped. */
    method ProceedUndock(script: UndockScript, succeeded: bool, snapshot: nat) returns (r: Result, ghost proof: Proof)
      requires Valid() && UndockScriptOk(script)
      modifies this
      ensures Valid()
      ensures Progress(old(history), history, r, {UndockDemanded, UndockCommanded}, proof)
      ensures r == Done ==> Proceeded(old(history), history, script, succeeded, snapshot, proof)
      ensures Decided(old(history) + script.second.callbacks, script, succeeded, snapshot, r, proof)
    {
      hide AwaitUndock, Fold, TaskCount, Skippable, Demanded, LastCharging;
      r := AcceptExited(script.second);
      proof := Proof(AlreadyExited, 0, 0, script.second.at);
      if r != NotSent { return; }
      ghost var h1 := history;
      if succeeded {
        RunCallbacks(script.third.callbacks);
        CallbacksAdd(h1, script.third.callbacks);
        LastChargingIsDigest(history);
        if !ChargingLocked() {
          r, proof := ReuseSuccess(script, snapshot, old(history));
          return;
        }
      }
      ghost var h2 := history;
      AddsTrans(old(history), h1, h2, {});
      r, proof := CommandAndWait(script);
      ProgressAfter(old(history), h2, history, r, {UndockDemanded, UndockCommanded},
                    {UndockDemanded, UndockCommanded}, proof);
      if r == Done { ProceededEarlier(old(history), h2, history, script, snapshot, proof); }
    }

    /** The wait on the SUCCESS of an earlier call. `h` is the history before the second section. */
    method ReuseSuccess(script: UndockScript, snapshot: nat, ghost h: seq<Event>)
      returns (r: Result, ghost proof: Proof)
      requires Valid() && UndockScriptOk(script)
      requires history == h + script.second.callbacks + script.third.callbacks
      modifies this
      ensures Valid() && Progress(h, history, r, {UndockDemanded, UndockCommanded}, proof)
      ensures r == Done ==> Proceeded(h, history, script, true, snapshot, proof)
      ensures proof.path == Waited
      ensures r == AwaitUndock(h + script.second.callbacks + script.third.callbacks + script.fourth.callbacks,
                               snapshot, script.fourth.at, script.fourth.at, script.wakes).result
    {
      hide AwaitUndock, Fold, TaskCount;
      CallbacksAdd(h, script.second.callbacks);
      CallbacksAdd(h + script.second.callbacks, script.third.callbacks);
      AddsTrans(h, h + script.second.callbacks, history, {});
      r, proof := JoinUndock(script.fourth, snapshot, script.wakes);
      ghost var base := old(history) + script.fourth.callbacks;
      assert Resumed(h, script, snapshot, proof, base);
      assert r == Done ==> Completes(base, history, script.wakes, proof);
      ProgressAfter(h, old(history), history, r, {}, {UndockDemanded, UndockCommanded}, proof);
    }

    /** The physical undock: the command, and the wait for what is reported after it. */
    method CommandAndWait(script: UndockScript) returns (r: Result, ghost proof: Proof)
      requires Valid() && UndockScriptOk(script)
      modifies this
      ensures Valid()
      ensures Progress(old(history), history, r, {UndockDemanded, UndockCommanded}, proof)
      ensures r == Done ==> Proceeded(old(history), history, script, false, 0, proof)
      ensures proof.path == Waited
      ensures var before := old(history) + script.fourth.callbacks;
        r == if !script.controlOk || !script.startOk then SdkError
             else AwaitUndock(before + [UndockCommanded] + script.fifth.callbacks, TaskCount(before),
                              script.fifth.at, script.fifth.at, script.wakes).result
    {
      hide AwaitUndock, Fold, TaskCount;
      proof := Proof(Waited, 0, 0, 0);
      var min;
      r, min := CommandUndock(script);
      ghost var h := history;
      AddsTrans(old(history), old(history), h, {UndockDemanded, UndockCommanded});
      if r != Done { return; }
      ghost var before := old(history) + script.fourth.callbacks;
      r, proof := JoinUndock(Gap([], script.fifth.at), min, script.wakes);
      ProgressAfter(old(history), h, history, r, {}, {UndockDemanded, UndockCommanded}, proof);
      assert h + [] == h;
      assert proof.min == TaskCount(before);
      assert Commanded(old(history), script, proof, h);
      assert r == Done ==> Completes(h, history, script.wakes, proof);
    }

    /** An active recharge is stopped, with the SDK's confirmation, before anything is decided. */
    method StopThenProceed(script: UndockScript, rechargeActive: bool, succeeded: bool, snapshot: nat)
      returns (r: Result, ghost proof: Proof)
      requires Valid() && UndockScriptOk(script) && !(rechargeActive && succeeded)
      modifies this
      ensures Valid()
      ensures Progress(old(history), history, r, {UndockDemanded, UndockCommanded}, proof)
      ensures r == Done ==> Proceeded(old(history), history, script, succeeded, snapshot, proof)
      ensures rechargeActive ==>
        || Progress(old(history), history, r, {UndockDemanded}, proof)
        || Reported(history, RechargingTask, Stopped, TaskCount(old(history)))
      ensures Concluded(old(history), history, script, rechargeActive, succeeded, snapshot, r, proof)
    {
      hide Decided, StopEnds;
      proof := Proof(AlreadyExited, 0, 0, 0);
      if rechargeActive {
        r := StopRecharge(script.stop);
        if r != Done { return; }
      }
      ghost var h := history;
      r, proof := ProceedUndock(script, succeeded, snapshot);
      ProgressAfter(old(history), h, history, r, {UndockDemanded, UndockCommanded},
                    {UndockDemanded, UndockCommanded}, proof);
      if rechargeActive {
        ReportedGrows(h, history, RechargingTask, Stopped, TaskCount(old(history)));
        if r == Done { ProceededEarlier(old(history), h, history, script, snapshot, proof); }
      }
    }

    /** A running undock is joined. `h` is the history before the first section. */
    method JoinRunning(script: UndockScript, snapshot: nat, ghost h: seq<Event>) returns (r: Result, ghost proof: Proof)
      requires Valid() && UndockScriptOk(script) && Adds(h, history, {UndockDemanded})
      requires history == Entered(h + script.first.callbacks)
      requires InProgress(h + script.first.callbacks, UndockTask) && snapshot == TaskCount(h + script.first.callbacks)
      modifies this
      ensures Valid() && Progress(h, history, r, {UndockDemanded}, proof)
      ensures Progress(h, history, r, {UndockDemanded, UndockCommanded}, proof)
      ensures r == Done ==> Pinned(h, history, script, proof)
      ensures r == AwaitUndock(old(history) + script.second.callbacks, snapshot,
                               script.second.at, script.second.at, script.wakes).result
    {
      hide Fold, AwaitUndock, TaskCount, Progress;
      r, proof := JoinUndock(script.second, snapshot, script.wakes);
      ghost var base := old(history) + script.second.callbacks;
      assert Joined(h + script.first.callbacks, script, proof, base);
      assert r == Done ==> Completes(base, history, script.wakes, proof);
      ProgressIsPrefix(old(history), history, r, {}, proof);
      ProgressAfter(h, old(history), history, r, {}, {UndockDemanded}, proof);
      ProgressAfter(h, old(history), history, r, {}, {UndockDemanded, UndockCommanded}, proof);
    }

    method ProceedFrom(
        script: UndockScript, rechargeActive: bool, succeeded: bool, snapshot: nat, ghost h: seq<Event>)
      returns (r: Result, ghost proof: Proof)
      requires Valid() && UndockScriptOk(script) && Adds(h, history, {UndockDemanded})
      requires history == Entered(h + script.first.callbacks) && !(rechargeActive && succeeded)
      requires succeeded ==>
        Succeeded(h + script.first.callbacks) && snapshot == Fold(h + script.first.callbacks).undock.success - 1
      modifies this
      ensures Valid() && Progress(h, history, r, {UndockDemanded, UndockCommanded}, proof)
      ensures r == Done ==> Pinned(h, history, script, proof)
      ensures rechargeActive ==>
        || Progress(h, history, r, {UndockDemanded}, proof)
        || Reported(history, RechargingTask, Stopped, TaskCount(h))
      ensures Concluded(old(history), history, script, rechargeActive, succeeded, snapshot, r, proof)
    {
      hide Concluded, Fold, TaskCount, Progress, Pinned, Proceeded, Reported, Entered;
      r, proof := StopThenProceed(script, rechargeActive, succeeded, snapshot);
      ProgressIsPrefix(old(history), history, r, {UndockDemanded, UndockCommanded}, proof);
      ProgressAfter(h, old(history), history, r, {UndockDemanded, UndockCommanded},
                    {UndockDemanded, UndockCommanded}, proof);
      if rechargeActive { StopReported(h, old(history), history, r, proof); }
      if r == Done { ProceededIsPinned(h, old(history), history, script, succeeded, snapshot, proof); }
    }

    /**
     startUndock. Success always ends the history with the handoff, reached either
     because the exit already held or because a wait saw the undock complete; the
     proof's snapshot, start and time are those of this call. With an undock demanded
     and the link reported up throughout, only the wait will do. A running undock is
     joined, never commanded again; a running recharge is stopped, with the SDK's
     confirmation, before any undock is commanded.
     */
    method StartUndock(script: UndockScript) returns (r: Result, ghost proof: Proof)
      requires Valid() && UndockScriptOk(script)
      modifies this
      ensures Valid()
      ensures Progress(old(history), history, r, {UndockDemanded, UndockCommanded}, proof)
      ensures r == Done ==> Pinned(old(history), history, script, proof)
      ensures var e := old(history) + script.first.callbacks;
        r == Done && Demanded(e) && LinkShown(e) && LinkUp(history, |e|) ==> proof.path == Waited
      ensures if !script.connected then r == Refused && history == old(history)
        else Answers(old(history) + script.first.callbacks, history, script, r, proof)
      ensures InProgress(old(history) + script.first.callbacks, UndockTask) ==>
        Progress(old(history), history, r, {UndockDemanded}, proof)
      ensures InProgress(old(history) + script.first.callbacks, RechargingTask) ==>
        || Progress(old(history), history, r, {UndockDemanded}, proof)
        || Reported(history, RechargingTask, Stopped, TaskCount(old(history)))
    {
      hide Fold, TaskCount, Pinned, Reported, Entered, Concluded, Demanded, LinkShown, AwaitUndock;
      proof := Proof(AlreadyExited, 0, 0, 0);
      if !script.connected { return Refused, proof; }
      var rechargeActive, undockActive, undockSucceeded, snapshot := EnterUndock(script.first);
      if undockActive {
        r, proof := JoinRunning(script, snapshot, old(history));
      } else {
        r, proof := ProceedFrom(script, rechargeActive, undockSucceeded, snapshot, old(history));
      }
      ghost var e := old(history) + script.first.callbacks;
      if r == Done && Demanded(e) && LinkShown(e) && LinkUp(history, |e|) {
        HandoffIsLater(old(history), history, script, proof);
        Obligation(old(history), e, history, proof);
      }
    }

    method ChargeState(now: int) returns (code: int)
      requires Valid()
      ensures code == ChargeCode(Fold(history), now)
    {
      if confirmed && ExitConfirmedLocked(now) { return 0; }
      if required && task.status == Failure { return 4; }
      if task.kind == UndockTask && (task.status == Starting || task.status == Running) { return 3; }
      if ChargingLocked() { return 2; }
      if task.kind == RechargingTask && (task.status == Starting || task.status == Running) { return 1; }
      return 0;
    }
  }
}
