/**
 Continuous odometry of the Cyvet bridge. The robot's odometry restarts from a
 new origin in every walking epoch; the bridge stitches the pieces together with
 one stored offset per piece. The reference is plain dead reckoning, which keeps
 no offset: it adds up raw increments, turned by a fixed angle within a stretch,
 and nothing across a gap. Angles are real; cos and sin are any two functions
 with the laws named in `Lawful`.
 */
module Odometry {

  datatype Pose = Pose(x: real, y: real, yaw: real)

  datatype Trig = Trig(cos: real -> real, sin: real -> real)

  ghost predicate Lawful(t: Trig) {
    && t.cos(0.0) == 1.0 && t.sin(0.0) == 0.0
    && forall a: real :: t.cos(a) * t.cos(a) + t.sin(a) * t.sin(a) == 1.0
  }

  const ORIGIN := Pose(0.0, 0.0, 0.0)

  datatype Event = Sample(epoch: nat, raw: Pose) | NewSession

  function Plus(p: Pose, d: Pose): Pose { Pose(p.x + d.x, p.y + d.y, p.yaw + d.yaw) }

  function Times(a: real, b: real): real { a * b }

  /** The raw step from one pose to another, its position part turned by `turn`. */
  function Step(t: Trig, turn: real, from: Pose, dest: Pose): Pose {
    var dx, dy := dest.x - from.x, dest.y - from.y;
    Pose(Times(t.cos(turn), dx) - Times(t.sin(turn), dy), Times(t.sin(turn), dx) + Times(t.cos(turn), dy),
         dest.yaw - from.yaw)
  }

  // ---------- Dead reckoning ----------

  datatype Track = Track(seen: bool, gap: bool, epoch: nat, turn: real, raw: Pose, pose: Pose)

  ghost function Follow(t: Trig, k: Track, e: Event): Track {
    match e
    case NewSession => k.(gap := true)
    case Sample(epoch, raw) =>
      if !k.seen then Track(true, false, epoch, 0.0, raw, raw)
      else if k.gap || epoch != k.epoch then Track(true, false, epoch, k.pose.yaw - raw.yaw, raw, k.pose)
      else k.(raw := raw, pose := Plus(k.pose, Step(t, k.turn, k.raw, raw)))
  }

  ghost function Reckon(t: Trig, events: seq<Event>): Track {
    if events == [] then Track(false, false, 0, 0.0, ORIGIN, ORIGIN)
    else Follow(t, Reckon(t, events[..|events| - 1]), events[|events| - 1])
  }

  // ---------- The stitcher ----------

  /** Where the offset puts a raw pose. */
  function Place(t: Trig, offset: Pose, raw: Pose): Pose {
    Pose(offset.x + Times(t.cos(offset.yaw), raw.x) - Times(t.sin(offset.yaw), raw.y),
         offset.y + Times(t.sin(offset.yaw), raw.x) + Times(t.cos(offset.yaw), raw.y),
         offset.yaw + raw.yaw)
  }

  lemma Spread(k: real, a: real, b: real)
    ensures Times(k, a - b) == Times(k, a) - Times(k, b)
  {
  }

  lemma PlaceMoves(t: Trig, offset: Pose, from: Pose, dest: Pose)
    ensures Place(t, offset, dest) == Plus(Place(t, offset, from), Step(t, offset.yaw, from, dest))
  {
    hide Times;
    var c, s := t.cos(offset.yaw), t.sin(offset.yaw);
    Spread(c, dest.x, from.x);
    Spread(s, dest.x, from.x);
    Spread(c, dest.y, from.y);
    Spread(s, dest.y, from.y);
  }

  lemma PlaceUnturned(t: Trig, raw: Pose)
    requires Lawful(t)
    ensures Place(t, ORIGIN, raw) == raw
  {
  }

  /** The offset that puts a raw pose exactly on a given one. */
  function Anchor(t: Trig, raw: Pose, at: Pose): (offset: Pose)
    ensures Place(t, offset, raw) == at
  {
    hide Times;
    var yaw := at.yaw - raw.yaw;
    var c, s := t.cos(yaw), t.sin(yaw);
    Pose(at.x - Times(c, raw.x) + Times(s, raw.y), at.y - Times(s, raw.x) - Times(c, raw.y), yaw)
  }

  class ContinuousOdometry {
    const trig: Trig
    var initialized: bool
    var reset: bool
    var epoch: nat
    var offset: Pose
    var last: Pose
    ghost var events: seq<Event>

    ghost predicate Valid()
      reads this
    {
      var k := Reckon(trig, events);
      && Lawful(trig)
      && initialized == k.seen && reset == k.gap && epoch == k.epoch && last == k.pose
      && offset.yaw == k.turn
      && (if k.seen then last == Place(trig, offset, k.raw) else offset == ORIGIN)
    }

    constructor (trig: Trig)
      requires Lawful(trig)
      ensures Valid() && events == [] && this.trig == trig
    {
      this.trig := trig;
      initialized, reset, epoch, offset, last, events := false, false, 0, ORIGIN, ORIGIN, [];
    }

    /** The published pose is the one dead reckoning over the whole stream gives. */
    method Update(sampleEpoch: nat, raw: Pose) returns (pose: Pose)
      requires Valid()
      modifies this
      ensures Valid() && events == old(events) + [Sample(sampleEpoch, raw)]
      ensures pose == Reckon(trig, events).pose
    {
      hide Times;
      ghost var k := Reckon(trig, events);
      events := events + [Sample(sampleEpoch, raw)];
      assert events[..|events| - 1] == old(events);
      if !initialized {
        PlaceUnturned(trig, raw);
        initialized := true;
        reset := false;
        epoch := sampleEpoch;
      } else if reset || sampleEpoch != epoch {
        reset := false;
        epoch := sampleEpoch;
        offset := Anchor(trig, raw, last);
      } else {
        PlaceMoves(trig, offset, k.raw, raw);
      }
      last := Place(trig, offset, raw);
      pose := last;
    }

    method NewSessionStarts()
      requires Valid()
      modifies this
      ensures Valid() && events == old(events) + [NewSession]
      ensures last == old(last)
    {
      reset := true;
      events := events + [NewSession];
      assert events[..|events| - 1] == old(events);
    }
  }

  // ---------- Any sample stream ----------

  /** What was published for event i, or is still standing at it. */
  ghost function Published(t: Trig, events: seq<Event>, i: nat): Pose
    requires i < |events|
  {
    Reckon(t, events[..i + 1]).pose
  }

  /** Sample j is the latest one before event i. */
  ghost predicate Previous(events: seq<Event>, j: nat, i: nat) {
    j < i < |events| && events[j].Sample? && forall m :: j < m < i ==> events[m] == NewSession
  }

  /** Samples j..i, all of one epoch, with no new session among them. */
  ghost predicate OneStretch(events: seq<Event>, j: nat, i: nat) {
    && j <= i < |events| && events[j].Sample?
    && forall m :: j <= m <= i ==> events[m].Sample? && events[m].epoch == events[j].epoch
  }

  lemma ReckonNext(t: Trig, events: seq<Event>, i: nat)
    requires i < |events|
    ensures Reckon(t, events[..i + 1]) == Follow(t, Reckon(t, events[..i]), events[i])
  {
    assert events[..i + 1][..i] == events[..i];
  }

  /** Between samples only the gap mark moves. */
  lemma {:induction false} Standing(t: Trig, events: seq<Event>, j: nat, i: nat)
    requires Previous(events, j, i)
    ensures var k, s := Reckon(t, events[..i]), Reckon(t, events[..j + 1]);
      s.seen && !s.gap && s.raw == events[j].raw && s.epoch == events[j].epoch && k == s.(gap := i > j + 1)
  {
    if i == j + 1 {
      ReckonNext(t, events, j);
    } else {
      Standing(t, events, j, i - 1);
      ReckonNext(t, events, i - 1);
    }
  }

  /** The first sample of a run is published as it is. */
  lemma {:induction false} FirstIsRaw(t: Trig, events: seq<Event>, i: nat)
    requires i < |events| && events[i].Sample? && forall m :: 0 <= m < i ==> events[m] == NewSession
    ensures Published(t, events, i) == events[i].raw
  {
    Unseen(t, events, i);
    ReckonNext(t, events, i);
  }

  lemma {:induction false} Unseen(t: Trig, events: seq<Event>, i: nat)
    requires i <= |events| && forall m :: 0 <= m < i ==> events[m] == NewSession
    ensures !Reckon(t, events[..i]).seen
  {
    if i > 0 {
      Unseen(t, events, i - 1);
      ReckonNext(t, events, i - 1);
    }
  }

  /** A sample after an epoch change or a new session publishes exactly the previous pose. */
  lemma GapInventsNothing(t: Trig, events: seq<Event>, j: nat, i: nat)
    requires Previous(events, j, i) && events[i].Sample?
    requires i > j + 1 || events[i].epoch != events[j].epoch
    ensures Published(t, events, i) == Published(t, events, j)
  {
    Standing(t, events, j, i);
    ReckonNext(t, events, i);
  }

  /** Within a stretch all published steps are the raw ones under one and the same turn. */
  lemma {:induction false} StretchIsOneTurn(t: Trig, events: seq<Event>, j: nat, i: nat)
    requires OneStretch(events, j, i)
    ensures var turn := Reckon(t, events[..j + 1]).turn;
      && Reckon(t, events[..i + 1]).turn == turn
      && Published(t, events, i) == Plus(Published(t, events, j), Step(t, turn, events[j].raw, events[i].raw))
    decreases i
  {
    hide Times, Step;
    var turn := Reckon(t, events[..j + 1]).turn;
    if i == j {
      StepNowhere(t, turn, events[j].raw);
    } else {
      StretchIsOneTurn(t, events, j, i - 1);
      Standing(t, events, i - 1, i);
      ReckonNext(t, events, i);
      StepsAdd(t, turn, events[j].raw, events[i - 1].raw, events[i].raw);
    }
  }

  /** The turn in use is by how much the published heading is ahead of the raw one. */
  lemma {:induction false} TurnIsHeading(t: Trig, events: seq<Event>)
    ensures var k := Reckon(t, events); k.seen ==> k.turn == k.pose.yaw - k.raw.yaw
  {
    hide Times;
    if events != [] { TurnIsHeading(t, events[..|events| - 1]); }
  }

  /**
   Within a stretch the published displacement is the raw one, turned counterclockwise
   by the angle by which the published heading was ahead of the raw one at its start.
   */
  lemma StretchIsTurned(t: Trig, events: seq<Event>, j: nat, i: nat)
    requires OneStretch(events, j, i)
    ensures var a, b := events[j].raw, events[i].raw;
      var p, q := Published(t, events, j), Published(t, events, i);
      var c, s := t.cos(p.yaw - a.yaw), t.sin(p.yaw - a.yaw);
      && q.x - p.x == c * (b.x - a.x) - s * (b.y - a.y)
      && q.y - p.y == s * (b.x - a.x) + c * (b.y - a.y)
      && q.yaw - p.yaw == b.yaw - a.yaw
  {
    hide Reckon;
    StretchIsOneTurn(t, events, j, i);
    AtSample(t, events, j);
    TurnIsHeading(t, events[..j + 1]);
  }

  lemma AtSample(t: Trig, events: seq<Event>, j: nat)
    requires j < |events| && events[j].Sample?
    ensures Reckon(t, events[..j + 1]).seen && Reckon(t, events[..j + 1]).raw == events[j].raw
  {
    hide Times;
    ReckonNext(t, events, j);
  }

  lemma StepNowhere(t: Trig, turn: real, a: Pose)
    ensures Step(t, turn, a, a) == ORIGIN
  {
  }

  lemma StepsAdd(t: Trig, turn: real, a: Pose, b: Pose, c: Pose)
    ensures Plus(Step(t, turn, a, b), Step(t, turn, b, c)) == Step(t, turn, a, c)
  {
    hide Times, Place, Step;
    PlaceMoves(t, Pose(0.0, 0.0, turn), a, b);
    PlaceMoves(t, Pose(0.0, 0.0, turn), b, c);
    PlaceMoves(t, Pose(0.0, 0.0, turn), a, c);
  }

  function Squared(x: real): real { Times(x, x) }

  function SquaredDistance(a: Pose, b: Pose): real { Squared(b.x - a.x) + Squared(b.y - a.y) }

  lemma SquaredSum(p: real, q: real)
    ensures Squared(p + q) == Squared(p) + 2.0 * Times(p, q) + Squared(q)
    ensures Squared(p - q) == Squared(p) - 2.0 * Times(p, q) + Squared(q)
  {
  }

  lemma SquaredProduct(c: real, x: real)
    ensures Squared(Times(c, x)) == Times(Squared(c), Squared(x))
  {
  }

  lemma Swap(c: real, x: real, s: real, y: real)
    ensures Times(Times(c, x), Times(s, y)) == Times(Times(s, x), Times(c, y))
  {
    assert (c * x) * (s * y) == (s * x) * (c * y);
  }

  lemma Shares(a: real, b: real, x: real)
    requires a + b == 1.0
    ensures Times(a, x) + Times(b, x) == x
  {
    assert a * x + b * x == (a + b) * x;
  }

  lemma TurnKeepsLength(c: real, s: real, x: real, y: real)
    requires Squared(c) + Squared(s) == 1.0
    ensures Squared(Times(c, x) - Times(s, y)) + Squared(Times(s, x) + Times(c, y)) == Squared(x) + Squared(y)
  {
    hide Times, Squared;
    SquaredSum(Times(c, x), Times(s, y));
    SquaredSum(Times(s, x), Times(c, y));
    Swap(c, x, s, y);
    SquaredProduct(c, x);
    SquaredProduct(s, y);
    SquaredProduct(s, x);
    SquaredProduct(c, y);
    Shares(Squared(c), Squared(s), Squared(x));
    Shares(Squared(c), Squared(s), Squared(y));
  }

  lemma UnitSquares(t: Trig, turn: real)
    requires Lawful(t)
    ensures Squared(t.cos(turn)) + Squared(t.sin(turn)) == 1.0
  {
  }

  lemma StepKeepsLength(t: Trig, turn: real, a: Pose, b: Pose)
    requires Lawful(t)
    ensures var d := Step(t, turn, a, b); Squared(d.x) + Squared(d.y) == SquaredDistance(a, b)
  {
    hide Times, Squared;
    UnitSquares(t, turn);
    TurnKeepsLength(t.cos(turn), t.sin(turn), b.x - a.x, b.y - a.y);
  }

  /** Distances and headings between any two samples of a stretch survive publication. */
  lemma StretchIsRigid(t: Trig, events: seq<Event>, j: nat, i: nat)
    requires Lawful(t) && OneStretch(events, j, i)
    ensures SquaredDistance(Published(t, events, j), Published(t, events, i))
         == SquaredDistance(events[j].raw, events[i].raw)
    ensures Published(t, events, i).yaw - Published(t, events, j).yaw == events[i].raw.yaw - events[j].raw.yaw
  {
    hide Times, Squared, Reckon;
    StretchIsOneTurn(t, events, j, i);
    var turn := Reckon(t, events[..j + 1]).turn;
    var p, q, d := Published(t, events, j), Published(t, events, i), Step(t, turn, events[j].raw, events[i].raw);
    StepKeepsLength(t, turn, events[j].raw, events[i].raw);
    assert q.x - p.x == d.x && q.y - p.y == d.y;
  }

  /** What event i adds to the track: a turned raw step if it continues a stretch, else nothing. */
  ghost function Contribution(t: Trig, events: seq<Event>, i: nat): Pose
    requires 0 < i < |events|
  {
    if OneStretch(events, i - 1, i) then
      var a, b := events[i - 1].raw, events[i].raw;
      var turn := Published(t, events, i - 1).yaw - a.yaw;
      Pose(t.cos(turn) * (b.x - a.x) - t.sin(turn) * (b.y - a.y),
           t.sin(turn) * (b.x - a.x) + t.cos(turn) * (b.y - a.y), b.yaw - a.yaw)
    else ORIGIN
  }

  lemma ContributionIsStep(t: Trig, events: seq<Event>, i: nat)
    requires 0 < i < |events| && OneStretch(events, i - 1, i)
    ensures Published(t, events, i) == Plus(Published(t, events, i - 1), Contribution(t, events, i))
  {
    hide Reckon;
    StretchIsTurned(t, events, i - 1, i);
  }

  lemma GapContributesNothing(t: Trig, events: seq<Event>, i: nat)
    requires 0 < i < |events| && !OneStretch(events, i - 1, i)
    ensures Contribution(t, events, i) == ORIGIN
  {
  }

  ghost function Sum(t: Trig, events: seq<Event>, from: nat, upto: nat): Pose
    requires from <= upto < |events|
    decreases upto
  {
    if upto == from then ORIGIN else Plus(Sum(t, events, from, upto - 1), Contribution(t, events, upto))
  }

  /** Conservation: the published displacement is the sum of the stretches', gaps contributing zero. */
  lemma {:induction false} DisplacementIsSum(t: Trig, events: seq<Event>, from: nat, upto: nat)
    requires from <= upto < |events| && events[from].Sample?
    ensures Published(t, events, upto) == Plus(Published(t, events, from), Sum(t, events, from, upto))
    decreases upto
  {
    hide Times, Step, Contribution;
    if upto > from {
      DisplacementIsSum(t, events, from, upto - 1);
      var j := LatestSample(events, from, upto);
      Standing(t, events, j, upto);
      ReckonNext(t, events, upto);
      if events[upto].Sample? && (j + 1 < upto || events[upto].epoch != events[j].epoch) {
        GapContributesNothing(t, events, upto);
      } else if events[upto].Sample? {
        assert OneStretch(events, upto - 1, upto);
        ContributionIsStep(t, events, upto);
      } else {
        GapContributesNothing(t, events, upto);
      }
    }
  }

  lemma {:induction false} LatestSample(events: seq<Event>, from: nat, upto: nat) returns (j: nat)
    requires from < upto < |events| && events[from].Sample?
    ensures from <= j && Previous(events, j, upto)
    decreases upto
  {
    if events[upto - 1].Sample? {
      j := upto - 1;
    } else {
      j := LatestSample(events, from, upto - 1);
    }
  }
}
