/**
 The joint samples of the Cyvet bridge: the motor layout the robot reports once
 per connection, and the samples that are published only when they are complete.
 */
module CyvetJoints {
  import opened Prelude

  type Key = (nat, nat)

  /** One reported motor; None stands for a field of the wrong type or absent. */
  datatype MotorEntry = MotorEntry(limb: Option<nat>, joint: Option<nat>, name: Option<string>)

  datatype Motor = Motor(
    limb: nat, joint: nat, online: bool, error: bool, position: Double, velocity: Double, torque: Double)

  datatype JointState = JointState(names: seq<string>, positions: seq<real>, velocities: seq<real>, efforts: seq<real>)

  predicate Usable(e: MotorEntry) { e.limb.Some? && e.joint.Some? && e.name.Some? }

  function KeyOf(e: MotorEntry): Key
    requires Usable(e)
  { (e.limb.value, e.joint.value) }

  /** Usable entries all have names, and no two share a key or a name. */
  predicate Consistent(es: seq<MotorEntry>) {
    && (forall i :: 0 <= i < |es| && Usable(es[i]) ==> es[i].name.value != "")
    && (forall i, j :: 0 <= i < j < |es| && Usable(es[i]) && Usable(es[j]) ==>
          KeyOf(es[i]) != KeyOf(es[j]) && es[i].name.value != es[j].name.value)
  }

  /** The layout maps exactly the usable entries. */
  ghost predicate Lists(layout: map<Key, string>, es: seq<MotorEntry>) {
    && (forall i :: 0 <= i < |es| && Usable(es[i]) ==>
          KeyOf(es[i]) in layout && layout[KeyOf(es[i])] == es[i].name.value)
    && (forall k :: k in layout ==> Reported(es, k))
  }

  ghost predicate Reported(es: seq<MotorEntry>, k: Key) {
    exists i :: 0 <= i < |es| && Usable(es[i]) && KeyOf(es[i]) == k
  }

  ghost predicate Injective(layout: map<Key, string>) {
    forall a, b :: a in layout && b in layout && a != b ==> layout[a] != layout[b]
  }

  ghost predicate Named(layout: map<Key, string>) { forall k :: k in layout ==> layout[k] != "" }

  /** The layout after the entries so far. */
  ghost predicate Built(layout: map<Key, string>, es: seq<MotorEntry>) {
    Lists(layout, es) && Consistent(es) && Injective(layout) && Named(layout)
  }

  function MotorKey(m: Motor): Key { (m.limb, m.joint) }

  predicate Good(m: Motor, layout: map<Key, string>) {
    && MotorKey(m) in layout && m.online && !m.error
    && m.position.Finite? && m.velocity.Finite? && m.torque.Finite?
  }

  /** The sample holds one good reading of every motor in the layout, and nothing else. */
  ghost predicate Complete(num: int, motors: seq<Motor>, layout: map<Key, string>) {
    && 0 < num <= |motors| && num == |layout|
    && (forall i :: 0 <= i < num ==> MotorKey(motors[i]) in layout && motors[i].online && !motors[i].error)
    && (forall i :: 0 <= i < num ==>
          motors[i].position.Finite? && motors[i].velocity.Finite? && motors[i].torque.Finite?)
    && (forall i, j :: 0 <= i < j < num ==> MotorKey(motors[i]) != MotorKey(motors[j]))
  }

  // ---------- Counting ----------

  ghost function Elements<T>(s: seq<T>): set<T> { set x | x in s }

  lemma {:induction false} DistinctCount<T>(s: seq<T>)
    ensures |Elements(s)| <= |s|
    ensures |Elements(s)| == |s| <==> forall i, j :: 0 <= i < j < |s| ==> s[i] != s[j]
  {
    if s != [] {
      var n := |s| - 1;
      DistinctCount(s[..n]);
      if s[n] in s[..n] {
        assert Elements(s) == Elements(s[..n]);
        var i :| 0 <= i < n && s[i] == s[n];
      } else {
        assert Elements(s) == Elements(s[..n]) + {s[n]};
        assert forall i :: 0 <= i < n ==> s[i] == s[..n][i];
      }
    }
  }

  lemma {:induction false} ValuesCount(layout: map<Key, string>)
    ensures |layout.Values| <= |layout|
  {
  }

  lemma {:induction false} SubsetCount<T>(a: set<T>, b: set<T>)
    requires a <= b
    ensures |a| <= |b| && (|a| == |b| ==> a == b)
  {
    if a == {} {
      assert |b| == 0 ==> b == {};
    } else {
      var x :| x in a;
      SubsetCount(a - {x}, b - {x});
    }
  }

  // ---------- The object ----------

  class Joints {
    var layout: map<Key, string>
    var motionStamp: nat

    ghost predicate Valid()
      reads `layout
    {
      Injective(layout) && Named(layout)
    }

    constructor ()
      ensures Valid() && layout == map[] && motionStamp == 0
    {
      layout, motionStamp := map[], 0;
    }

    /** A connection: no names of an earlier one survive, and sample stamps start over. */
    method Connect(answered: bool, motors: Option<seq<MotorEntry>>)
      modifies this
      ensures Valid() && motionStamp == 0
      ensures !answered || motors == None || !Consistent(motors.value) ==> layout == map[]
      ensures answered && motors.Some? && Consistent(motors.value) ==> Lists(layout, motors.value)
    {
      layout := map[];
      if answered { ParseLayout(motors); }
      motionStamp := 0;
    }

    /** Either the whole consistent layout, or none at all. */
    method ParseLayout(motors: Option<seq<MotorEntry>>)
      modifies `layout
      ensures Valid()
      ensures motors == None || !Consistent(motors.value) ==> layout == map[]
      ensures motors.Some? && Consistent(motors.value) ==> Lists(layout, motors.value)
    {
      hide Built;
      layout := map[];
      if motors == None { return; }
      var names: set<string> := {};
      var es := motors.value;
      BuiltNone(es);
      for i := 0 to |es|
        invariant Built(layout, es[..i]) && names == layout.Values
      {
        if Usable(es[i]) {
          var key, name := KeyOf(es[i]), es[i].name.value;
          if name == "" || key in layout || name in names {
            Clash(es, i, layout);
            layout := map[];
            return;
          }
          ValuesAdd(layout, key, name);
          BuiltAdd(layout, es, i);
          layout := layout[key := name];
          names := names + {name};
        } else {
          BuiltSkip(layout, es, i);
        }
      }
      BuiltAll(layout, es);
    }

    /**
     A sample is published exactly when its stamp is newer than that of every sample
     of the session before it and it is complete; then it names every motor once.
     */
    method OnMotion(stamp: nat, num: int, motors: seq<Motor>) returns (joints: Option<JointState>)
      requires Valid()
      modifies `motionStamp
      ensures Valid() && motionStamp == Max(old(motionStamp), stamp)
      ensures joints.Some? <==> stamp > old(motionStamp) && Complete(num, motors, layout)
      ensures joints.Some? ==> Elements(joints.value.names) == layout.Values && |joints.value.names| == |layout|
      ensures joints.Some? ==> Rows(joints.value, motors[..num], layout)
    {
      if stamp <= motionStamp { return None; }
      motionStamp := stamp;
      joints := Collect(num, motors);
    }

    /** The good readings of a sample, row by row; as many as motors exactly when all are good. */
    method Read(num: nat, motors: seq<Motor>) returns (j: JointState)
      requires num <= |motors|
      ensures |j.names| <= num && (|j.names| == num <==> forall m :: 0 <= m < num ==> Good(motors[m], layout))
      ensures |j.names| == num ==> Rows(j, motors[..num], layout)
      ensures forall x :: x in j.names ==> x in layout.Values
    {
      j := JointState([], [], [], []);
      for i := 0 to num
        invariant |j.names| <= i && (|j.names| == i <==> forall m :: 0 <= m < i ==> Good(motors[m], layout))
        invariant |j.names| == i ==> Rows(j, motors[..i], layout)
        invariant forall x :: x in j.names ==> x in layout.Values
      {
        var motor := motors[i];
        if Good(motor, layout) {
          assert layout[MotorKey(motor)] in layout.Values;
          j := JointState(j.names + [layout[MotorKey(motor)]], j.positions + [motor.position.value],
                          j.velocities + [motor.velocity.value], j.efforts + [motor.torque.value]);
        }
      }
    }

    /** The joint readings of a sample, if they are complete. */
    method Collect(num: int, motors: seq<Motor>) returns (joints: Option<JointState>)
      requires Valid()
      ensures joints.Some? <==> Complete(num, motors, layout)
      ensures joints.Some? ==> Elements(joints.value.names) == layout.Values && |joints.value.names| == |layout|
      ensures joints.Some? ==> Rows(joints.value, motors[..num], layout)
    {
      if num <= 0 || num > |motors| || num != |layout| { return None; }
      var j := Read(num, motors);
      DistinctCount(j.names);
      if |j.names| != |layout| || |set x | x in j.names| != |layout| { return None; }
      assert Elements(j.names) <= layout.Values;
      ValuesCount(layout);
      SubsetCount(Elements(j.names), layout.Values);
      joints := Some(j);
    }
  }

  /** Row i of the published arrays is motor i of the sample. */
  ghost predicate Rows(j: JointState, motors: seq<Motor>, layout: map<Key, string>) {
    && |j.names| == |j.positions| == |j.velocities| == |j.efforts| == |motors|
    && forall i :: 0 <= i < |motors| ==>
        && Good(motors[i], layout) && j.names[i] == layout[MotorKey(motors[i])]
        && j.positions[i] == motors[i].position.value && j.velocities[i] == motors[i].velocity.value
        && j.efforts[i] == motors[i].torque.value
  }

  lemma ValuesAdd(layout: map<Key, string>, key: Key, name: string)
    requires key !in layout
    ensures layout[key := name].Values == layout.Values + {name}
  {
    var more := layout[key := name];
    assert more[key] == name;
    forall v | v in layout.Values ensures v in more.Values {
      var k :| k in layout && layout[k] == v;
      assert more[k] == v;
    }
  }

  lemma BuiltNone(es: seq<MotorEntry>)
    ensures Built(map[], es[..0])
  {
  }

  lemma BuiltSkip(layout: map<Key, string>, es: seq<MotorEntry>, i: nat)
    requires i < |es| && !Usable(es[i]) && Built(layout, es[..i])
    ensures Built(layout, es[..i + 1])
  {
  }

  lemma BuiltAll(layout: map<Key, string>, es: seq<MotorEntry>)
    requires Built(layout, es[..|es|])
    ensures Lists(layout, es) && Consistent(es) && Injective(layout) && Named(layout)
  {
  }

  /** A usable entry whose key and name are new extends the layout. */
  lemma BuiltAdd(layout: map<Key, string>, es: seq<MotorEntry>, i: nat)
    requires i < |es| && Usable(es[i]) && Built(layout, es[..i])
    requires es[i].name.value != "" && KeyOf(es[i]) !in layout && es[i].name.value !in layout.Values
    ensures Built(layout[KeyOf(es[i]) := es[i].name.value], es[..i + 1])
  {
  }

  lemma Clash(es: seq<MotorEntry>, i: nat, layout: map<Key, string>)
    requires i < |es| && Usable(es[i]) && Built(layout, es[..i])
    requires es[i].name.value == "" || KeyOf(es[i]) in layout || es[i].name.value in layout.Values
    ensures !Consistent(es)
  {
  }
}
