/**
 The robot as the X30 bridge sees it: a state store that can be read or waited
 on, a clock in milliseconds, and commands that are sent as effects.

 The robot is adversarial. `script(k)` is what the k-th observation will find,
 with no relation to the commands sent; everything is proved for every script.
 A wait that fails takes exactly its timeout and a wait that succeeds at most
 that; a warm-up and a sleep take exactly their length; the rest takes no time.
 */
module X30Robot {
  import opened Prelude

  datatype Basic =
    | LyingDown | StandingUp | InitialStand | ForceStand | Stepping | GoingDown | SoftEstop | RlMode
    | OtherBasic(code: nat)

  datatype Gait =
    | Walk | Obstacle | Slope | Run | StairSolid | StairAcc | Stair45Acc
    | LWalk | Mountain | Silent | LStair
    | OtherGait(code: nat)

  datatype Command = StandUpDown | ForceControl | Motion | SetGait(gait: Gait)

  datatype Obs = Obs(basic: Basic, gait: Gait, connected: bool, crawling: bool, delay: nat)

  /** A command, when it went out, and the last observation before it. */
  datatype Sent = Sent(command: Command, at: int, seen: Obs)

  /** What is held true of every command sent since a point in time. */
  ghost predicate Only(sent: seq<Sent>, from: nat, command: Command) {
    forall i :: from <= i < |sent| ==> sent[i].command == command
  }

  class Robot {
    const script: nat -> Obs
    var next: nat
    var now: int
    ghost var last: Obs
    ghost var sent: seq<Sent>

    constructor (script: nat -> Obs, now: int)
      ensures this.script == script && this.now == now && next == 0 && sent == []
    {
      this.script := script;
      this.next := 0;
      this.now := now;
      this.last := script(0);
      this.sent := [];
    }

    /** One look at the store, under its lock. */
    method Snapshot() returns (o: Obs)
      modifies `next, `last
      ensures o == last == script(old(next)) && next == old(next) + 1
    {
      o := script(next);
      next := next + 1;
      last := o;
    }

    method BasicState() returns (b: Basic)
      modifies `next, `last
      ensures b == last.basic && last == script(old(next)) && next == old(next) + 1
    {
      var o := Snapshot();
      b := o.basic;
    }

    method GaitState() returns (g: Gait)
      modifies `next, `last
      ensures g == last.gait && last == script(old(next)) && next == old(next) + 1
    {
      var o := Snapshot();
      g := o.gait;
    }

    method WaitForState(want: Obs -> bool, timeout: int) returns (ok: bool)
      modifies `next, `last, `now
      ensures next == old(next) + 1 && last == script(old(next))
      ensures ok == want(last)
      ensures ok ==> old(now) <= now <= old(now) + Max(timeout, 0)
      ensures !ok ==> now == old(now) + Max(timeout, 0)
    {
      var o := Snapshot();
      ok := want(o);
      now := now + if ok then Min(o.delay, Max(timeout, 0)) else Max(timeout, 0);
    }

    method WaitForBasic(targets: set<Basic>, timeout: int) returns (ok: bool)
      modifies `next, `last, `now
      ensures next == old(next) + 1 && last == script(old(next))
      ensures ok == (last.basic in targets)
      ensures ok ==> old(now) <= now <= old(now) + Max(timeout, 0)
      ensures !ok ==> now == old(now) + Max(timeout, 0)
    {
      ok := WaitForState((o: Obs) => o.basic in targets, timeout);
    }

    method WaitForGait(target: Gait, timeout: int) returns (ok: bool)
      modifies `next, `last, `now
      ensures next == old(next) + 1 && last == script(old(next))
      ensures ok == (last.gait == target)
      ensures ok ==> old(now) <= now <= old(now) + Max(timeout, 0)
      ensures !ok ==> now == old(now) + Max(timeout, 0)
    {
      ok := WaitForState((o: Obs) => o.gait == target, timeout);
    }

    /** A control warm-up, or a sleep. */
    method Pass(ms: nat)
      modifies `now
      ensures now == old(now) + ms
    {
      now := now + ms;
    }

    method Send(command: Command)
      modifies `sent
      ensures sent == old(sent) + [Sent(command, now, last)]
    {
      sent := sent + [Sent(command, now, last)];
    }
  }
}
