/**
 The charge-exit state of the D1 Max back end.

 `Apply` is what one critical section does to the few sequence numbers, times
 and flags the back end keeps; `Fold` is the state those sections leave after a
 whole history. The questions the back end later asks of this digest are
 answered from the history in `D1History`.
 */
module D1State {
  import opened Prelude

  datatype TaskType = RechargingTask | UndockTask | OtherTask
  datatype TaskStatus = Unknown | Starting | Running | Success | Failure | Stopped
  datatype Power = PowerUnknown | Charging | Discharging | Full
  datatype Machine = Recharge | OtherMachine

  datatype Battery = Battery(present1: bool, present2: bool, status1: Power, status2: Power)
  datatype Sample = Sample(pile: bool, battery: Battery, machine: Machine)
  datatype Task = Task(kind: TaskType, status: TaskStatus, error: nat)

  /** Sequence numbers are those of the task update that last reported the event; 0 is none. */
  datatype Undock = Undock(success: nat, successTime: int, failure: nat, failureError: nat, stopped: nat)

  datatype Digest = Digest(
    task: Task, sequence: nat, rechargeStopped: nat, undock: Undock,
    pile: bool, battery: Battery, lastBasic: Option<int>,
    required: bool, confirmed: bool)

  const FRESH_MS := 5000

  const INITIAL := Digest(Task(OtherTask, Unknown, 0), 0, 0, Undock(0, 0, 0, 0, 0),
                          false, Battery(false, false, PowerUnknown, PowerUnknown), None, false, false)

  /**
   The two SDK callbacks, and the sections of the charge calls that write.
   `ExitAccepted` is the handoff itself: it retires the undock demand and the
   SUCCESS it relied on.
   */
  datatype Event =
    | Telemetry(sample: Sample, at: int)
    | TaskUpdate(task: Task, at: int)
    | RechargeCalled
    | UndockDemanded
    | UndockCommanded
    | ExitAccepted

  predicate Callback(e: Event) { e.Telemetry? || e.TaskUpdate? }

  predicate ChargingBattery(b: Battery) {
    (b.present1 && b.status1 == Charging) || (b.present2 && b.status2 == Charging)
  }

  predicate IsCharging(d: Digest) { ChargingBattery(d.battery) }

  predicate FreshAt(d: Digest, now: int) { d.lastBasic.Some? && now - d.lastBasic.value < FRESH_MS }

  predicate ExitConfirmed(d: Digest, now: int) {
    FreshAt(d, now) && (!d.pile || !IsCharging(d))
  }

  predicate NotCharging(p: Power) { p == Discharging || p == Full }

  predicate CanSkipUndock(d: Digest) {
    || !d.pile
    || (&& (d.battery.present1 || d.battery.present2)
        && (d.battery.present1 ==> NotCharging(d.battery.status1))
        && (d.battery.present2 ==> NotCharging(d.battery.status2)))
  }

  predicate Active(t: Task) { t.status == Starting || t.status == Running }

  /** Task updates that revoke a confirmed exit and demand an undock. */
  predicate ChargeActivity(t: Task) {
    (t.kind == RechargingTask || t.kind == UndockTask) && (Active(t) || t.status == Failure)
  }

  function OnTelemetry(d: Digest, sample: Sample, now: int): Digest {
    var d1 := d.(pile := sample.pile, battery := sample.battery, lastBasic := Some(now));
    var confirmed := d1.confirmed && ExitConfirmed(d1, now);
    d1.(confirmed := confirmed,
        required := d1.required || (!confirmed && (IsCharging(d1) || sample.machine == Recharge)))
  }

  function OnTask(d: Digest, task: Task, now: int): Digest {
    var sequence := d.sequence + 1;
    var d1 := d.(task := task, sequence := sequence);
    var d2 := if ChargeActivity(task) then d1.(confirmed := false, required := true) else d1;
    if task.kind == RechargingTask && task.status == Stopped then d2.(rechargeStopped := sequence)
    else if task.kind != UndockTask then d2
    else match task.status
      case Success => d2.(undock := d2.undock.(success := sequence, successTime := now))
      case Failure => d2.(undock := d2.undock.(failure := sequence, failureError := task.error))
      case Stopped => d2.(undock := d2.undock.(stopped := sequence))
      case _ => d2
  }

  function Apply(d: Digest, e: Event): Digest {
    match e
    case Telemetry(sample, at) => OnTelemetry(d, sample, at)
    case TaskUpdate(task, at) => OnTask(d, task, at)
    case RechargeCalled => d.(confirmed := false)
    case UndockDemanded => d.(required := true)
    case UndockCommanded => d.(required := true, confirmed := false)
    case ExitAccepted => d.(required := false, confirmed := true, undock := d.undock.(success := 0))
  }

  function Fold(h: seq<Event>): Digest {
    if h == [] then INITIAL else Apply(Fold(h[..|h| - 1]), h[|h| - 1])
  }

  // ---------- The questions asked of the digest ----------

  predicate WaitFails(d: Digest, min: nat) { d.undock.failure > min }

  predicate WaitSucceeds(d: Digest, min: nat, started: int, now: int) {
    && d.undock.success > min
    && d.lastBasic.Some? && d.lastBasic.value >= Max(started, d.undock.successTime)
    && ExitConfirmed(d, now)
  }

  /** X30-compatible: 0 idle, 1 task running, 2 charging, 3 undocking, 4 failure. */
  function ChargeCode(d: Digest, now: int): int {
    if d.confirmed && ExitConfirmed(d, now) then 0
    else if d.required && d.task.status == Failure then 4
    else if d.task.kind == UndockTask && Active(d.task) then 3
    else if IsCharging(d) then 2
    else if d.task.kind == RechargingTask && Active(d.task) then 1
    else 0
  }
}
