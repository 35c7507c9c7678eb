/**
 The state record of the TANK back end and its critical sections.

 Each function of this module is what one `mutex` critical section does to the
 record. They are the steps of the protocol in `TankProtocol`; class
 `TankBackend.TankImpl` performs the same sections in place.
 */
module TankState {
  import opened Prelude

  /** The options that influence control; times are in milliseconds. */
  datatype Options = Options(
    motionOutput: bool, startupAcquire: bool,
    maxLinear: real, maxAngular: real,
    commandTimeout: int, telemetryTimeout: int, moveFailureTimeout: int,
    moveFailureLimit: int, stateFailureLimit: int)
  {
    predicate Valid() {
      && 0.0 < maxLinear <= 1.2 && 0.0 < maxAngular
      && 0 < commandTimeout && 0 < telemetryTimeout && 0 < moveFailureTimeout
      && 0 < moveFailureLimit && 0 < stateFailureLimit
    }
  }

  /**
   `commandTime` is None for the zero time point. `commandId` and `commandEpoch`
   are bookkeeping of the model: which accepted command is cached, and the epoch
   at which `move` accepted it.
   */
  datatype Shared = Shared(
    running: bool, epoch: nat,
    connected: bool, owned: bool, want: bool, estop: bool,
    brake: bool, brakeKnown: bool, operation: string,
    vx: real, wz: real, commandTime: Option<int>,
    telemetryTime: int, ackTime: int,
    moveFailures: nat, stateFailures: nat,
    commandId: nat, commandEpoch: nat, nextId: nat)

  const IDLE: string := "Idle"

  function Initial(o: Options): Shared {
    Shared(false, 0, false, false, o.startupAcquire, false, false, false, "",
           0.0, 0.0, None, 0, 0, 0, 0, 0, 0, 1)
  }

  function ClearCommand(s: Shared): Shared {
    s.(vx := 0.0, wz := 0.0, commandTime := None)
  }

  function Inhibit(s: Shared, emergency: bool): Shared {
    ClearCommand(s.(epoch := s.epoch + 1, want := false, owned := false, estop := s.estop || emergency))
  }

  function LinkFailed(s: Shared, ticket: nat): Shared {
    if ticket != s.epoch then s
    else ClearCommand(s.(connected := false, owned := false, brakeKnown := false)).(epoch := s.epoch + 1)
  }

  predicate CommitAllowed(s: Shared, ticket: nat) { s.running && ticket == s.epoch }

  function PrepareCommit(o: Options, s: Shared, explicitReady: bool, ticket: nat,
                         operation: string, brake: bool, now: int): Shared
  {
    if !CommitAllowed(s, ticket) then s
    else
      var estop := s.estop && !explicitReady;
      var want := s.want || explicitReady;
      ClearCommand(s.(operation := operation, brake := brake, brakeKnown := true,
                      estop := estop, want := want, connected := true,
                      owned := o.motionOutput && want && !brake && !estop,
                      telemetryTime := now, ackTime := now, moveFailures := 0, stateFailures := 0))
  }

  function BrakeCommit(s: Shared): Shared { s.(brake := true, brakeKnown := true) }

  /** What one control tick reads under the mutex. */
  datatype Tick = Tick(ticket: nat, active: bool, stale: bool, ackExpired: bool,
                       linear: real, angular: real, id: nat)

  predicate Fresh(o: Options, s: Shared, now: int) {
    s.commandTime.Some? && now - s.commandTime.value <= o.commandTimeout
  }

  function TakeTick(o: Options, s: Shared, now: int): Tick {
    var active := s.running && o.motionOutput && s.connected && s.owned && !s.estop && !s.brake;
    var recent := Fresh(o, s, now);
    Tick(s.epoch, active,
         active && now - s.telemetryTime > o.telemetryTimeout,
         active && s.moveFailures > 0 && now - s.ackTime >= o.moveFailureTimeout,
         if recent then s.vx else 0.0, if recent then s.wz else 0.0, if recent then s.commandId else 0)
  }

  function TickCommit(o: Options, s: Shared, ticket: nat, ok: bool, now: int): Shared {
    if ticket != s.epoch || !s.owned then s
    else if ok then s.(moveFailures := 0, ackTime := now)
    else ClearCommand(s.(moveFailures := s.moveFailures + 1))
  }

  /** Whether the failed tick must drop the link, given the record before the commit. */
  predicate TickDisconnects(o: Options, s: Shared, ticket: nat, ok: bool, transport: bool, now: int) {
    && ticket == s.epoch && s.owned && !ok
    && (|| !transport
        || s.moveFailures + 1 >= o.moveFailureLimit
        || now - s.ackTime >= o.moveFailureTimeout)
  }

  function StatePollFailed(s: Shared): Shared { s.(stateFailures := s.stateFailures + 1) }

  predicate StatePollDisconnects(o: Options, s: Shared, transport: bool, now: int) {
    || !transport
    || s.stateFailures + 1 >= o.stateFailureLimit
    || now - s.telemetryTime >= o.telemetryTimeout
  }

  function TelemetryCommit(s: Shared, ticket: nat, operation: string, brake: bool, now: int): Shared {
    if ticket != s.epoch then s
    else
      var s1 := s.(operation := operation, brake := brake, brakeKnown := true,
                   telemetryTime := now, stateFailures := 0);
      if brake || operation != IDLE then ClearCommand(s1.(owned := false, want := false)) else s1
  }

  predicate MoveAllowed(s: Shared) {
    s.running && s.connected && s.owned && !s.estop && !s.brake
  }

  predicate AllFinite(vx: Double, vy: Double, wz: Double) { vx.Finite? && vy.Finite? && wz.Finite? }

  /** A request within the limit is followed exactly, one beyond it up to the limit on its own side. */
  predicate Follows(limit: real, asked: real, given: real) {
    if -limit <= asked <= limit then given == asked
    else given == if asked > 0.0 then limit else -limit
  }

  function Move(o: Options, s: Shared, vx: Double, vy: Double, wz: Double, now: int): Shared {
    if !AllFinite(vx, vy, wz) then ClearCommand(s)
    else if !MoveAllowed(s) then s
    else s.(vx := Clamp(vx.value, -o.maxLinear, o.maxLinear),
            wz := Clamp(wz.value, -o.maxAngular, o.maxAngular),
            commandTime := Some(now), commandId := s.nextId, commandEpoch := s.epoch, nextId := s.nextId + 1)
  }

  function Disconnected(s: Shared): Shared { s.(connected := false) }
}
