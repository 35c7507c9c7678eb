/**
 The `Impl` object of the TANK back end: one method per `mutex` critical
 section, each proved to do to the fields exactly what the section function of
 `TankState` does to the record, which is what the interleaving model executes.
 */
module TankBackend {
  import opened Prelude
  import opened TankState
  import Section = TankState

  /** Fields that the sections always write together. */
  datatype Cached = Cached(connected: bool, owned: bool)
  datatype Device = Device(brake: bool, brakeKnown: bool, operation: string)
  datatype Command = Command(vx: real, wz: real, time: Option<int>)
  datatype Link = Link(telemetryTime: int, ackTime: int, moveFailures: nat, stateFailures: nat)

  const NO_COMMAND := Command(0.0, 0.0, None)

  /**
   The ghost fields are bookkeeping of the model: which accepted command is
   cached, and the epoch at which `Move` accepted it.
   */
  class TankImpl {
    const options: Options
    var running: bool
    var epoch: nat
    var cached: Cached
    var want: bool
    var estop: bool
    var device: Device
    var command: Command
    var link: Link
    ghost var commandId: nat
    ghost var commandEpoch: nat
    ghost var nextId: nat

    ghost function View(): Shared
      reads this
    {
      Shared(running, epoch, cached.connected, cached.owned, want, estop,
             device.brake, device.brakeKnown, device.operation,
             command.vx, command.wz, command.time,
             link.telemetryTime, link.ackTime, link.moveFailures, link.stateFailures,
             commandId, commandEpoch, nextId)
    }

    constructor (options: Options)
      requires options.Valid()
      ensures this.options == options && View() == Initial(options)
    {
      this.options := options;
      running, epoch, cached := false, 0, Cached(false, false);
      want, estop, device := options.startupAcquire, false, Device(false, false, "");
      command, link := NO_COMMAND, Link(0, 0, 0, 0);
      commandId, commandEpoch, nextId := 0, 0, 1;
    }

    method ClearCommandLocked()
      modifies `command
      ensures View() == ClearCommand(old(View())) && command == NO_COMMAND
    {
      command := NO_COMMAND;
    }

    method Inhibit(emergency: bool) returns (ticket: nat)
      modifies this
      ensures View() == Section.Inhibit(old(View()), emergency)
      ensures ticket == epoch == old(epoch) + 1
      ensures !want && !cached.owned && command == NO_COMMAND && estop == (old(estop) || emergency)
      ensures unchanged(`running, `device, `link) && cached.connected == old(cached).connected
    {
      epoch := epoch + 1;
      ticket := epoch;
      want := false;
      cached := cached.(owned := false);
      estop := estop || emergency;
      ClearCommandLocked();
    }

    method LinkFailed(ticket: nat)
      modifies this
      ensures View() == Section.LinkFailed(old(View()), ticket)
      ensures ticket != old(epoch) ==> unchanged(this)
      ensures ticket == old(epoch) ==>
        && epoch == old(epoch) + 1 && cached == Cached(false, false) && !device.brakeKnown && command == NO_COMMAND
        && unchanged(`running, `want, `estop, `link)
    {
      if ticket != epoch { return; }
      cached := Cached(false, false);
      device := device.(brakeKnown := false);
      ClearCommandLocked();
      epoch := epoch + 1;
    }

    method PrepareCommit(explicitReady: bool, ticket: nat, deviceState: string, deviceBrake: bool, now: int)
      returns (committed: bool)
      modifies this
      ensures View() ==
        Section.PrepareCommit(options, old(View()), explicitReady, ticket, deviceState, deviceBrake, now)
      ensures committed == (running && ticket == old(epoch)) && (!committed ==> unchanged(this))
      ensures committed ==>
        && device == Device(deviceBrake, true, deviceState) && link == Link(now, now, 0, 0) && command == NO_COMMAND
        && cached.connected && estop == (old(estop) && !explicitReady) && want == (old(want) || explicitReady)
        && (cached.owned <==> options.motionOutput && want && !deviceBrake && !estop)
    {
      if !running || ticket != epoch { return false; }
      device := Device(deviceBrake, true, deviceState);
      if explicitReady {
        estop := false;
        want := true;
      }
      cached := Cached(true, options.motionOutput && want && !device.brake && !estop);
      link := Link(now, now, 0, 0);
      ClearCommandLocked();
      return true;
    }

    method BrakeCommit()
      modifies this
      ensures View() == Section.BrakeCommit(old(View()))
      ensures device == old(device).(brake := true, brakeKnown := true)
      ensures unchanged(`running, `epoch, `cached, `want, `estop, `command, `link)
    {
      device := device.(brake := true, brakeKnown := true);
    }

    method TakeTick(now: int)
      returns (active: bool, stale: bool, ackExpired: bool, linear: real, angular: real, ticket: nat)
      ensures var t := Section.TakeTick(options, View(), now);
        active == t.active && stale == t.stale && ackExpired == t.ackExpired &&
        linear == t.linear && angular == t.angular && ticket == t.ticket
      ensures ticket == epoch
      ensures active <==>
        running && options.motionOutput && cached.connected && cached.owned && !estop && !device.brake
      ensures stale <==> active && now - link.telemetryTime > options.telemetryTimeout
      ensures ackExpired <==> active && link.moveFailures > 0 && now - link.ackTime >= options.moveFailureTimeout
      ensures if command.time.Some? && now - command.time.value <= options.commandTimeout then
          linear == command.vx && angular == command.wz
        else
          linear == 0.0 && angular == 0.0
    {
      linear, angular := 0.0, 0.0;
      ticket := epoch;
      active := running && options.motionOutput && cached.connected && cached.owned && !estop && !device.brake;
      stale := active && now - link.telemetryTime > options.telemetryTimeout;
      ackExpired := active && link.moveFailures > 0 && now - link.ackTime >= options.moveFailureTimeout;
      if command.time.Some? && now - command.time.value <= options.commandTimeout {
        linear := command.vx;
        angular := command.wz;
      }
    }

    method TickCommit(ticket: nat, ok: bool, transportFailure: bool, now: int) returns (disconnect: bool)
      modifies this
      ensures View() == Section.TickCommit(options, old(View()), ticket, ok, now)
      ensures disconnect == TickDisconnects(options, old(View()), ticket, ok, transportFailure, now)
      ensures disconnect <==>
        && ticket == old(epoch) && old(cached).owned && !ok
        && (|| !transportFailure || link.moveFailures >= options.moveFailureLimit
            || now - old(link).ackTime >= options.moveFailureTimeout)
      ensures ticket != old(epoch) || !old(cached).owned ==> unchanged(this) && !disconnect
      ensures ticket == old(epoch) && old(cached).owned && !ok ==>
        command == NO_COMMAND && link == old(link).(moveFailures := old(link).moveFailures + 1)
      ensures ticket == old(epoch) && old(cached).owned && ok ==>
        unchanged(`command) && link == old(link).(moveFailures := 0, ackTime := now) && !disconnect
      ensures unchanged(`running, `epoch, `cached, `want, `estop, `device)
    {
      disconnect := false;
      if ticket == epoch && cached.owned {
        if ok {
          link := link.(moveFailures := 0, ackTime := now);
        } else {
          link := link.(moveFailures := link.moveFailures + 1);
          ClearCommandLocked();
          disconnect := !transportFailure || link.moveFailures >= options.moveFailureLimit ||
                        now - link.ackTime >= options.moveFailureTimeout;
        }
      }
    }

    method StatePollFailed(transportFailure: bool, now: int) returns (disconnect: bool)
      modifies this
      ensures View() == Section.StatePollFailed(old(View()))
      ensures disconnect == StatePollDisconnects(options, old(View()), transportFailure, now)
      ensures link == old(link).(stateFailures := old(link).stateFailures + 1)
      ensures disconnect <==>
        || !transportFailure || link.stateFailures >= options.stateFailureLimit
        || now - link.telemetryTime >= options.telemetryTimeout
      ensures unchanged(`running, `epoch, `cached, `want, `estop, `device, `command)
    {
      link := link.(stateFailures := link.stateFailures + 1);
      disconnect := !transportFailure || link.stateFailures >= options.stateFailureLimit ||
                    now - link.telemetryTime >= options.telemetryTimeout;
    }

    method TelemetryCommit(ticket: nat, deviceState: string, deviceBrake: bool, now: int)
      modifies this
      ensures View() == Section.TelemetryCommit(old(View()), ticket, deviceState, deviceBrake, now)
      ensures ticket != old(epoch) ==> unchanged(this)
      ensures ticket == old(epoch) ==>
        device == Device(deviceBrake, true, deviceState) && link.telemetryTime == now && link.stateFailures == 0
      ensures ticket == old(epoch) && (deviceBrake || deviceState != IDLE) ==>
        !cached.owned && !want && command == NO_COMMAND
      ensures ticket == old(epoch) && !deviceBrake && deviceState == IDLE ==> unchanged(`cached, `want, `command)
    {
      if ticket == epoch {
        device := Device(deviceBrake, true, deviceState);
        link := link.(telemetryTime := now, stateFailures := 0);
        if device.brake || deviceState != IDLE {
          cached := cached.(owned := false);
          want := false;
          ClearCommandLocked();
        }
      }
    }

    method Move(x: Double, y: Double, yaw: Double, now: int) returns (accepted: bool)
      modifies this
      ensures View() == Section.Move(options, old(View()), x, y, yaw, now)
      ensures accepted <==>
        && x.Finite? && y.Finite? && yaw.Finite?
        && old(running && cached.connected && cached.owned && !estop && !device.brake)
      ensures accepted ==> command.time == Some(now) && commandEpoch == epoch
      ensures accepted && options.Valid() ==>
        Follows(options.maxLinear, x.value, command.vx) && Follows(options.maxAngular, yaw.value, command.wz)
      ensures !(x.Finite? && y.Finite? && yaw.Finite?) ==> command == NO_COMMAND
      ensures x.Finite? && y.Finite? && yaw.Finite? && !accepted ==> unchanged(this)
      ensures unchanged(`running, `epoch, `cached, `want, `estop, `device, `link)
    {
      if !x.Finite? || !y.Finite? || !yaw.Finite? {
        ClearCommandLocked();
        return false;
      }
      if !running || !cached.connected || !cached.owned || estop || device.brake { return false; }
      command := Command(Clamp(x.value, -options.maxLinear, options.maxLinear),
                         Clamp(yaw.value, -options.maxAngular, options.maxAngular), Some(now));
      commandId, commandEpoch, nextId := nextId, epoch, nextId + 1;
      return true;
    }
  }
}
