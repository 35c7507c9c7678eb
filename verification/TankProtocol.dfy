/**
 The TANK back end as a labelled step system.

 A thread is a program counter with its locals. Every `mutex` critical section,
 every lock operation, every load of `epoch` or `running` and every HTTP request
 is one step; a request has an arbitrary outcome, taken from the step's `Choice`.
 Any number of `ready` and `stop` callers, the control thread, the telemetry
 thread and the thread that runs connect and disconnect interleave freely.
 */
module TankProtocol {
  import opened Prelude
  import opened TankState

  datatype Tid = Control | Telemetry | Lifecycle | Caller(id: nat)

  /** The calls that take `action_mutex` and then `io`. */
  datatype Call = Ready | Stop(emergency: bool) | Connect | Reconnect | Final

  /** The requests of `prepare`, in order, and its commit. */
  datatype Stage = ToIdle | QueryState | QueryBrake | TestRelease | Release | ReadBack | SendZero | Commit

  datatype Pc =
    | WantAction(call: Call, ticket: nat)
    | WantIo(call: Call, ticket: nat)
    | Check(call: Call, ticket: nat)
    | Prepare(stage: Stage, call: Call, ticket: nat, operation: string, deviceBrake: bool)
    | StopBrake(call: Call, ticket: nat)
    | StopReadBack(call: Call, ticket: nat)
    | StopCommit(call: Call, ticket: nat)
    | StopZero(call: Call, ticket: nat)
    | FinalZero(call: Call, ticket: nat)
    | Failing(call: Call, ticket: nat)
    | Finish(call: Call, ticket: nat, ok: bool)
    | FinishAction(call: Call, ticket: nat, ok: bool)
    | Returned(call: Call, ticket: nat, ok: bool)
    // control thread
    | Top
    | TickWantIo
    | TickRead
    | TickSend(ticket: nat, linear: real, angular: real, id: nat)
    | TickAck(ticket: nat, id: nat, ok: bool, transport: bool)
    | TickStale(ticket: nat)
    | TickLink(ticket: nat)
    | TickDone
    // telemetry thread
    | PollTop
    | PollBranch(connected: bool)
    | PollLoad
    | PollTicket
    | PollState(ticket: nat)
    | PollBrake(ticket: nat, operation: string)
    | PollTest(ticket: nat, operation: string, deviceBrake: bool)
    | PollCommit(ticket: nat, operation: string, deviceBrake: bool)
    | PollFailTest(ticket: nat, transport: bool)
    | PollFailCommit(ticket: nat, transport: bool)
    | PollLink(ticket: nat)
    // lifecycle thread
    | Down
    | Up
    | DisconnectInhibit
    | JoinControl
    | JoinTelemetry
    | DisconnectClose
    | Exited

  datatype Frame =
    | MoveFrame(linear: real, angular: real, id: nat)
    | BrakeFrame(on: bool)
    | IdleFrame
  {
    predicate Nonzero() { MoveFrame? && (linear != 0.0 || angular != 0.0) }
  }

  /**
   The history. `Requested` is the entry of a ready or stop with its new ticket;
   `Tested` is a ready that has found its ticket current before it releases the
   brake; `StateRead` and `BrakeRead` are what a query of the device answered;
   `Secured` is a stop that has passed its ticket test with both locks held;
   `Committed` is an explicit ready whose `prepare` took effect; `Answered` is the
   result its caller gets. `sender` is the thread.
   */
  datatype Entry =
    | Requested(ticket: nat, sender: Tid, call: Call)
    | Tested(ticket: nat, sender: Tid)
    | Sent(frame: Frame, sender: Tid, ticket: nat, ok: bool)
    | StateRead(ticket: nat, sender: Tid, operation: string)
    | BrakeRead(ticket: nat, sender: Tid, on: bool)
    | Secured(ticket: nat, sender: Tid)
    | Committed(ticket: nat, sender: Tid)
    | Answered(ticket: nat, sender: Tid, call: Call, ok: bool)
    | Accepted(id: nat, vx: real, wz: real)

  /** Outcome of a request and reading of the clock, chosen freely at each step. */
  datatype Choice = Choice(ok: bool, transport: bool, operation: string, brake: bool, now: int, due: bool)

  datatype Globals = Globals(sh: Shared, action: Option<Tid>, io: Option<Tid>, issued: map<nat, Call>)

  datatype State = State(g: Globals, pcs: map<Tid, Pc>, log: seq<Entry>)

  datatype Outcome = Outcome(g: Globals, pc: Pc, entries: seq<Entry>)

  predicate Explicit(call: Call) { call == Ready }

  /** The rest of `prepare` once the brake reading is final. */
  function AfterBrake(o: Options, call: Call, ticket: nat, operation: string, brake: bool): Pc {
    if Explicit(call) && brake then Failing(call, ticket)
    else Prepare(if o.motionOutput then SendZero else Commit, call, ticket, operation, brake)
  }

  function StepPrepare(o: Options, t: Tid, g: Globals, pc: Pc, c: Choice): Outcome
    requires pc.Prepare?
  {
    var Prepare(stage, call, ticket, operation, brake) := pc;
    match stage
    case ToIdle =>
      if !o.motionOutput then Outcome(g, pc.(stage := QueryState), [])
      else Outcome(g, if c.ok then pc.(stage := QueryState) else Failing(call, ticket),
                   [Sent(IdleFrame, t, ticket, c.ok)])
    case QueryState =>
      Outcome(g, if c.ok && (o.motionOutput ==> c.operation == IDLE)
                 then pc.(stage := QueryBrake, operation := c.operation) else Failing(call, ticket),
              if c.ok then [StateRead(ticket, t, c.operation)] else [])
    case QueryBrake =>
      Outcome(g, if c.ok then pc.(stage := TestRelease, deviceBrake := c.brake) else Failing(call, ticket),
              if c.ok then [BrakeRead(ticket, t, c.brake)] else [])
    case TestRelease =>
      if Explicit(call) && brake && ticket == g.sh.epoch then Outcome(g, pc.(stage := Release), [Tested(ticket, t)])
      else Outcome(g, AfterBrake(o, call, ticket, operation, brake), [])
    case Release =>
      Outcome(g, if c.ok then pc.(stage := ReadBack) else Failing(call, ticket),
              [Sent(BrakeFrame(false), t, ticket, c.ok)])
    case ReadBack =>
      Outcome(g, if c.ok then AfterBrake(o, call, ticket, operation, c.brake) else Failing(call, ticket),
              if c.ok then [BrakeRead(ticket, t, c.brake)] else [])
    case SendZero =>
      Outcome(g, if c.ok then pc.(stage := Commit) else Failing(call, ticket),
              [Sent(MoveFrame(0.0, 0.0, 0), t, ticket, c.ok)])
    case Commit =>
      var committed := CommitAllowed(g.sh, ticket);
      Outcome(g.(sh := PrepareCommit(o, g.sh, Explicit(call), ticket, operation, brake, c.now)),
              Finish(call, ticket, committed),
              if committed && Explicit(call) then [Committed(ticket, t)] else [])
  }

  function FirstStage(call: Call, ticket: nat): Pc { Prepare(ToIdle, call, ticket, "", true) }

  function StepCheck(o: Options, t: Tid, g: Globals, pc: Pc): Outcome
    requires pc.Check?
  {
    match pc.call
    case Connect => Outcome(g, FirstStage(Connect, g.sh.epoch), [])
    case Final =>
      Outcome(g, if o.motionOutput then FinalZero(Final, pc.ticket) else Finish(Final, pc.ticket, true), [])
    case Stop(emergency) =>
      if !CommitAllowed(g.sh, pc.ticket) then Outcome(g, Finish(pc.call, pc.ticket, false), [])
      else Outcome(g, if emergency then StopBrake(pc.call, pc.ticket) else StopZero(pc.call, pc.ticket),
                   [Secured(pc.ticket, t)])
    case _ =>
      Outcome(g, if CommitAllowed(g.sh, pc.ticket) then FirstStage(pc.call, pc.ticket)
                 else Finish(pc.call, pc.ticket, false), [])
  }

  function StepStop(o: Options, t: Tid, g: Globals, pc: Pc, c: Choice): Outcome
    requires pc.StopBrake? || pc.StopReadBack? || pc.StopCommit? || pc.StopZero?
  {
    match pc
    case StopBrake(call, ticket) =>
      Outcome(g, if c.ok then StopReadBack(call, ticket) else Failing(call, ticket),
              [Sent(BrakeFrame(true), t, ticket, c.ok)])
    case StopReadBack(call, ticket) =>
      Outcome(g, if c.ok && c.brake then StopCommit(call, ticket) else Failing(call, ticket),
              if c.ok then [BrakeRead(ticket, t, c.brake)] else [])
    case StopCommit(call, ticket) =>
      Outcome(g.(sh := BrakeCommit(g.sh)), Finish(call, ticket, true), [])
    case StopZero(call, ticket) =>
      Outcome(g, if c.ok then Finish(call, ticket, true) else Failing(call, ticket),
              [Sent(MoveFrame(0.0, 0.0, 0), t, ticket, c.ok)])
  }

  predicate ServicePc(pc: Pc) {
    || pc.WantAction? || pc.WantIo? || pc.Check? || pc.Prepare?
    || pc.StopBrake? || pc.StopReadBack? || pc.StopCommit? || pc.StopZero? || pc.FinalZero?
    || pc.Failing? || pc.Finish? || pc.FinishAction? || pc.Returned?
  }

  /** Where a call goes after its locks are released. */
  function AfterCall(call: Call, ticket: nat, ok: bool): Pc {
    match call
    case Reconnect => PollTop
    case Connect => Up
    case Final => DisconnectClose
    case _ => Returned(call, ticket, ok)
  }

  function StepService(o: Options, t: Tid, g: Globals, pc: Pc, c: Choice): Outcome
    requires ServicePc(pc)
  {
    match pc
    case WantAction(call, ticket) => Outcome(g.(action := Some(t)), WantIo(call, ticket), [])
    case WantIo(call, ticket) => Outcome(g.(io := Some(t)), Check(call, ticket), [])
    case Check(_, _) => StepCheck(o, t, g, pc)
    case Prepare(_, _, _, _, _) => StepPrepare(o, t, g, pc, c)
    case FinalZero(call, ticket) =>
      Outcome(g, Finish(call, ticket, c.ok), [Sent(MoveFrame(0.0, 0.0, 0), t, ticket, c.ok)])
    case Failing(call, ticket) => Outcome(g.(sh := LinkFailed(g.sh, ticket)), Finish(call, ticket, false), [])
    case Finish(call, ticket, ok) => Outcome(g.(io := None), FinishAction(call, ticket, ok), [])
    case FinishAction(call, ticket, ok) =>
      Outcome(g.(action := None), AfterCall(call, ticket, ok),
              if call.Stop? || call == Ready then [Answered(ticket, t, call, ok)] else [])
    case Returned(_, _, _) => Outcome(g, pc, [])
    case _ => StepStop(o, t, g, pc, c)
  }

  predicate ControlPc(pc: Pc) {
    || pc.Top? || pc.TickWantIo? || pc.TickRead? || pc.TickSend? || pc.TickAck?
    || pc.TickStale? || pc.TickLink? || pc.TickDone?
  }

  function StepControl(o: Options, t: Tid, g: Globals, pc: Pc, c: Choice): Outcome
    requires ControlPc(pc)
  {
    match pc
    case Top => Outcome(g, if g.sh.running then TickWantIo else Exited, [])
    case TickWantIo => Outcome(g.(io := Some(t)), TickRead, [])
    case TickRead =>
      var tick := TakeTick(o, g.sh, c.now);
      Outcome(g, if tick.stale || tick.ackExpired then TickStale(tick.ticket)
                 else if tick.active then TickSend(tick.ticket, tick.linear, tick.angular, tick.id)
                 else TickDone, [])
    case TickSend(ticket, linear, angular, id) =>
      Outcome(g, TickAck(ticket, id, c.ok, c.transport), [Sent(MoveFrame(linear, angular, id), t, ticket, c.ok)])
    case TickAck(ticket, id, ok, transport) =>
      Outcome(g.(sh := TickCommit(o, g.sh, ticket, ok, c.now)),
              if TickDisconnects(o, g.sh, ticket, ok, transport, c.now) then TickLink(ticket) else TickDone, [])
    case TickStale(ticket) => Outcome(g, TickLink(ticket), [Sent(MoveFrame(0.0, 0.0, 0), t, ticket, c.ok)])
    case TickLink(ticket) => Outcome(g.(sh := LinkFailed(g.sh, ticket)), TickDone, [])
    case TickDone => Outcome(g.(io := None), Top, [])
  }

  predicate PollPc(pc: Pc) {
    || pc.PollTop? || pc.PollBranch? || pc.PollLoad? || pc.PollTicket? || pc.PollState? || pc.PollBrake?
    || pc.PollTest? || pc.PollCommit? || pc.PollFailTest? || pc.PollFailCommit? || pc.PollLink?
  }

  function StepPoll(o: Options, t: Tid, g: Globals, pc: Pc, c: Choice): Outcome
    requires PollPc(pc)
  {
    match pc
    case PollTop => Outcome(g, if g.sh.running then PollBranch(g.sh.connected) else Exited, [])
    case PollBranch(connected) =>
      if !c.due then Outcome(g, PollTop, [])
      else if connected then Outcome(g, PollTicket, [])
      else if g.action == None then Outcome(g.(action := Some(t)), PollLoad, [])
      else Outcome(g, PollTop, [])
    case PollLoad => Outcome(g, WantIo(Reconnect, g.sh.epoch), [])
    case PollTicket => Outcome(g, PollState(g.sh.epoch), [])
    case PollState(ticket) =>
      Outcome(g, if c.ok then PollBrake(ticket, c.operation) else PollFailTest(ticket, c.transport),
              if c.ok then [StateRead(ticket, t, c.operation)] else [])
    case PollBrake(ticket, operation) =>
      Outcome(g, if c.ok then PollTest(ticket, operation, c.brake) else PollFailTest(ticket, c.transport),
              if c.ok then [BrakeRead(ticket, t, c.brake)] else [])
    case PollTest(ticket, operation, brake) =>
      Outcome(g, if ticket == g.sh.epoch then PollCommit(ticket, operation, brake) else PollTop, [])
    case PollCommit(ticket, operation, brake) =>
      Outcome(g.(sh := TelemetryCommit(g.sh, ticket, operation, brake, c.now)), PollTop, [])
    case PollFailTest(ticket, transport) =>
      Outcome(g, if ticket == g.sh.epoch then PollFailCommit(ticket, transport) else PollTop, [])
    case PollFailCommit(ticket, transport) =>
      Outcome(g.(sh := StatePollFailed(g.sh)),
              if StatePollDisconnects(o, g.sh, transport, c.now) then PollLink(ticket) else PollTop, [])
    case PollLink(ticket) => Outcome(g.(sh := LinkFailed(g.sh, ticket)), PollTop, [])
  }

  predicate LifePc(pc: Pc) {
    || pc.Down? || pc.Up? || pc.DisconnectInhibit? || pc.JoinControl? || pc.JoinTelemetry?
    || pc.DisconnectClose? || pc.Exited?
  }

  function StepLife(g: Globals, pc: Pc): Outcome
    requires LifePc(pc)
  {
    match pc
    case DisconnectInhibit => Outcome(g.(sh := Inhibit(g.sh, false)), JoinControl, [])
    case JoinControl => Outcome(g, JoinTelemetry, [])
    case JoinTelemetry => Outcome(g, WantAction(Final, 0), [])
    case DisconnectClose => Outcome(g.(sh := TankState.Disconnected(g.sh)), Down, [])
    case _ => Outcome(g, pc, [])
  }

  function StepThread(o: Options, t: Tid, g: Globals, pc: Pc, c: Choice): Outcome {
    if ServicePc(pc) then StepService(o, t, g, pc, c)
    else if ControlPc(pc) then StepControl(o, t, g, pc, c)
    else if PollPc(pc) then StepPoll(o, t, g, pc, c)
    else assert LifePc(pc); StepLife(g, pc)
  }

  /** Program counters at which a thread has no step of its own to take. */
  predicate Halted(pc: Pc) { pc.Returned? || pc.Exited? || pc.Down? || pc.Up? }

  /** Whether thread t can take its next step in s; lock and join waits may block it. */
  predicate Enabled(s: State, t: Tid)
    requires t in s.pcs
  {
    match s.pcs[t]
    case WantAction(_, _) => s.g.action == None
    case WantIo(_, _) => s.g.io == None
    case TickWantIo => s.g.io == None
    case JoinControl => Control in s.pcs ==> s.pcs[Control] == Exited
    case JoinTelemetry => Telemetry in s.pcs ==> s.pcs[Telemetry] == Exited
    case pc => !Halted(pc)
  }

  datatype Event =
    | Act(t: Tid, c: Choice)
    | CallReady(id: nat)
    | CallStop(id: nat, emergency: bool)
    | CallConnect
    | CallDisconnect
    | CmdVel(vx: Double, vy: Double, wz: Double, now: int)

  function Spawn(s: State, id: nat, call: Call, emergency: bool): State {
    var sh := Inhibit(s.g.sh, emergency);
    s.(g := s.g.(sh := sh, issued := s.g.issued[sh.epoch := call]),
       pcs := s.pcs[Caller(id) := WantAction(call, sh.epoch)],
       log := s.log + [Requested(sh.epoch, Caller(id), call)])
  }

  /** connect starts its two workers after it has released the locks. */
  function StartWorkers(before: Pc, after: Pc, pcs: map<Tid, Pc>): map<Tid, Pc> {
    if before.FinishAction? && after.Up? then pcs[Control := Top][Telemetry := PollTop] else pcs
  }

  function ActThread(o: Options, s: State, t: Tid, c: Choice): State
    requires t in s.pcs
  {
    var out := StepThread(o, t, s.g, s.pcs[t], c);
    State(out.g, StartWorkers(s.pcs[t], out.pc, s.pcs[t := out.pc]), s.log + out.entries)
  }

  /** One step of the system; an event that is not enabled leaves the state alone. */
  function Step(o: Options, s: State, e: Event): State {
    match e
    case Act(t, c) => if t in s.pcs && Enabled(s, t) then ActThread(o, s, t, c) else s
    case CallReady(id) =>
      if o.motionOutput && Caller(id) !in s.pcs then Spawn(s, id, Ready, false) else s
    case CallStop(id, emergency) =>
      if o.motionOutput && Caller(id) !in s.pcs then Spawn(s, id, Stop(emergency), emergency) else s
    case CallConnect =>
      if Lifecycle in s.pcs && s.pcs[Lifecycle] == Down
      then s.(g := s.g.(sh := s.g.sh.(running := true)), pcs := s.pcs[Lifecycle := WantAction(Connect, 0)])
      else s
    case CallDisconnect =>
      if Lifecycle in s.pcs && s.pcs[Lifecycle] == Up
      then s.(g := s.g.(sh := s.g.sh.(running := false)), pcs := s.pcs[Lifecycle := DisconnectInhibit])
      else s
    case CmdVel(vx, vy, wz, now) =>
      var sh := Move(o, s.g.sh, vx, vy, wz, now);
      s.(g := s.g.(sh := sh),
         log := s.log + if AllFinite(vx, vy, wz) && MoveAllowed(s.g.sh)
                        then [Accepted(sh.commandId, sh.vx, sh.wz)] else [])
  }

  function Init(o: Options): State {
    State(Globals(Initial(o), None, None, map[]),
          map[Control := Exited, Telemetry := Exited, Lifecycle := Down], [])
  }

  /** The state after a finite run, whatever its events are. */
  function Run(o: Options, events: seq<Event>): State {
    if events == [] then Init(o)
    else Step(o, Run(o, events[..|events| - 1]), events[|events| - 1])
  }
}
