# Navigation bridge: the control protocols of the four robot back ends

Each back end of the bridge guards a moving machine with a small concurrent
protocol. This project models those protocols and proves what they keep, over
every interleaving, every behaviour of the robot and every run.

| files | what they model |
|---|---|
| `TankState`, `TankBackend`, `TankProtocol`, `TankInvariant`, `TankSystem`, `TankCourse`, `TankSafety`, `TankLocks`, `TankProgress` | the epoch protocol of the TANK back end: `ready` and `stop` callers, control thread, telemetry thread, connect and disconnect, under three locks |
| `CyvetState`, `CyvetBackend`, `CyvetSafety`, `CyvetResults`, `CyvetJoints` | the Cyvet worker: its two queues, generations, stop recovery, velocity dispatch and exception path, against service threads that interfere between any two of its steps; the joint samples |
| `D1State`, `D1History`, `D1Flags`, `D1Backend`, `D1Handoff` | the D1 Max charge exit: SDK callbacks fold an unbounded history into a few fields, and synchronous waits must decide a question about the history from them |
| `X30Robot`, `X30Looks`, `X30Executor`, `X30Gait`, `X30Control` | the X30 action executor and gait switch against an adversarial robot on a millisecond clock, and the control session with its heartbeats |
| `Odometry` | the stitching of odometry pieces that each have their own origin |
| `Prelude` | options, doubles that may be non-finite, min, max, clamp |

How the pieces are modelled:

- TANK is a labelled step system. A critical section, a lock operation, a load
  of `epoch` or `running`, and an HTTP request are one step each; a request has
  an arbitrary outcome. The critical sections are also methods of a class, each
  proved to do to the fields what the step does to the record.
- Cyvet is a class. The worker's code is written as methods, with a call to
  `Interfere` between accesses to shared state, where any number of service
  sections run, also between the last test of a command and its way onto the
  wire. Robot calls have arbitrary outcomes, may throw, and run callbacks while
  they spin. Every section, parsed report, test and command, and the beginning
  and end of control, leave a log entry stamped with the clock; the theorems
  about runs are theorems about every log the class can leave. What the worker
  achieves, as against what it never does, is stated for silent services and a
  robot that accepts every call and keeps reporting the same, standing still
  (`Cooperates`), whatever it reports. One assumption of the source is kept as the model's only path out of control:
  leaving `kControlled` runs the connect callback (it is
  `CyvetImpl.DropControl`), except in the client's own `disconnect`.
- D1 Max and X30 are classes whose environment is a script: what callbacks ran
  during a wait, what the next look at the robot finds. All methods are verified
  for every script. On the X30 clock a failed wait takes exactly its timeout, a
  successful one at most that, a warm-up exactly its length, the rest nothing.
- Clocks are integers, atomics are sequentially consistent, counters do not
  wrap. Odometry is over `real`, with any `cos` and `sin` for which
  c² + s² = 1, cos 0 = 1 and sin 0 = 0.

Where the source's documentation and code differ: waiting for a recharge to
start reads the current task only, so a reported recharge failure is hidden by
any later task update (`D1History.StartFailsIffLast` says exactly when it is
seen, `D1History.RechargeFailureIsHidden` that every reported failure can be
lost), while an undock failure is remembered.

## Model

| member | source | states |
|---|---|---|
| TankBackend.TankImpl.ClearCommandLocked | src/tank/tank_backend.cpp:271-274 | the section that drops the cached command |
| TankBackend.TankImpl.Inhibit | src/tank/tank_backend.cpp:361-370 | a new ticket, permission and wish for control gone, a local emergency stop only ever added |
| TankBackend.TankImpl.LinkFailed | src/tank/tank_backend.cpp:276-290 | only the current ticket can drop the link, and doing so starts a new epoch |
| TankBackend.TankImpl.PrepareCommit | src/tank/tank_backend.cpp:324-345 | commits exactly when running and the ticket is current; permission as the device state allows |
| TankBackend.TankImpl.BrakeCommit | src/tank/tank_backend.cpp:387-390 | the confirmed software brake |
| TankBackend.TankImpl.TakeTick | src/tank/tank_backend.cpp:417-430 | what a control tick reads in one section: whether it may send, whether telemetry or acknowledgement is overdue, and the cached velocity, or zero when that is stale |
| TankBackend.TankImpl.TickCommit | src/tank/tank_backend.cpp:445-476 | acknowledgement bookkeeping for the tick's own epoch only, and when a failure drops the link |
| TankBackend.TankImpl.StatePollFailed | src/tank/tank_backend.cpp:559-568 | a failed state poll, and when it drops the link |
| TankBackend.TankImpl.TelemetryCommit | src/tank/tank_backend.cpp:572-587 | telemetry of the current epoch; a brake or a non-Idle state takes permission away |
| TankBackend.TankImpl.Move | src/tank/tank_backend.cpp:671-685 | accepted exactly under permission; the cached command is the caller's forward and yaw velocity where these are within their limits, and the limit with their sign beyond; a non-finite velocity clears the command |
| TankInvariant.Stable | src/tank/tank_backend.cpp:352-401 | what a thread has established about its ticket survives every step of every other thread |
| TankInvariant.ServiceStep | src/tank/tank_backend.cpp:294-401 | each step of ready, stop, connect and reconnect keeps the thread's and the global invariant |
| TankInvariant.ControlStep | src/tank/tank_backend.cpp:403-486 | so does each step of the control thread |
| TankInvariant.PollStep | src/tank/tank_backend.cpp:532-592 | so does each step of the telemetry thread, automatic reconnection included |
| TankInvariant.LifeStep | src/tank/tank_backend.cpp:639-661 | so does each step of disconnect |
| TankInvariant.BrakeStep | src/tank/tank_backend.cpp:387-390 | the brake commit keeps permission sound, because the held `action_mutex` lets no explicit commit fall between the stop's ticket test and it |
| TankInvariant.TestStep | src/tank/tank_backend.cpp:310-310 | a ready that finds its ticket current before it releases the brake is not older than any request so far |
| TankSystem.ActKeeps | src/tank/tank_backend.cpp:352-618 | one step of any thread keeps the invariant of the whole system |
| TankSystem.SpawnKeeps | src/tank/tank_backend.cpp:361-378 | so does the entry of a ready or a stop at any moment |
| TankSystem.CmdVelKeeps | src/tank/tank_backend.cpp:671-685 | so does a velocity from a service thread at any moment |
| TankSystem.ConnectKeeps | src/tank/tank_backend.cpp:624-637 | so does connect |
| TankSystem.DisconnectKeeps | src/tank/tank_backend.cpp:639-643 | so does the start of disconnect |
| TankSystem.StepKeeps | src/tank/tank_backend.cpp:292-685 | so does every event of the system |
| TankSystem.RunKeeps | src/tank/tank_backend.cpp:292-685 | the invariant holds in every reachable state |
| TankCourse.RequestedMeans | src/tank/tank_backend.cpp:361-378 | every request in the history is the entry of a ready or stop that an event starts, with the next ticket |
| TankCourse.AnswerMeans | src/tank/tank_backend.cpp:352-401 | a ready or stop succeeds exactly when, between its request and its answer, its thread has exchanged with the device the whole course of that call, and nothing else |
| TankCourse.StopAnswer | src/tank/tank_backend.cpp:372-401 | an emergency stop that succeeds has, after it was secured and before its answer, had the brake written, acknowledged and read back engaged; any other has had a zero velocity acknowledged |
| TankCourse.PermissionIsEarned | src/tank/tank_backend.cpp:294-345 | permission is gained only by a preparation of the current ticket in whose course Idle was commanded and read, the brake read released and a zero velocity acknowledged; without an explicit ready only if it is wished and no emergency stop stands |
| TankCourse.TelemetryWasRead | src/tank/tank_backend.cpp:532-587 | what a poll records is what its two queries, its thread's last exchanges, have read; a brake or a non-Idle state takes permission and wish away, anything else leaves them |
| TankSafety.RunHistory | src/tank/tank_backend.cpp:292-486 | every log entry of every run was allowed by the entries before it |
| TankSafety.StopSafety | src/tank/tank_backend.cpp:372-401 | after a stop is secured no nonzero frame goes out until a later-ticketed ready commits, and no brake release except by a later-ticketed ready |
| TankSafety.SuccessfulStopIsSafe | src/tank/tank_backend.cpp:372-401 | a stop that returned success was secured before, and in between an emergency stop had the brake written and read back, any other a zero velocity acknowledged; stop safety covers all that follows |
| TankSafety.OldReadyNeverCommits | src/tank/tank_backend.cpp:352-359 | a ready older than a secured stop never commits |
| TankSafety.ReleaseWasCurrent | src/tank/tank_backend.cpp:308-315 | a brake release is sent only by a ready that, when it looked last, was older than no ready and no stop requested |
| TankSafety.NoRetransmission | src/tank/tank_backend.cpp:458-468 | a velocity whose frame failed is never sent again, whatever races with it |
| TankSafety.AcceptedWasAsked | src/tank/tank_backend.cpp:671-685 | every acceptance is that of a velocity event of the run, under permission at that moment, and follows the forward and yaw velocity it asks for, up to the limits |
| TankSafety.FramesWereAccepted | src/tank/tank_backend.cpp:671-685 | every nonzero frame carries unchanged a command that move accepted before it, and that follows the velocity a caller had asked for in an event of the run, up to the limits |
| TankSafety.TickSends | src/tank/tank_backend.cpp:417-444 | a tick that is active and neither stale nor overdue sends the cached command if that is fresh, else zero, whatever other threads do before it does |
| TankSafety.ExpiredTickStops | src/tank/tank_backend.cpp:431-437 | stale telemetry or an overdue acknowledgement ends in a zero frame and a dropped link |
| TankSafety.FailedTickDrops | src/tank/tank_backend.cpp:445-476 | a frame without acknowledgement clears the command, and drops the link exactly when it was no transport failure, used up the budget or came too late |
| TankSafety.FailedPollDrops | src/tank/tank_backend.cpp:559-568 | a failed state poll of the current epoch drops the link exactly on the like conditions |
| TankSafety.PermissionAlways | src/tank/tank_backend.cpp:324-345 | permission implies connected, wanted, no stop, known released brake and Idle; a cached command implies permission, the current epoch and an acceptance |
| TankSafety.EstopIffLatched | src/tank/tank_backend.cpp:331-370 | the local emergency stop is on exactly when an emergency stop was requested and no ready has committed since |
| TankSafety.BudgetAtLoopTop | src/tank/tank_backend.cpp:453-469 | at the control thread's loop top permission implies the failure budget is not used up |
| TankSafety.ZeroFrameIsSent | src/tank/tank_backend.cpp:639-653 | before disconnect closes it has certainly sent a zero frame, whatever raced with it, and no frame followed |
| TankSafety.LastFrameAfterDisconnect | src/tank/tank_backend.cpp:639-653 | after disconnect the last frame sent, if one ever was, is the zero frame of disconnect itself |
| TankLocks.BlockedMeansWaiting | src/tank/tank_backend.cpp:352-401 | an unfinished thread is blocked exactly when it waits for a lock holder or a join |
| TankLocks.WaitsDescend | src/tank/tank_backend.cpp:532-661 | whom it waits for is unfinished and of smaller rank in the lock order |
| TankLocks.Unblocker | src/tank/tank_backend.cpp:532-661 | so a chain of waits ends at a thread that can step |
| TankLocks.NoDeadlock | src/tank/tank_backend.cpp:532-661 | in every reachable state every unfinished thread, joins included, is at most three waits from one that can step |
| TankLocks.IoStep | src/tank/tank_backend.cpp:403-486 | every step of the holder of `io` brings it strictly closer to releasing it |
| TankLocks.IoIsReleased | src/tank/tank_backend.cpp:403-486 | the holder of `io` is never blocked and releases it within twelve of its own steps |
| TankProgress.ReadySucceeds | src/tank/tank_backend.cpp:292-359 | a ready with the newest ticket that goes on alone against a device that does as told succeeds, with permission, the brake released and the emergency stop over |
| TankProgress.StopSucceeds | src/tank/tank_backend.cpp:372-401 | so does a stop, and an emergency stop leaves the brake on |
| TankProgress.ConnectSucceeds | src/tank/tank_backend.cpp:624-637 | so does connect, which starts both workers and has permission exactly as wish, brake and emergency stop allow |
| TankProgress.ReconnectSucceeds | src/tank/tank_backend.cpp:532-552 | a due poll that finds the link down connects again, in the same epoch, with permission on the same terms |
| TankProgress.PollSucceeds | src/tank/tank_backend.cpp:553-587 | a due poll of an open link records what it has read, at the time of its commit |
| TankProgress.TickComes | src/tank/tank_backend.cpp:403-417 | the control thread comes to its next tick |
| CyvetState.EnableKeeps | src/cyvet/cyvet_backend.cpp:425-432 | enabling motion keeps the invariant exactly because the preparation is current and no stop waits |
| CyvetState.AcceptKeeps | src/cyvet/cyvet_backend.cpp:181-197 | accepting any job at any moment keeps the invariant and enables nothing |
| CyvetState.CacheKeeps | src/cyvet/cyvet_backend.cpp:837-840 | a cached velocity is newer than every one before it, carries the current generation and implies that motion is enabled |
| CyvetState.CopyKeeps | src/cyvet/cyvet_backend.cpp:548-549 | the copy the worker takes is of the enabled generation, has not failed unless it is the one that failed last, and is never older than its last copy |
| CyvetState.BackKeeps | src/cyvet/cyvet_backend.cpp:199-200 | stop_requests counts the accepted stop callers that have not returned |
| CyvetState.PopUrgentKeeps | src/cyvet/cyvet_backend.cpp:669-670 | the head of the urgent queue is the earliest stop not yet run, and motion is off |
| CyvetState.PopPlainKeeps | src/cyvet/cyvet_backend.cpp:669-670 | other work leaves its queue only when every accepted stop has left the urgent one |
| CyvetState.AllSettled | src/cyvet/cyvet_backend.cpp:732-736 | with empty queues and nothing running every accepted job has its result |
| CyvetState.PoppedAreSettled | src/cyvet/cyvet_backend.cpp:662-676 | a stop up to the last one popped, with nothing running, has its result |
| CyvetBackend.CyvetImpl.constructor | src/cyvet/cyvet_backend.cpp:125-148 | a new back end satisfies the invariant, with motion off |
| CyvetBackend.CyvetImpl.InhibitSection | src/cyvet/cyvet_backend.cpp:150-155 | motion off, a new generation, the velocity gone |
| CyvetBackend.CyvetImpl.Refuses | src/cyvet/cyvet_backend.cpp:183-186 | submit refuses exactly when quitting, when a preparation meets a pending stop, or when plain work meets a full queue |
| CyvetBackend.CyvetImpl.Submit | src/cyvet/cyvet_backend.cpp:176-197 | a job is accepted exactly when the back end is not quitting, no stop pends or is left to recover if it is a preparation, and sixteen jobs are not yet queued if it is no stop; then the state is the one acceptance defines |
| CyvetBackend.CyvetImpl.Return | src/cyvet/cyvet_backend.cpp:199-200 | a stop caller leaves once, after its promise was set |
| CyvetBackend.CyvetImpl.Move | src/cyvet/cyvet_backend.cpp:835-841 | accepted exactly when finite, ready, owned and connected; then the cached velocity is the caller's, stamped with clock and generation |
| CyvetBackend.CyvetImpl.Interfere | src/cyvet/cyvet_backend.cpp:150-202 | any number of service sections at any moment keep the invariant and enable nothing |
| CyvetBackend.CyvetImpl.DropControl | src/cyvet/cyvet_backend.cpp:72-78 | losing control and inhibiting are one moment, and leave the one log entry of it |
| CyvetBackend.CyvetImpl.UpdateMotion | src/cyvet/cyvet_backend.cpp:226-252 | a report is either refused without effect or recorded exactly, in the fields and in the log; an emergency stop is latched, anything but walking disables motion first |
| CyvetBackend.StillIsStill | src/cyvet/cyvet_backend.cpp:356-361 | a report counts as standing still only when every component is within 1e-5 of zero, always when all are zero, and is refused exactly when one is not finite |
| CyvetBackend.AbsentIsZero | src/cyvet/cyvet_backend.cpp:229-235 | a missing component counts as zero, except while walking or in an emergency stop, where the report is refused |
| CyvetBackend.CyvetImpl.Hear | src/cyvet/cyvet_backend.cpp:72-78 | a loss of control leaves it; an answer is taken only for the pending query, recorded if it is good, and otherwise changes nothing |
| CyvetBackend.CyvetImpl.Call | third_party/uniubi/uniubi_motion_client/src/motion_high_level_client.cpp:430-470 | a command is refused without control, otherwise it is the last command on the wire; parameters or a stop command never go out under a report of an emergency stop |
| CyvetBackend.CyvetImpl.StartControl | third_party/uniubi/uniubi_motion_client/src/motion_high_level_client.cpp:153-258 | acquisition, whose failure inhibits |
| CyvetBackend.CyvetImpl.ReleaseControl | third_party/uniubi/uniubi_motion_client/src/motion_high_level_client.cpp:260-286 | under control the release order goes out; once confirmed it leaves control and inhibits |
| CyvetBackend.CyvetImpl.DisconnectClient | third_party/uniubi/uniubi_motion_client/src/motion_high_level_client.cpp:139-151 | the one way out of control without a callback, used only with motion off; a robot under control is first ordered released, and no motion command goes out |
| CyvetBackend.CyvetImpl.Confirm | src/cyvet/cyvet_backend.cpp:346-370 | ends; success means the last parsed report is the awaited one, parsed in this call and after the last motion command, and control was held or a new generation began; it only listens; a robot that keeps reporting what is awaited is confirmed |
| CyvetBackend.CyvetImpl.StopOwned | src/cyvet/cyvet_backend.cpp:374-386 | a stop command goes out unless the robot is in its own emergency stop; success means a report of walking at zero velocity after it, or of that emergency stop standing still, and nothing left to recover; failure leaves a stop to recover; a robot that cooperates is stopped with success |
| CyvetBackend.CyvetImpl.Stop | src/cyvet/cyvet_backend.cpp:371-387 | the same with or without control: success under control means zero velocity was reported after the stop went out; it never enables motion; a confirmed stop keeps the good order of the loop head |
| CyvetBackend.CyvetImpl.Acquire | src/cyvet/cyvet_backend.cpp:388-396 | success means control is held and owned by a request still current; failure that the request was overtaken, that there is no connection or capability, or that control is not held; it never enables motion |
| CyvetBackend.CyvetImpl.EnableMotion | src/cyvet/cyvet_backend.cpp:425-432 | motion comes on only for the current generation, not quitting, with no stop pending and a last motion command that is no velocity; otherwise the preparation was overtaken |
| CyvetBackend.CyvetImpl.PrepareWalking | src/cyvet/cyvet_backend.cpp:399-419 | success means walking at zero velocity was confirmed with the default profile, control held or lost with a new generation, and the walk was started, or set to zero velocity in a session that was owned before; in an owned session that reports walking only parameters go out |
| CyvetBackend.CyvetImpl.Stand | src/cyvet/cyvet_backend.cpp:397-434 | motion is on afterwards exactly when it returned success, with walking at zero velocity confirmed under the default profile, the latch cleared and no stop to recover; it succeeds when control is to be had, no stop is left to recover and the robot cooperates; after a failure that had commanded the robot a stop is the last motion command, or an emergency stop was reported, unless something newer takes over or control is gone |
| CyvetBackend.CyvetImpl.ChangeParams | src/cyvet/cyvet_backend.cpp:449-456 | a stop goes out whatever happens; success means it was confirmed at zero velocity, the new parameters are the last command, and walking at zero velocity under them was confirmed |
| CyvetBackend.CyvetImpl.StopUnlessCanceled | src/cyvet/cyvet_backend.cpp:440-448 | a change that cannot be made stops the robot and leaves the stop to recover unless zero velocity was reported, except when the request was overtaken or control is gone |
| CyvetBackend.CyvetImpl.SwitchProfile | src/cyvet/cyvet_backend.cpp:439-471 | motion is on afterwards exactly when it returned success: stopped, then the new parameters sent and zero velocity under them confirmed, never under a latched stop; it succeeds in a healthy session with a robot that cooperates; every failure leaves motion off and, unless the request was overtaken or control is gone, a stop is the last motion command (or an emergency stop was reported), confirmed at zero velocity or left to recover |
| CyvetBackend.CyvetImpl.Release | src/cyvet/cyvet_backend.cpp:480-490 | a robot under control is sent a stop; success means control is gone and, if it was held, the stop was confirmed on the wire and the loss of control logged; failure that the stop is left to recover or the release order went out in vain |
| CyvetBackend.CyvetImpl.Lie | src/cyvet/cyvet_backend.cpp:491-505 | success means laying was ordered and reported after that as the last motion command, and control is gone; a request already overtaken only stops the robot; failure leaves no robot under control unstopped unless it was overtaken, refused or laying was reported; motion is never enabled |
| CyvetBackend.CyvetImpl.SoftEstop | src/cyvet/cyvet_backend.cpp:506-517 | always latched; under control the command goes out; success means a reported emergency stop at zero velocity, failure under control leaves a stop to recover |
| CyvetBackend.CyvetImpl.AbortOnException | src/cyvet/cyvet_backend.cpp:166-175 | motion off; under control an emergency stop is sent, latched, and stays to be recovered |
| CyvetBackend.CyvetImpl.SendVelocity | src/cyvet/cyvet_backend.cpp:569-572 | one velocity goes on the wire, only a tested one newer than the one that failed last; one that does not get through is remembered as failed; services run between its tests and the wire |
| CyvetBackend.CyvetImpl.Retry | src/cyvet/cyvet_backend.cpp:591-606 | at most one more velocity, strictly newer than the failed one; with silent services, under a walking report, a fresh newer one is certainly sent; a recovered dispatch leaves no failed velocity behind |
| CyvetBackend.CyvetImpl.AfterFailure | src/cyvet/cyvet_backend.cpp:572-615 | after a failure at most one retry, certain after a timeout if a fresh newer velocity is there, services are silent and the robot answers that it walks; unless it recovered, motion is off and a robot still under control was told to stop |
| CyvetBackend.CyvetImpl.StopIfIdle | src/cyvet/cyvet_backend.cpp:550-565 | without a fresh velocity a robot known to be moving under control is told to stop; afterwards nothing is known to move and enabled motion has no stop to recover |
| CyvetBackend.CyvetImpl.DispatchVelocity | src/cyvet/cyvet_backend.cpp:545-616 | sends at most two velocities and keeps the command rate; a robot known to be moving is forgotten only when it was told to stop, motion is off or control is gone; with silent services a due velocity is certainly sent and a robot without a fresh one certainly told to stop; unless it throws, enabled motion has no stop to recover and no failed velocity |
| CyvetBackend.CyvetImpl.ForgetDrive | src/cyvet/cyvet_backend.cpp:546-546 | the worker itself leaves a robot driving: a preparation accepted while motion is on, with the good order of the loop head, ends the generation, and the next dispatch only forgets the motion; motion is off, the last motion command is unchanged, no stop and no emergency stop went out and none is left to recover |
| CyvetBackend.CyvetImpl.RecoverStop | src/cyvet/cyvet_backend.cpp:617-647 | when due it sends one emergency stop, then either sees the robot standing still or sends a stop and waits 200 ms; a stop counts as recovered only when control is gone or zero velocity was reported, walking or in the emergency stop, and certainly when the robot cooperates |
| CyvetBackend.CyvetImpl.ConnectRobot | src/cyvet/cyvet_backend.cpp:300-336 | connecting takes no control, commands no motion, enables nothing and leaves a stop to recover as it was; it ends connected, holding the robot capable of what it answered, or disconnected again; a robot that cooperates is connected |
| CyvetBackend.CyvetImpl.DisconnectJob | src/cyvet/cyvet_backend.cpp:794-804 | a robot under control is told to stop; success means disconnected, the stop confirmed, control gone and not reconnecting |
| CyvetBackend.CyvetImpl.PopJob | src/cyvet/cyvet_backend.cpp:666-671 | the next job is the first stop if there is one, and a preparation that is still current starts with motion off |
| CyvetBackend.CyvetImpl.Settle | src/cyvet/cyvet_backend.cpp:674-676 | the running job, not answered before, gets its result |
| CyvetBackend.CyvetImpl.PerformStop | src/cyvet/cyvet_backend.cpp:794-827 | whatever the robot answers: disconnect and release tell a robot under control to stop, a soft emergency stop sends the emergency stop; what success and failure mean for each, and that the robot's cooperation brings success |
| CyvetBackend.CyvetImpl.Perform | src/cyvet/cyvet_backend.cpp:793-834 | exactly a preparation that reports success has enabled motion; what success and failure of every kind of job mean for the wire, the robot and the worker's plan; a stop has done its work on a robot under control |
| CyvetBackend.CyvetImpl.Finish | src/cyvet/cyvet_backend.cpp:672-676 | the job's promise gets exactly what the job returned, or that it threw, after the emergency stop |
| CyvetBackend.CyvetImpl.RunJob | src/cyvet/cyvet_backend.cpp:672-676 | the job has its one result whatever happens, and the result means what it says: success is what the job was to do, failure has its reason, an exception left motion off and the emergency stop to recover, overtaken work commanded nothing; an overtaken job is told so, a stop never is; a job that nothing overtakes succeeds with a robot that cooperates |
| CyvetBackend.CyvetImpl.ServeNext | src/cyvet/cyvet_backend.cpp:665-683 | the stop that was first in the queue is served; after any job, if services are silent and the robot answers, the report is up to date |
| CyvetBackend.CyvetImpl.Poll | src/cyvet/cyvet_backend.cpp:703-704 | exactly the queries that are due are outstanding afterwards and due again after 100 ms and one second; one at a time |
| CyvetBackend.CyvetImpl.StopIfStale | src/cyvet/cyvet_backend.cpp:695-700 | when walking reports are stale motion is off, and with silent services a robot that was enabled is told to stop |
| CyvetBackend.CyvetImpl.LeaveIfSilent | src/cyvet/cyvet_backend.cpp:705-713 | a robot silent on both queries is stopped if under control, motion is off, and the session is gone without control; a robot that answers one of them is left alone |
| CyvetBackend.CyvetImpl.Supervise | src/cyvet/cyvet_backend.cpp:694-713 | in one pass: stale reports switch motion off, an unconfirmed stop is escalated when due, a robot that answers nothing is stopped and left, a due velocity is sent, a robot without a fresh one is stopped, and due queries are asked |
| CyvetBackend.CyvetImpl.Round | src/cyvet/cyvet_backend.cpp:663-721 | every loop head: enabled motion has no stop to recover and no velocity that just failed, and a robot last told to drive is known to be moving; the stop that was first in the queue has run and done its work, whatever the robot answered; with no job and silent services a due velocity is sent, an overdue robot stopped, motion off under stale reports, and a lost session connected again |
| CyvetBackend.CyvetImpl.Drain | src/cyvet/cyvet_backend.cpp:732-736 | afterwards every job ever accepted has its result |
| CyvetBackend.CyvetImpl.LastStop | src/cyvet/cyvet_backend.cpp:723-729 | at shutdown a robot still under control is told to stop |
| CyvetBackend.CyvetImpl.Shutdown | src/cyvet/cyvet_backend.cpp:722-737 | a robot under control is told to stop; then disconnected, queues empty, every accepted job answered |
| CyvetBackend.CyvetImpl.Run | src/cyvet/cyvet_backend.cpp:662-737 | the worker from start to shutdown, under every race with `quitting` |
| CyvetSafety.FineBooks | src/cyvet/cyvet_backend.cpp:176-202 | the job accounts balance after every log |
| CyvetSafety.EnabledIsCurrent | src/cyvet/cyvet_backend.cpp:425-432 | motion is enabled only by the preparation whose acceptance is the latest event that started a generation |
| CyvetSafety.StopsAreFinal | src/cyvet/cyvet_backend.cpp:181-197 | after a stop was accepted only a preparation accepted later can enable motion |
| CyvetSafety.StopsAreAnswered | src/cyvet/cyvet_backend.cpp:184-200 | and not before the stop has its result and its caller has returned |
| CyvetSafety.EmergencyStopHolds | src/cyvet/cyvet_backend.cpp:371-383 | from a report of an emergency stop until the next report no parameters, no stop command and no velocity go out |
| CyvetSafety.NeverReplayed | src/cyvet/cyvet_backend.cpp:572-615 | a velocity whose RPC failed is never sent again in the run |
| CyvetSafety.SentWasAccepted | src/cyvet/cyvet_backend.cpp:545-606 | every velocity sent was accepted by move, copied after that, shown in time by a clock reading after the copy, and sent once per copy, with walking the last report |
| CyvetSafety.SentIsCurrent | src/cyvet/cyvet_backend.cpp:545-572 | every velocity sent passed its generation test while motion was enabled for that very generation and nothing had started another |
| CyvetSafety.RetryIsNewer | src/cyvet/cyvet_backend.cpp:593-602 | the next velocity after a failed one, in the same stretch of enabled motion, is strictly newer and of the same generation |
| CyvetSafety.StopsReachTheWire | src/cyvet/cyvet_backend.cpp:181-197 | once an accepted stop was taken from its queue no velocity is sent until a preparation accepted after the stop has enabled motion |
| CyvetSafety.NoRunaway | src/cyvet/cyvet_backend.cpp:545-572 | while the last motion command is a velocity, motion is still on exactly when nothing has started a generation since that velocity was tested |
| CyvetSafety.DriveOutlivesItsGeneration | src/cyvet/cyvet_backend.cpp:546-546 | a log in which a preparation is accepted behind a velocity is allowed: motion is off, the robot was last told to drive, and no stop was accepted or ordered |
| CyvetSafety.JobsInOrder | src/cyvet/cyvet_backend.cpp:669-670 | stops run in order of acceptance, and so does other work |
| CyvetSafety.StopsFirst | src/cyvet/cyvet_backend.cpp:669-670 | no other work starts while an accepted stop is queued |
| CyvetSafety.OneResult | src/cyvet/cyvet_backend.cpp:674-676 | no job gets two results |
| CyvetSafety.ClockGrows | src/cyvet/cyvet_backend.cpp:662-721 | the stamps of the log never go back |
| CyvetSafety.StopsAlwaysRun | src/cyvet/cyvet_backend.cpp:674-675 | a stop is never answered as superseded |
| CyvetResults.ResultWasTaken | src/cyvet/cyvet_backend.cpp:669-676 | every result but a drained one is of a job taken before it, the last one taken, for what it was accepted for before that |
| CyvetResults.ReleaseMeans | src/cyvet/cyvet_backend.cpp:480-490 | a release or disconnect told as success: control has ended, and if it was held when the job was taken, a stop went out since and walking was reported after it with no other motion command, or the emergency stop from before was reported again |
| CyvetResults.SoftEstopMeans | src/cyvet/cyvet_backend.cpp:506-517 | a soft stop told as success: since it was taken the emergency stop was ordered and reported after that, with no other motion command in between or since |
| CyvetResults.LieMeans | src/cyvet/cyvet_backend.cpp:491-505 | lying down told as success: since it was taken laying was ordered and reported after that, with no other motion command in between or since, and control has ended |
| CyvetResults.TakeControlMeans | src/cyvet/cyvet_backend.cpp:388-396 | control told as taken is held at that moment |
| CyvetResults.PreparationMeans | src/cyvet/cyvet_backend.cpp:397-471 | a job has enabled motion exactly when it is a preparation told as success |
| CyvetResults.ThrewMeans | src/cyvet/cyvet_backend.cpp:166-175 | a job told as thrown has enabled nothing, motion is off, and under control the last motion command is the emergency stop |
| CyvetResults.SupersededMeans | src/cyvet/cyvet_backend.cpp:673-675 | work told as superseded is no stop, and no motion command went out and nothing was enabled since it was taken |
| CyvetResults.NoVelocityInJob | src/cyvet/cyvet_backend.cpp:662-702 | no velocity goes out between the start of a job and its result |
| CyvetJoints.Joints.ParseLayout | src/cyvet/cyvet_backend.cpp:277-292 | the whole layout if it is consistent, none otherwise; always injective with nonempty names |
| CyvetJoints.Joints.OnMotion | src/cyvet/cyvet_backend.cpp:738-773 | published exactly when the stamp is newer than every one of the session before and the sample is complete; then it names every motor once, row by row the sample's readings |
| CyvetJoints.Joints.Connect | src/cyvet/cyvet_backend.cpp:312-330 | a connection keeps no names of an earlier one and starts the stamps over |
| CyvetJoints.BuiltAdd | src/cyvet/cyvet_backend.cpp:282-291 | a new key with a new name extends the layout built so far |
| CyvetJoints.Clash | src/cyvet/cyvet_backend.cpp:287-289 | an empty name, a repeated key or a repeated name means the list is inconsistent |
| CyvetJoints.DistinctCount | src/cyvet/cyvet_backend.cpp:769-770 | the size of the set of names decides whether they are distinct |
| D1Backend.D1Max.OnRobotStateData | src/d1_max/d1_max_backend.cpp:44-65 | a telemetry callback keeps the fields the digest of the history, whose demand and confirmation the rows below tell on the history itself |
| D1Backend.D1Max.OnTaskStateData | src/d1_max/d1_max_backend.cpp:79-118 | so does a task callback |
| D1Backend.D1Max.ExitConfirmedLocked | src/d1_max/d1_max_backend.cpp:771-782 | fresh telemetry with the link down or no charging battery |
| D1Backend.D1Max.WaitForUndockCompleted | src/d1_max/d1_max_backend.cpp:836-880 | the loop on the fields ends as the loop told on histories does |
| D1Backend.D1Max.WaitForRechargeStopped | src/d1_max/d1_max_backend.cpp:823-834 | likewise for a stopped recharge |
| D1Backend.D1Max.WaitForUndockStopped | src/d1_max/d1_max_backend.cpp:882-893 | likewise for a stopped undock |
| D1Backend.D1Max.WaitForRechargeStarted | src/d1_max/d1_max_backend.cpp:797-821 | likewise for a started recharge |
| D1Backend.D1Max.WaitForPile | src/d1_max/d1_max_backend.cpp:606-615 | success exactly on a fresh link |
| D1Backend.D1Max.StartRecharge | src/d1_max/d1_max_backend.cpp:604-630 | the command goes out only if the wait for the pile ended with a fresh link, at the time of that look; success means that at the last look of the recharge wait, at the time of that look, a recharge reported after this call's own request was active, with fresh telemetry charging; every result is the one the script of that call determines |
| D1Backend.D1Max.StopRecharge | src/d1_max/d1_max_backend.cpp:632-647 | success means a stop newer than the call was reported, and the undock demand stands; nothing is sent without an active recharge; every result is the one the script determines |
| D1Backend.D1Max.AcceptExited | src/d1_max/d1_max_backend.cpp:710-727 | the exit is accepted exactly when the history is skippable at that moment; otherwise it fails, or the demand stands |
| D1Backend.D1Max.EnterUndock | src/d1_max/d1_max_backend.cpp:679-695 | the first section: what is running, the demand it records, and the snapshot, one below the SUCCESS that is still the current task if there is one |
| D1Backend.D1Max.CommandUndock | src/d1_max/d1_max_backend.cpp:736-749 | the snapshot is the number of task updates when the undock was commanded |
| D1Backend.D1Max.JoinUndock | src/d1_max/d1_max_backend.cpp:836-880 | the wait ends as the wait told on histories does, and the proof is that wait's |
| D1Backend.D1Max.StartUndock | src/d1_max/d1_max_backend.cpp:666-751 | success is a handoff whose proof is this very call's: the exit held at its second section, or the wait that began where, when and from the snapshot its sections determine ended there; with an undock demanded by the history and the link shown up it can only be by waiting; a running undock is joined, a running recharge stopped first; every result is the one the script determines |
| D1Backend.D1Max.ChargeState | src/d1_max/d1_max_backend.cpp:895-916 | the reported code is the digest's, which `D1Flags.ChargeCodeMeans` tells on the history |
| D1Backend.AwaitUndockShape | src/d1_max/d1_max_backend.cpp:845-879 | a wait only goes through the first of its wakes, at the clock of the last; its success rests on the history at that moment, its failure on a reported failure |
| D1Backend.AwaitPileShape | src/d1_max/d1_max_backend.cpp:606-615 | a wait for the pile only goes through the first of its wakes, and succeeds exactly on a fresh sample with the link up at its last look |
| D1Backend.Obligation | src/d1_max/d1_max_backend.cpp:717-719 | once the history has demanded an undock and shown the link up, and shows it up ever after, a handoff rests on a wait |
| D1History.RememberedIsLast | src/d1_max/d1_max_backend.cpp:101-115 | the remembered numbers are those of the last such updates, whatever came after |
| D1History.RememberedIffReported | src/d1_max/d1_max_backend.cpp:101-115 | a remembered number exceeds a snapshot exactly when a newer such event was reported |
| D1History.SuccessIsLast | src/d1_max/d1_max_backend.cpp:106-108 | the success fields are those of the last SUCCESS that no handoff has used |
| D1History.TelemetryIsLast | src/d1_max/d1_max_backend.cpp:49-60 | the telemetry fields are those of the last sample |
| D1History.WaitRefinesHistory | src/d1_max/d1_max_backend.cpp:846-862 | the digest fails exactly on a newer UNDOCK FAILURE and succeeds exactly on a newer unused SUCCESS with a late enough, fresh, exit-showing last sample |
| D1History.DemandStands | src/d1_max/d1_max_backend.cpp:854-855 | a demand stands until a handoff retires it |
| D1History.EvidenceIsLinear | src/d1_max/d1_max_backend.cpp:855-859 | two handoffs by waiting rest on two different SUCCESS events, in order |
| D1History.StartFailsIffLast | src/d1_max/d1_max_backend.cpp:804-808 | a recharge failure is seen exactly when no later task update replaced it |
| D1History.RechargeFailureIsHidden | src/d1_max/d1_max_backend.cpp:804-808 | any other task update hides any reported recharge failure |
| D1Flags.ConfirmedIffHolding | src/d1_max/d1_max_backend.cpp:61-100 | the exit counts as confirmed exactly when one was accepted and nothing has contradicted it since: no charging battery on the pile, no charge activity, no new charge call |
| D1Flags.RequiredIffDemanded | src/d1_max/d1_max_backend.cpp:62-64 | an undock is required exactly when, since the last handoff, a sample showed a charging battery or the RECHARGE state without keeping a confirmed exit, a RECHARGING or UNDOCK task was starting, running or failed, or a charge call demanded one |
| D1Flags.SkipsIffSkippable | src/d1_max/d1_max_backend.cpp:710-727 | the shortcut's test holds exactly when the last sample is fresh and shows the link down, or the link up with a battery known not to charge, none charging and no demand in the history |
| D1Flags.StartsIffRecharges | src/d1_max/d1_max_backend.cpp:797-815 | a recharge counts as started exactly when the last task update is a newer active RECHARGING and the last sample, fresh, shows charging |
| D1Flags.ChargeCodeMeans | src/d1_max/d1_max_backend.cpp:895-916 | each of the five charge codes, told on the last task, the last sample and the demand of the history, exactly when |
| D1Handoff.HandoffIsIdle | src/d1_max/d1_max_backend.cpp:895-904 | when startUndock succeeds the last sample is fresh and the charge state is 0 at the very look that accepted the exit: the second section of the call, or the wake of its wait after which the exit was accepted |
| D1Handoff.CalmKeeps | src/d1_max/d1_max_backend.cpp:61-64 | callbacks consistent with the exit keep it confirmed |
| D1Handoff.StaysIdle | src/d1_max/d1_max_backend.cpp:895-916 | and the state stays 0 while samples arrive under five seconds apart |
| D1Handoff.IdleIffCalm | src/d1_max/d1_max_backend.cpp:895-916 | after a confirmed exit one more callback keeps it at 0 exactly when it does not contradict the exit |
| D1Handoff.ContradictionShows | src/d1_max/d1_max_backend.cpp:93-100 | contradicting telemetry or charge activity shows at once, always |
| D1Handoff.WaitConsumes | src/d1_max/d1_max_backend.cpp:852-859 | a success by waiting consumes the latest unused SUCCESS, reported after the call's first section or the current task there; the last sample is no older than it and the start of the wait, and under five seconds old at the time of the wake after which the exit was accepted |
| D1Handoff.WaitsUseDistinctEvidence | src/d1_max/d1_max_backend.cpp:836-880 | two successful waits of a run consume different SUCCESS events with increasing numbers |
| X30Robot.Robot.Snapshot | include/nav_bridge/x30/robot_state_store.hpp:85-90 | one look at the store under its lock |
| X30Robot.Robot.WaitForState | include/nav_bridge/x30/robot_state_store.hpp:142-147 | a failed wait takes exactly its timeout, a successful one at most that |
| X30Robot.Robot.WaitForBasic | include/nav_bridge/x30/robot_state_store.hpp:114-126 | the same for a set of basic states |
| X30Robot.Robot.WaitForGait | include/nav_bridge/x30/robot_state_store.hpp:128-140 | the same for a gait |
| X30Executor.SendSingleCommandAndWait | src/x30/action_executor.cpp:88-106 | at most two sends, exactly two full waits on failure; success exactly when one of its looks finds a target, at the first that does |
| X30Executor.SendToggleCommandWithRetries | src/x30/action_executor.cpp:108-145 | at most ceil(overall/resend) sends, each resend after a look that missed the targets; under overall + 400 ms; success exactly when one of the looks the schedule leaves finds a target |
| X30Executor.StandUp | src/x30/action_executor.cpp:183-202 | success means the robot was seen on its feet inside the call |
| X30Executor.Rise | src/x30/action_executor.cpp:162-202 | which states are accepted, refused or lead to standing up first |
| X30Executor.LeaveMotion | src/x30/action_executor.cpp:204-232 | RL mode goes to walk first, stepping is stopped, in that order |
| X30Executor.StopAndForce | src/x30/action_executor.cpp:204-249 | success means FORCE_STAND was the last observation |
| X30Executor.ForceStanding | src/x30/action_executor.cpp:155-250 | success has a witness; at most 60.1 s and eleven commands, phase by phase; its answer is that of its walk along the looks (`X30Looks.ForceLooks`) |
| X30Executor.Settle | src/x30/action_executor.cpp:321-349 | the loop that resets its own deadline ends whenever STEPPING is read finitely often; a robot still standing then has had three seconds since the start and since every stop |
| X30Executor.StopAndLie | src/x30/action_executor.cpp:305-364 | success means LYING_DOWN was the last observation; a first command down after a look that found the robot standing comes three seconds or more after the call began and after every stop |
| X30Executor.LieDown | src/x30/action_executor.cpp:252-365 | the same for the whole call, within 42.9 s plus 11 s for every return to stepping; its answer is that of its walk along the looks (`X30Looks.LieLooks`) |
| X30Executor.EnterForceStand | src/x30/action_executor.cpp:420-439 | the second phase of stand: one command from the initial stand, none beyond it |
| X30Executor.EnterTargetGait | src/x30/action_executor.cpp:441-484 | the last phase of stand: from FORCE_STAND motion is started before the gait, otherwise only the gait is sent; success with a witness |
| X30Executor.GetUp | src/x30/action_executor.cpp:380-418 | the first phase of stand |
| X30Executor.Stand | src/x30/action_executor.cpp:367-488 | returns within 59.1 s after at most eleven commands in phase order; success has a witness; its answer is that of its walk along the looks (`X30Looks.StandLooks`) |
| X30Gait.StartMotion | src/x30/x30_nav_bridge.cpp:704-736 | at most three toggles, each after a look reading FORCE_STAND; a failure takes exactly four seconds |
| X30Gait.FinishSwitch | src/x30/x30_nav_bridge.cpp:674-749 | the gait is sent once, and success means it was reached |
| X30Gait.SetNavigationGait | src/x30/x30_nav_bridge.cpp:529-750 | within 20.4 s, at most six toggles, nothing sent when refused or already there; success has a witness; its answer is that of its walk along the looks |
| X30Gait.ForceStandReachesRl | src/x30/x30_nav_bridge.cpp:624-691 | from FORCE_STAND an RL gait is reached by a robot that starts to step within six looks and takes the gait |
| X30Gait.RlReachesWalk | src/x30/x30_nav_bridge.cpp:674-749 | from RL mode a walking gait is reached by a robot that takes it and steps within six looks |
| X30Looks.SeekFinds | src/x30/action_executor.cpp:88-145 | a bounded row of looks succeeds exactly when one of them meets the want, and stops right after the first that does |
| X30Looks.LyingRobotStands | src/x30/action_executor.cpp:394-488 | a lying robot that does as told is stood up into the target gait, within four stand-up commands and three motion commands |
| X30Looks.StoppedRobotStands | src/x30/action_executor.cpp:380-488 | so is one in a soft stop, after it has lain down |
| X30Looks.LyingRobotForces | src/x30/action_executor.cpp:183-249 | a lying robot that does as told ends in force control |
| X30Looks.WalkingRobotStops | src/x30/action_executor.cpp:204-249 | so does one in RL mode, by way of walk, stop and force control |
| X30Looks.SettlesStanding | src/x30/action_executor.cpp:321-349 | while the robot is seen standing the settle loop looks on for all its thirty polls |
| X30Looks.StandingRobotLies | src/x30/action_executor.cpp:305-364 | a standing robot that does as told lies down after three calm seconds |
| X30Looks.RlRobotLies | src/x30/action_executor.cpp:278-303 | one in RL mode goes down at one of two commands |
| X30Looks.StoppedRobotLies | src/x30/action_executor.cpp:264-275 | so does one in a soft stop |
| X30Control.ControlSession.AcquireControl | src/x30/x30_nav_bridge.cpp:389-392 | the session follows the list of calls |
| X30Control.ControlSession.ReleaseControlOwnership | src/x30/x30_nav_bridge.cpp:394-402 | likewise, and it reports control exactly when the last acquire or release was an acquire |
| X30Control.ControlSession.EvaluateControlPulse | src/x30/x30_nav_bridge.cpp:1021-1050 | a pulse sends what the list of calls says it sends |
| X30Control.ControlSession.WarmupControl | src/x30/x30_nav_bridge.cpp:404-420 | a warm-up lasts exactly its length and pulses at most one interval apart |
| X30Control.SilentUnlessLatched | src/x30/x30_nav_bridge.cpp:1026-1028 | nothing is sent unless the last acquire or release was an acquire |
| X30Control.PulseMeans | src/x30/x30_nav_bridge.cpp:1021-1050 | what a pulse sends, told on the calls before it: a heartbeat exactly when control was acquired last and the pulse is forced, the first of its session, or an interval after the latest heartbeat; the query exactly with the first |
| X30Control.WarmupBeats | src/x30/x30_nav_bridge.cpp:404-420 | every pulse of a warm-up sends a heartbeat |
| X30Control.OneQueryPerSession | src/x30/x30_nav_bridge.cpp:1043-1046 | the query goes out exactly with the first pulse of a session, together with a heartbeat |
| X30Control.UnforcedBeatsAreApart | src/x30/x30_nav_bridge.cpp:1036-1041 | an unforced heartbeat is an interval away from every earlier one of its session |
| X30Control.BeatsAreDense | src/x30/x30_nav_bridge.cpp:1036-1041 | pulses at most P apart keep heartbeats less than interval + P apart |
| Odometry.ContinuousOdometry.Update | include/nav_bridge/cyvet/motion_math.hpp:13-29 | the published pose is what dead reckoning over the whole stream gives |
| Odometry.ContinuousOdometry.NewSessionStarts | include/nav_bridge/cyvet/motion_math.hpp:30-30 | a new session moves nothing |
| Odometry.Anchor | include/nav_bridge/cyvet/motion_math.hpp:21-23 | the new offset puts the first raw pose of a piece exactly on the last published one |
| Odometry.FirstIsRaw | include/nav_bridge/cyvet/motion_math.hpp:14-17 | the first sample is published as it is |
| Odometry.GapInventsNothing | include/nav_bridge/cyvet/motion_math.hpp:18-27 | after an epoch change or a new session the previous pose is published again |
| Odometry.StretchIsOneTurn | include/nav_bridge/cyvet/motion_math.hpp:25-27 | within a stretch every published step is the raw one under one fixed turn |
| Odometry.StretchIsTurned | include/nav_bridge/cyvet/motion_math.hpp:21-27 | in plain coordinates: the published displacement of a stretch is the raw one turned counterclockwise by the angle by which the published heading was ahead of the raw one at its start |
| Odometry.StretchIsRigid | include/nav_bridge/cyvet/motion_math.hpp:25-27 | distances and heading differences within a stretch are preserved |
| Odometry.DisplacementIsSum | include/nav_bridge/cyvet/motion_math.hpp:13-29 | the total displacement is the sum of the turned raw steps, gaps contributing zero |

## Left out

- HTTP, JSON text, DDS, UDP sockets and the vendor SDKs: a call is an arbitrary result and a log entry.
- ROS nodes, publishers, parameters, logging, diagnostics, battery and IMU data, the TANK raw-velocity thread, fault messages and user callbacks, which are taken not to re-enter the back end.
- Memory-model detail, counter wrap-around of `epoch`, `generation`, `stop_requests` and the D1 sequence numbers.
- TANK: connect and disconnect are called one after the other, as the node does; the reported motion state, the reported velocity and the battery request of the telemetry thread are not modelled, nor are the waits between loop turns (a turn may come at any time).
- TANK and Cyvet fields that are always written together are grouped in small records.
- Cyvet: a velocity reported before the telemetry timeout counts as zero, because that is how the code reads it (src/cyvet/cyvet_backend.cpp:652-655).
- Cyvet: the JSON checks of capability ranges, the odometry time stamp filter and the axis sign are left out; a control profile string is one of two values; sending a query of the asynchronous poll does not throw.
- CyvetBackend.CyvetImpl.Run: looks at a bounded number of turns of the endless loop, for every bound; an exception out of the last disconnect, which nobody catches, ends it unfinished.
- CyvetBackend.CyvetImpl.Confirm: a pass of the polling loop takes at least one clock unit.
- CyvetBackend.CyvetImpl.DispatchVelocity: that a due velocity is sent, and that a robot without a fresh one is told to stop, is stated only for silent services, because services may withdraw the velocity, move or end the generation at any step.
- CyvetBackend.CyvetImpl.AfterFailure: that the retry takes place is stated only for silent services and a robot that answers every call, for the same reason.
- CyvetBackend.CyvetImpl.ServeNext: likewise for the report after a job.
- CyvetBackend.CyvetImpl.StopIfStale: that the robot is told to stop is stated only for silent services, because a service that ends the generation first leaves the stop to whoever comes next (src/cyvet/cyvet_backend.cpp:695); that motion is off holds always.
- CyvetBackend.CyvetImpl.Stand: a preparation that is refused before it commands anything sends no stop, and neither does the code.
- Cyvet: a motion still running when its generation ends is not stopped by the dispatch, which only forgets it (src/cyvet/cyvet_backend.cpp:546); `CyvetSafety.NoRunaway` says exactly when that can be, and `CyvetImpl.ForgetDrive` that the worker does leave a robot so. Stopping is then up to what ended the generation: a stop is served whatever happens (`Round`), a preparation stops, starts or sets the robot anew unless it is refused (`Stand`, `SwitchProfile`), the worker stops what it switched off itself, and without control nothing may be sent.
- Cyvet: that enabled motion implies no latched emergency stop is not stated, since a profile change does not test the latch again when it enables (src/cyvet/cyvet_backend.cpp:463-468).
- CyvetBackend.CyvetImpl.DisconnectClient: control lost inside the client's own disconnect without a callback is kept as the code has it; motion is off there, or the back end is quitting.
- D1 Max: charge calls do not overlap, as the node's charge mutex provides (src/d1_max/d1_max_nav_bridge_node.cpp:244); deadlines appear only as waits that time out, and stopUndock's own call is not modelled beyond its wait.
- D1 Max posture scripts (stand, lie, gait), the velocity gate and the `updateState` callbacks.
- X30Executor.LieDown: requires that STEPPING is read finitely often, without which the settle loop need not end; the bound counts the returns to stepping.
- CyvetBackend.CyvetImpl.RunJob: that a job succeeds is stated only for silent services and a robot that accepts every call and keeps reporting what the job waits for, since anything else may overtake or refuse it; a standing still in the emergency stop is stated on the worker's fields, as the log has no velocities of reports.
- TankProgress.ReadySucceeds: what a call comes to is stated for a thread that takes its steps alone, since any other request may overtake it.
- X30Executor.Stand: on the paths that skip the gait switch the two halves of the witness are two successive looks, because the code reads basic state and gait separately (src/x30/action_executor.cpp:441-444).
- X30Gait.SetNavigationGait: likewise on the path that finds the gait already set after starting to step (src/x30/x30_nav_bridge.cpp:667-671).
- X30: body height, charging, velocity ticks and their suppression, and the tables that map gaits to command codes.
- Odometry: the quaternion of the published heading and floating-point rounding.
