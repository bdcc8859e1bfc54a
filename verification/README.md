# A verified model of openpi_control

openpi_control drives pairs of robot arms: a native control node per arm, written in C++, and a
Python client that supervises them. This project models the parts of both in which the hard
promises are made and proves them in Dafny 4.11. Check it with `dafny verify dfyconfig.toml`.

## What is modelled

- **Ready move** (`ReadyMove`, `HealthyMove`): one call per control loop drives all joints home with
  a bounded step, an arrival confirmation, a latched stuck check and a budget computed from the
  distance.
- **Device** (`Device`, `Devices`, `ReadTriage`): one control step of an arm and of its effector, with
  commanded moves, emergency recovery, the synchronized follower slew, hold, gravity float and
  command dispatch. `Device` gives the phases as functions; the classes in `Devices` have the fields
  and loops of the code and are proved against them.
- **Control node** (`ControlNode`, `NodeLoop`): the main loop, with the entry into recovery and the
  announcement window.
- **Theorems over whole runs of the node**: when a recovery starts (`RecoveryStarts`), what it shows
  (`RecoveryOrder`), that it ends and exactly when (`RecoveryEnds`, `RecoveryCompletion`), whom it gives up
  (`FailedJoints`); where commands go (`JointStep`, `NoJump`, `StrictHistory`, `Rest`, `Protection`); what the
  commands and the streams of the clients come to (`Commands`, `Streams`) and what is published
  (`Announcements`); requested moves of arm and effector (`CommandedMove`, `ReadyRequests`, `StuckJoints`,
  `EffectorLife`). `Jumps` and `Witnesses` have runs of a small arm (`SmallArm`) that attain what these
  theorems leave open.
- **Slew** (`Slew`): exact timing and time optimality of the follower's synchronized motion.
- **Client fence** (`Fence`, `FenceReadiness`, `RequestServed`): the client's request, acknowledgement, READY and state handling,
  together with the node, over unreliable channels; and, when nothing is lost and the hardware answers,
  the return of the call.
- **Teleoperation** (`Engagement`, `Teleop`, `TeleopModes`, `TeleopWitness`, `Alignment`, `Connection`, `Session`, `SessionSafety`):
  engage, disengage and block as interleaved atomic steps of any number of threads, the alignment
  loop, connection generations, and the order of session operations.
- **Arithmetic cores** (`Ports`, `Gripper`): port probing and gripper conversions.

Every measurement, return code, clock reading and client message is an input of a step, and the
theorems quantify over all of them. Clocks of the watchdogs count milliseconds as integers; the slew
and alignment clocks, positions and velocities are real numbers. A joint carries its buffered leader
target; the protections that override it (limits, lag, stall) are inputs. A joint need not be measured
in a step: the arm asks no servo that is in its failed set, and keeps the pose it had. A joint also
carries five history fields that the code does not have: the last command, the number of commands, the
last command with every pose measured since the step that sent it began, the last command with the
poses measured after it, and whether the step under way has measured it. The event list of the topic is a history as well; besides what is published it records when
a request is received, taken up and carried out, and when the slow move of a recovery begins.

## What the proofs brought to light

- With the recovery watchdog disabled (`emergency_shutdown_timeout_ms <= 0`) a feed-forward that keeps
  failing keeps a recovery open for ever; the watchdog or the absence of feed-forward is exactly what
  guarantees the end (`RecoveryEnds.AlwaysEndsIff`).
- The ready move returns the code of the last joint it moved. A failure of an earlier joint is
  overwritten; a failure of the last one makes the step fail even when the move has just been
  completed, and then the request is not recorded as completed. In the step in which a commanded arm
  becomes ready its request is recorded exactly when the arm had arrived before and only waited, or
  the last joint it moves accepts its command (`CommandedMove.CompletionRecordedIff`);
  `Witnesses.CompletionCanBeLost` is a run in which the completion is lost and a recovery begins.
- Outside a recovery the failed set only keeps joints from being read and from taking part in the ready
  move. The loop that holds a finished arm while it waits for its effector commands them all the same,
  and so does every tick of the slew (`FailedJoints.FailedJointCommandedIff`,
  `FailedJointCommandedInTurnIff`). `Witnesses.FailedJointIsCommanded` is a run from start-up that does
  so. During a recovery it does not happen (`FailedJoints.RecoveryLeavesFailedJointsAlone`).
- Therefore a joint can jump. A servo that fails at start-up is never read again before a recovery, but
  tracks its targets; whatever starts its slew over, starts it over from the pose of start-up. After a
  HOLD (`Jumps.HoldJumpsUnread`) or after a move-to-ready request (`Jumps.RequestJumpsUnread`) a single
  tick sends the joint back there, however far it has come. What starts a slew over is listed by
  `JointStep.Restarts` and `JointStep.CommandsFromPose`: taking up a request or a recovery, the first
  call of a ready move, a skipped start-up, restoring normal operation, an aborted gravity float, the
  holding loop, a pose that has crossed home, the end of a start-up move, an accepted hold. For every
  joint, the commands start in its history, and so are close to it, exactly as long as none of these
  happens on a pose outside that history (`NoJump.RunKeepsToHistoryIff`); for a joint that is not read
  this means a pose that is not its last command (`NoJump.UnreadKeepsIff`), and a joint that is read
  never jumps (`NoJump.TurnNeverJumps`, `InUseNeverJumps`).
- Even for a joint that is read in every step, a command need not be close to the previous command or
  to a pose measured after it, for the pose of a step is measured before the command of that step. The
  causes are the three restarts that follow a command in the same step: an accepted HOLD
  (`Jumps.HoldJumpsStrictly`), the hold when the client falls silent (`Jumps.SilenceJumpsStrictly`) and
  the end of a start-up move (`Witnesses.StartupJumpsStrictly`). With the restarts from an unread pose
  they are all there are (`StrictHistory.TurnIsStrictIff`, `StrictAfterCommandIff`, `StrictHistory.RunIsStrict`); and
  a joint whose slew is not at its last command can be sent too far by the very next tick
  (`StrictHistory.TracksStrictlyIff`).
- A ready move whose step is below 0.0001 rad per loop is taken for stuck and, unless short, ends short of
  home (`HealthyMove.HealthyMoveEndsInPlace`, `Witnesses.CrawlEndsShort`).
- A rebase makes the arm stay at its measured pose only as long as no protection overrides the
  buffered target: a joint outside its limits, or held where it fell behind, is commanded away
  (`Rest.TickLeavesRestIff`, `Jumps.ProtectionEndsRest`).
- Client and native node compute different port candidates exactly when the sum wraps around at 2^32
  (`Ports.NativeAgreesUnlessItWraps`), and then the native window may hold one port twice
  (`Ports.NativeRepeatsIff`); the state topic of the arm `left` in a session `jsumoh` is such a topic
  (`Ports.NativeWindowMayRepeat`).
- `disengage_all` stops at the first pair that raises, so closing a session may skip the disengage of
  the pairs after it (`Session.EveryPairIsDisengagedIff`); the rollback itself swallows the errors of its
  commands.
- An alignment command that raises after it was sent is not followed by a check. If a disengage has
  completed in the meantime, nothing owes a rollback any more and the follower is left with a position
  command instead of the hold (`Teleop.QuiescentIsSafe`, `TeleopWitness.StrayCommandIsReachable`).
- A copy of a move-to-ready request that arrives after the move has been completed starts the move
  again under the same id (`RequestServed.CopyStartsOver`), even after the client's call has returned
  (`RequestServed.ReturnedButMoving`). A normal return therefore speaks of one completed pass.

## Model

| member | source | states |
|---|---|---|
| RecoveryEnds.EveryRecoveryEnds | native/pi_control/src/pi_device.cpp:88-377 | every recovery that a run of the main loop enters ends: some later turn has state COMPLETED, the shutdown announced and the topic stopped, for all measurements, failing reads, moves and writes, if the clock advances, nobody sends a stop, and the watchdog is armed or the feed-forward works |
| RecoveryEnds.AlwaysEndsIff | native/pi_control/src/pi_device.cpp:861-892 | a configuration guarantees this for all hardware behaviour exactly when the watchdog is enabled or no feed-forward is computed; otherwise an endless run is exhibited |
| RecoveryEnds.SlowMoveEnds | native/pi_control/src/pi_device.cpp:165-239 | the measure behind it: budget initialised, calls left in the move, time until the heartbeat is stale |
| RecoveryEnds.SlowTurn | native/pi_control/src/pi_device_arm.cpp:1291-1555 | one turn of a recovery completes it (when, is RecoveryCompletesIff), or brings the move nearer to its end, or changes nothing because the feed-forward failed before the watchdog was due |
| RecoveryEnds.SilenceGoesOn | native/pi_control/src/pi_device_arm.cpp:1341-1353 | with the watchdog disabled a feed-forward that keeps failing keeps the recovery open for ever |
| RecoveryOrder.EventsInOrder | native/pi_control/src/pi_device.cpp:702-851 | over every run the published events follow the recovery protocol, and its phase determines the recovery state |
| RecoveryOrder.NeverBackToNormal | native/pi_control/src/pi_control_node.cpp:285-299 | a recovery, once entered, is never left |
| RecoveryOrder.RunIsSilentAfterError | native/pi_control/src/pi_device.cpp:304-341 | in every run, after ERROR_DETECTED there is no second one, no leader observation and no effector step |
| RecoveryOrder.RunEndsWithShutdown | native/pi_control/src/pi_device.cpp:793-833 | in every run SHUTDOWN_AFTER_ERROR follows an error, is followed at once by the stop of the topic, and no recovery event comes after it |
| RecoveryOrder.RunReportsProgressOnlyDuringSlowMove | native/pi_control/src/pi_device.cpp:188-201 | in every run RECOVERY_IN_PROGRESS is published only after the slow move has begun and before the shutdown |
| RecoveryOrder.StepInOrder | native/pi_control/src/pi_device.cpp:88-377 | no step starts or leaves a recovery, and each keeps the protocol |
| RecoveryOrder.MarkCompletedInOrder | native/pi_control/src/pi_device.cpp:793-833 | completing publishes shutdown and stop once, whatever the path to it |
| RecoveryStarts.RecoveryStartsIff | native/pi_control/src/pi_control_node.cpp:239-299 | outside recovery a turn starts one exactly if something fails that its step asks for, whatever the failure; then exactly one error is announced, the leader is not listened to, and only a silent servo that can be named is given up; otherwise no error is announced |
| RecoveryStarts.InRecoveryIffFailed | native/pi_control/src/pi_control_node.cpp:239-299 | in every run the node is in recovery exactly if something has failed in an earlier turn, and the errors announced number one then and none before |
| RecoveryStarts.ArmStepSucceedsIff | native/pi_control/src/pi_device_arm.cpp:1154-1204 | what a step asks for: the reading, the feed-forward, the commands (of a ready move the last one only), the float or the leader's control, the write, the observation, and the same of the effector |
| RecoveryCompletion.RecoveryCompletesIff | native/pi_control/src/pi_device_arm.cpp:1491-1555 | in every run a turn completes a recovery exactly if the watchdog is armed and the last sign of life too old, or the call of the turn ends the slow move: no joint is left to move, more than 30 calls in a row have found every joint in use at home or stuck, or some is neither and the budget is used up; unless the watchdog fired, the joints are done |
| RecoveryCompletion.CallEndsMoveIff | native/pi_control/src/pi_device_arm.cpp:1491-1531 | the same for one call of any ready move, counted from its first call |
| FailedJoints.TurnAddsUnusable | native/pi_control/src/pi_device_arm.cpp:324-546 | during a recovery the failed set only grows, and a servo enters it only if it is silent on the bus, silent or faulted when read, or refuses its command; a hot servo or a velocity or torque trip never does |
| FailedJoints.FailedSetOnlyGrows | native/pi_control/src/pi_device.cpp:702-734 | over a whole recovery the failed set is monotone |
| FailedJoints.FailedJointCommandedIff | native/pi_control/src/pi_device_arm.cpp:1386-1391 | a ready-move call commands a joint that had failed before exactly in the loop that holds a finished arm while it waits for its effector |
| FailedJoints.FailedJointCommandedInTurnIff | native/pi_control/src/pi_device_arm.cpp:1680-1955 | a whole turn commands a joint of the failed set exactly when it gets to act and is either that loop or a tick of the slew, up to the first command that fails |
| FailedJoints.RecoveryLeavesFailedJointsAlone | native/pi_control/src/pi_device_arm.cpp:1386-1489 | in every turn of every recovery, no position command goes to a joint whose servo is in the failed set after the reading |
| FailedJoints.GivenUpForGood | native/pi_control/src/pi_device_arm.cpp:1386-1489 | nor to a servo that the recovery has given up on in any earlier turn |
| Witnesses.FailedJointIsCommanded | native/pi_control/src/pi_device_arm.cpp:1680-1691 | a run from start-up in which the only servo falls silent, is taken out of use, and is commanded while the arm waits for its effector |
| ReadTriage.ReadHardwareValues | native/pi_control/src/pi_device_arm.cpp:324-546 | the reading loop returns a verdict of the declarative triage, names the first hard fault, and measures exactly the joints that are asked: outside the failed set, and up to the first hard fault where that ends the reading |
| ReadTriage.ReadBulk | native/pi_control/src/pi_device_arm.cpp:336-382 | what a failed bulk read means: the dead set without the unstarted effector, its lowest servo, the code |
| ReadTriage.VerdictIsUnique | native/pi_control/src/pi_device_arm.cpp:396-545 | the triage determines code and failed set: outside recovery the first hard fault in joint order, then the bus failure, then the first soft code; otherwise success, or the last code read when every joint left is unreachable |
| ReadTriage.StrictSuccess | native/pi_control/src/pi_device_arm.cpp:527-545 | a ready arm reads successfully exactly when no servo is dead and every joint not excluded reads successfully |
| ReadTriage.OnlyUnreachableServosFail | native/pi_control/src/pi_device_arm.cpp:413-463 | what a tolerated reading adds to the failed set |
| ReadTriage.GivenUpIff | native/pi_control/src/pi_device_arm.cpp:336-463 | a tolerated reading gives up on exactly the servos missing on the bus, without those of an unstarted effector, and those that answer with a lost signal or a hardware fault; a hot servo stays in use |
| ReadTriage.ToleratedIff | native/pi_control/src/pi_device_arm.cpp:396-545 | and succeeds exactly if a joint that is asked can still be commanded, a hot one included, or none is left to ask |
| ReadTriage.FirstFaultDecides | native/pi_control/src/pi_device_arm.cpp:396-526 | for a ready arm the first joint that reports a lost signal, an over-temperature or a hardware fault decides the code |
| ReadTriage.BusFailureDecides | native/pi_control/src/pi_device_arm.cpp:527-545 | without one, a bus failure that concerns a servo of the arm does |
| ReadyMove.MoveFinishes | native/pi_control/src/pi_device_arm.cpp:1358-1531 | a ready move ends within its budget plus confirmation, for every sequence of measurements, failures and stuck reports |
| ReadyMove.BoundIsAttained | native/pi_control/include/pi_device.hpp:797-812 | the bound is exact: for every move of joints in use there are measurements, a pose that oscillates until the budget is used up, with which it ends only with the last call the bound allows |
| ReadyMove.CallsCountDown | native/pi_control/include/pi_device.hpp:797-812 | the number of calls left decreases by at least one per call |
| ReadyMove.SweepJoints | native/pi_control/src/pi_device_arm.cpp:1376-1489 | the loop over the joints computes new joints, responsiveness, blocking, failed servos and the code of the last command, as specified joint by joint |
| ReadyMove.FailedMovesAre | native/pi_control/src/pi_device_arm.cpp:1470-1488 | the servos a sweep gives up on are those of the responsive joints whose command failed |
| StuckJoints.CountsStanding | native/pi_control/src/pi_joint.cpp:646-671 | over every run of calls a joint that takes part counts as stuck exactly if 201 calls in a row have found it short of home and not moved by 0.0001 rad since the call before |
| StuckJoints.CommandStepsHome | native/pi_control/src/pi_device_arm.cpp:1431-1457 | a command takes one step towards home or goes to it; it starts from the last command, or from the pose when home lies between the two |
| StuckJoints.BudgetIsAmple | native/pi_control/include/pi_device.hpp:797-804 | the budget is three times the fewest calls that cover the way of the farthest joint, and 30 more, but at least 1500 |
| HealthyMove.HealthyMoveArrives | native/pi_control/src/pi_device_arm.cpp:1491-1515 | a move whose measurements equal its commands ends by arrival confirmation, its budget not exhausted |
| HealthyMove.HealthyCommandsRunHome | native/pi_control/src/pi_device_arm.cpp:1431-1457 | its commands cover one step per call straight home, never cross home, are there after floor(distance / step) + 1 calls and stay |
| HealthyMove.HealthyMoveEndsInPlace | native/pi_control/src/pi_joint.cpp:646-671 | it ends with every joint in tolerance exactly when the step reaches the motion floor of the stuck check, or the way is short enough to be over before joints count as stuck |
| Witnesses.CrawlEndsShort | native/pi_control/src/pi_joint.cpp:646-671 | a healthy move with a step below the motion floor that ends with its joint out of tolerance |
| HealthyMove.HealthyState | native/pi_control/src/pi_device_arm.cpp:1358-1531 | the closed form of all joints and counters after k calls |
| HealthyMove.GapClosed | native/pi_control/src/pi_device_arm.cpp:1440-1457 | the distance to home after k steps |
| CommandedMove.CommandedMoveFinishes | native/pi_control/src/pi_device_arm.cpp:1680-1711 | a commanded move makes the arm ready for exactly its request within the larger of the arm's bound and, if it has an effector, the effector's bound plus one step, and the effector was ready before |
| CommandedMove.ReadyOnlyWithEffector | native/pi_control/src/pi_device_arm.cpp:1693-1711 | outside recovery, whatever happens, a commanded move makes the arm ready only with a ready effector |
| CommandedMove.RequestIsJustRequested | native/pi_control/src/pi_device_arm.cpp:28-34 | a request ends the readiness of arm and effector at once, so stale readiness cannot count |
| CommandedMove.BothCountDown | native/pi_control/src/pi_device_effector.cpp:981-1201 | while the arm is not ready, both devices count down from their own bounds |
| CommandedMove.CompletionRecordedIff | native/pi_control/src/pi_device.cpp:233-257 | in the step in which a commanded move makes the arm ready, the request is recorded as completed exactly when the arm had arrived before and only waited, or the last joint it moves accepts its command |
| Witnesses.CompletionCanBeLost | native/pi_control/src/pi_device.cpp:233-257 | a run in which the arm becomes ready, the request is not recorded, and a recovery is requested |
| EffectorLife.EffectorReadyIff | native/pi_control/src/pi_device_effector.cpp:981-1201 | from a request on, the effector is ready after a step exactly if it was ready and has no move to make, or the call of the step ended its move; the completion is recorded with the end of the move and with the id of the request |
| EffectorLife.MakesNoCall | native/pi_control/src/pi_device_effector.cpp:981-1201 | a step without a call commands nothing: a failed reading changes only what has been read, a skipped start-up rests where it is, a finished move returns to idle |
| JointStep.StepExactly | native/pi_control/src/pi_device.cpp:88-377 | one step seen from a joint, through reading, preparation, move, waiting or tracking, restore and hold: either no command, and the slew goes on or starts over from the pose; or one command, within reach of the place it starts from, and the slew goes on from it or starts over; in each case exactly when |
| JointStep.OperateClose | native/pi_control/src/pi_device_arm.cpp:1932-1955 | a slew command is within follow_vel_max * dt of where the slew is |
| JointStep.ReadyCommandClose | native/pi_control/src/pi_device_arm.cpp:1431-1457 | a ready command is within one step of the previous command or, exactly if the pose has crossed home, of the pose |
| NoJump.TurnNeverJumps | native/pi_control/src/pi_device_arm.cpp:1431-1473 | a joint that is measured in a turn is commanded at most once in it, within one ready step or one follow_vel_max * dt of its last command or of a pose measured since the step of that command began, and stays in this history |
| NoJump.TurnKeepsToHistoryIff | native/pi_control/src/pi_device.cpp:88-377 | for every joint, read or not: a command is within reach of where it starts; and from its history on the joint keeps to it exactly if the turn does not start its slew from a pose outside of it |
| NoJump.RunKeepsToHistoryIff | native/pi_control/src/pi_device.cpp:88-377 | over whole runs all commands of a joint start in its history exactly as long as no turn starts its slew from a pose outside of it |
| NoJump.InUseNeverJumps | native/pi_control/src/pi_device_arm.cpp:396-408 | over whole runs no command of a joint that is asked and answers jumps |
| NoJump.InUseIsMeasured | native/pi_control/src/pi_device_arm.cpp:396-408 | a servo in the failed set is not measured; a joint in use is, whenever the step goes on after the reading |
| NoJump.UnreadKeepsIff | native/pi_control/src/pi_device_arm.cpp:230-258 | a joint that is not read keeps to its last command exactly as long as no turn starts its slew over from its old pose, unless that pose is the last command |
| Jumps.HoldJumpsUnread | native/pi_control/src/pi_device_arm.cpp:396-408 | a run from start-up, with the readings that lead to it, in which a joint of the failed set is sent back to its pose of start-up by the tick after a hold |
| Jumps.RequestJumpsUnread | native/pi_control/src/pi_device.cpp:109-122 | the same after a move-to-ready request, with no restart after a command |
| StrictHistory.TurnIsStrictIff | native/pi_control/src/pi_device.cpp:88-377 | from the strict history, the command of a turn starts in it, and then is close to it, exactly unless it starts from a pose outside of it; and the joint is in its history afterwards exactly unless the slew was started over from such a pose, read or not |
| StrictHistory.TurnIsStrict | native/pi_control/src/pi_device_arm.cpp:1915-1955 | a joint that is measured in the turn is commanded within reach of its last command or of a pose measured after it |
| StrictHistory.StrictAfterCommandIff | native/pi_control/src/pi_device.cpp:233-275 | after a command a joint starts from its strict history exactly when no hold and no end of a start-up move restarted the slew in the same step, or it was measured right where it was commanded to be |
| StrictHistory.RunIsStrict | native/pi_control/src/pi_device.cpp:88-377 | over a run in which the joint is measured and not restarted after a command, every command is strictly close |
| StrictHistory.TracksStrictlyIff | native/pi_control/src/pi_device_arm.cpp:1932-1955 | right after a command, and for as long as the joint is not read, every possible next tick is strictly close exactly if the slew is still at that command |
| Jumps.HoldJumpsStrictly | native/pi_control/src/pi_device.cpp:50-56 | a run in which a hold after the command of the same step makes the next command too far from that command and from every pose measured after it |
| Jumps.SilenceJumpsStrictly | native/pi_control/src/pi_device.cpp:784-791 | the same for the hold when the client falls silent |
| Witnesses.StartupJumpsStrictly | native/pi_control/src/pi_device.cpp:245-250 | the same for the switch to normal mode at the end of a start-up move |
| Rest.CommandsStayAtRest | native/pi_control/src/pi_device_arm.cpp:230-258 | over a run, from a rebase on every command equals the pose of the latest rebase, until a target, a ready request or a recovery arrives or a protection overrides the target |
| Rest.CommandsStayPut | native/pi_control/src/pi_device_arm.cpp:230-258 | without a hold in between that is one and the same pose all the time |
| Rest.TickLeavesRestIff | native/pi_control/src/pi_device_arm.cpp:1915-1955 | a tick commands a resting joint to stay exactly when the protections leave its target alone |
| Jumps.ProtectionEndsRest | native/pi_control/src/pi_device_arm.cpp:1915-1955 | a run in which a protection commands an arm at rest away |
| Rest.HoldRests | native/pi_control/src/pi_device.cpp:50-56 | an accepted hold, also one that ends a gravity float, leaves every joint at rest at its pose, buffered target included |
| Rest.RestoreRests | native/pi_control/src/pi_device.cpp:258-275 | so does the restoring after a commanded move, and the tick of that same step |
| Rest.SkippedStartRests | native/pi_control/src/pi_device_arm.cpp:1307-1325 | so does a start-up that is told not to go home |
| Protection.TurnHeads | native/pi_control/src/pi_device_arm.cpp:1915-1955 | in normal operation every command of a turn lies between the last command and the place where the joint may go, within follow_vel_max times the time since the slew clock was set, all joints at the same share, and is that place once the time to go has elapsed |
| Protection.DueIsSafeGoal | native/pi_control/src/pi_safe_mode.cpp:156-185 | the place where a joint may go: with the protection of the limits on and the target outside, the point of [pos_min, pos_max] nearest to the target; otherwise the place it is held at when it fell behind, and else its target |
| Protection.OperateHeads | native/pi_control/src/pi_device_arm.cpp:1923-1955 | the same for one tick, which sets the slew clock |
| Commands.LastRequestCounts | native/pi_control/src/pi_topic.cpp:131-179 | of the move requests of a batch the last one counts, and arm and effector then wait for exactly its id; NothingRequested: without any, nothing is requested |
| Commands.LastWordCounts | native/pi_control/src/pi_topic.cpp:117-160 | of what a batch says about listening to the leader the last word counts, at a follower |
| Commands.LastFloatCounts | native/pi_control/src/pi_topic.cpp:180-206 | of the messages that start or end a gravity float the last one counts |
| Commands.FloatAborts | native/pi_control/src/pi_device_arm.cpp:1850-1880 | a floating arm is not commanded, and leaves the float exactly when it runs away, parked where it is |
| Commands.HoldAnswers | native/pi_control/src/pi_device.cpp:50-56 | a hold that is acknowledged with success has ended the float and parked every joint; any other answer leaves the targets alone |
| Commands.FloatAnswers | native/pi_control/src/pi_topic.cpp:180-193 | a follower answers the request for a gravity float with success exactly if it floats then, and otherwise nothing has happened; a leader passes on what its control mode answers |
| Commands.RecoveryRefuses | native/pi_control/src/pi_topic.cpp:88-105 | during recovery exactly the stop and the move that ends in a stop are accepted, and what is refused changes nothing |
| Commands.UptakeParks | native/pi_control/src/pi_device.cpp:109-157 | a request or a recovery is taken up by the next step: the arm is parked where it is, its move starts over, and the float ends exactly if position control can be entered |
| Commands.NormalAgain | native/pi_control/src/pi_device.cpp:240-275 | after a start-up and after a requested move normal operation is restored: idle, parked after a request, and the float of a follower ended |
| Commands.TopicStopsIff | native/pi_control/src/pi_device.cpp:258-275 | in every run a turn stops the topic exactly if it completes a recovery, carries out a stop, or finds a requested move over and a move that ends in a stop was asked for in some earlier turn |
| Commands.TurnListensIff | native/pi_control/src/pi_topic.cpp:117-160 | when the arm listens to the leader after a turn: no recovery has started, its client is not silent, and the last word was to listen, or it did before and nothing was said |
| Commands.RecoveryIsDeaf | native/pi_control/src/pi_device.cpp:702-759 | in every run a node in recovery does not listen to the leader |
| Streams.AimsIff | native/pi_control/src/pi_topic.cpp:275-308 | where the buffered target comes from: the direct stream if no requested move owns the follower, else the leader's stream if the arm listens to it, neither in recovery nor after a stop |
| Streams.SilentParks | native/pi_control/src/pi_device.cpp:766-791 | a follower whose client is silent is parked, listens no longer and floats no longer, whatever is streamed |
| Streams.RecoveryIgnoresStreams | native/pi_control/src/pi_topic.cpp:282-287 | during a recovery nothing that is streamed matters: every run is the same without it |
| Streams.PausedIgnoresLeader | native/pi_control/src/pi_topic.cpp:289-292 | a follower that does not listen is not influenced by its leader: until it is told to listen again every run is the same whatever the leader streams |
| Slew.TickTakesDt | native/pi_control/src/pi_device_arm.cpp:1932-1955 | a tick takes exactly dt off the time to go, down to zero |
| Slew.ArrivesExactlyOnTime | native/pi_control/src/pi_device_arm.cpp:1932-1955 | a fixed goal is commanded exactly if and only if the elapsed time has reached max |goal - prev| / follow_vel_max |
| Slew.SlewIsTimeOptimal | native/pi_control/src/pi_device_arm.cpp:1915-1921 | no command sequence that obeys the joint limits is ever closer in time |
| Slew.NobodyArrivesSooner | native/pi_control/src/pi_device_arm.cpp:1915-1921 | nor arrives sooner |
| Slew.RunStaysOnSegment | native/pi_control/src/pi_device_arm.cpp:1943-1955 | every command lies on the straight segment from start to goal, at the same share in all joints |
| Slew.TickWithinLimits | native/pi_control/src/pi_device_arm.cpp:1932-1955 | each joint moves at most follow_vel_max * dt, and between previous command and goal |
| Slew.NoFasterTick | native/pi_control/src/pi_device_arm.cpp:1915-1921 | no admissible tick takes more than dt off the time to go |
| Devices.ReadyMover.Advance | native/pi_control/src/pi_device_arm.cpp:1358-1531 | one call of a ready move on the fields: joints, counters and failed set as specified |
| Devices.ReadyMover.CommandAll | native/pi_control/src/pi_device_arm.cpp:1680-1691 | a loop that commands joint after joint and stops at the first failure |
| Devices.ReadyMover.RebaseTargets | native/pi_control/src/pi_device_arm.cpp:248-258 | every joint's target and last command become its measured pose |
| Devices.DeviceEffector.Step | native/pi_control/src/pi_device_effector.cpp:981-1201 | the effector's step on its fields |
| Devices.DeviceArm.SlewJoints | native/pi_control/src/pi_device_arm.cpp:1932-1955 | the two slew loops compute the synchronized tick towards the safe goals and command it; where these are, is DueIsSafeGoal |
| Devices.DeviceArm.MoveToReady | native/pi_control/src/pi_device_arm.cpp:1291-1720 | move_to_ready_position on the fields, with its early returns; when its move is over, is CallEndsMoveIff |
| Devices.DeviceArm.EnterEmergencyRecovery | native/pi_control/src/pi_device.cpp:702-759 | the state after entering recovery: set restarted, leader input paused, error announced; later calls only add silent servos |
| Devices.DeviceArm.MarkEmergencyRecoveryCompleted | native/pi_control/src/pi_device.cpp:793-833 | completion, announced once |
| Devices.DeviceArm.CheckEmergencyTimeout | native/pi_control/src/pi_device.cpp:861-892 | the heartbeat watchdog |
| Devices.DeviceArm.RequestMoveToReadyPosition | native/pi_control/include/pi_device.hpp:294-301 | a request reaches the arm and its effector |
| Devices.DeviceArm.ProcessMessage | native/pi_control/src/pi_topic.cpp:76-206 | what each command does and the code it is acknowledged with, and that recovery refuses all but the two stops |
| Devices.DeviceArm.StepBoth | native/pi_control/src/pi_device_arm.cpp:1154-1204 | the whole step of arm and effector, acting on the verdict and the poses of the arm's own reading |
| NodeLoop.ControlLoop.TurnOnce | native/pi_control/src/pi_control_node.cpp:239-371 | one turn of the main loop on the objects is a turn of the specified loop, which starts a recovery exactly as RecoveryStartsIff says |
| NodeLoop.ControlLoop.AnnounceReady | native/pi_control/src/pi_control_node.cpp:315-364 | the announcement window |
| ControlNode.ReadinessIsAnnouncedAtOnce | native/pi_control/src/pi_control_node.cpp:315-364 | every change to ready is announced in its own turn, with the completed request id |
| Announcements.TurnPublishes | native/pi_control/src/pi_device.cpp:186-231 | what a turn publishes, counted: progress of a recovery or of a ready move, with its cause, once if it gets to act and the last report is 200 ms old; its observation once if it gets to the commands, and none of a leader in recovery |
| Announcements.ReportsAreSpaced | native/pi_control/src/pi_device.cpp:188-201 | in every run two reports of a recovery's progress are 200 ms apart |
| Announcements.ReadinessIsAnnounced | native/pi_control/src/pi_control_node.cpp:315-364 | in every run a readiness is announced in its own turn and at regular turns, a tenth of a second apart, for one second |
| FenceProtocol.ReturnIsFenced | src/openpi_control/native.py:1112-1149 | move_to_ready returns normally only if, in this order, its id was taken, the node received the request, began, ended and announced the move for it, the client took a READY with this id and then a state sample, over channels that lose, duplicate, delay and reorder |
| FenceProtocol.StepKeepsInv | src/openpi_control/native.py:784-856 | the invariant of client and node that every action keeps |
| FenceReadiness.ReturnsIff | src/openpi_control/native.py:1112-1149 | a call that waits may return exactly when its own READY has arrived after its move and a state sample after that |
| FenceReadiness.ReadyIff | src/openpi_control/native.py:844-856 | in every session the client is ready exactly if a READY found no request pending, or a state sample followed the READY a request waited for, and no call has begun since |
| FenceReadiness.WaitsOnlyIfAccepted | src/openpi_control/native.py:935-965 | no call waits for readiness unless its own request has been acknowledged with success |
| RequestServed.RequestIsServed | src/openpi_control/native.py:1112-1149 | for every unused node, with any arm, effector and measurements: if the hardware answers and the messages arrive, the call returns after at most the turns the arm and its effector need |
| RequestServed.RequestIsHeard | native/pi_control/src/pi_topic.cpp:171-179 | a request that arrives at an arm between moves is there for the next turn, with the effector on its move at once |
| RequestServed.ReturnIsReachable | src/openpi_control/native.py:1112-1149 | hence every unused node has a session in which the call returns |
| RequestServed.CopyStartsOver | native/pi_control/include/pi_device.hpp:294-301 | a copy of a request, however old, starts the move over |
| RequestServed.ReturnedButMoving | native/pi_control/include/pi_device.hpp:294-301 | there is a session in which the call has returned and its own request is moving the arm |
| ReadyRequests.TurnKeeps | native/pi_control/src/pi_device.cpp:109-122 | a turn keeps the agreement between the command of the arm and the history of its request, and mentions a request first only when its message is dispatched |
| ReadyRequests.ReadyIsEarned | native/pi_control/src/pi_control_node.cpp:336-349 | a READY that carries an id is preceded by reception, begin and end of that request's move |
| ReadyRequests.AcknowledgedIffReceived | native/pi_control/src/pi_topic.cpp:95-179 | a request is acknowledged with success exactly if it was received; a refused command leaves the arm as it was, except that a refused hold may have ended a gravity float |
| Fence.NativeClient.BeginMoveToReady | src/openpi_control/native.py:1112-1120 | a fresh id clears readiness and fence |
| Fence.NativeClient.ConsumeReadyStatus | src/openpi_control/native.py:846-856 | a READY counts for a pending request only with its id, and then only arms the fence |
| Fence.NativeClient.ConsumeStateSample | src/openpi_control/native.py:784-793 | a sample after the fence completes the request |
| Fence.NativeClient.FinishLifecycle | src/openpi_control/native.py:943-965 | the acknowledgement code decides between waiting and giving up |
| Teleop.DisengageIsFinal | src/openpi_control/teleop.py:376-381 | once disengage has returned the pair is not engaged until an engage with a larger generation is admitted, in every interleaving |
| Teleop.QuiescentIsSafe | src/openpi_control/teleop.py:311-374 | in every quiescent state that owes no rollback each arm still on its admitted connection was last sent its safe command; the hold is undone exactly by an alignment command that was sent although its call raised |
| TeleopWitness.StrayCommandIsReachable | src/openpi_control/teleop.py:168-170 | a run that ends in that exception |
| Teleop.EngagedOwesRollback | src/openpi_control/teleop.py:240-255 | engaged implies that a rollback is owed |
| Teleop.BlockedStaysDisengaged | src/openpi_control/teleop.py:274-285 | while a returned block is in force nothing engages the pair |
| Teleop.BlockedThenDisengaged | src/openpi_control/teleop.py:274-285 | a pair blocked and then disengaged stays disengaged until the next allow |
| Teleop.ReachableInv | src/openpi_control/teleop.py:89-374 | the inductive invariant behind these, over any number of engage and disengage threads and connection losses |
| TeleopWitness.EngagedIsReachable | src/openpi_control/teleop.py:184-255 | there is a run in which the pair becomes engaged; what this means for the arms is stated next |
| TeleopModes.EngagedIsLive | src/openpi_control/teleop.py:184-196 | in every reachable state with the pair engaged, an arm still on its admitted connection was last sent its engaged mode: the leader bilateral, the follower resumed and not held |
| TeleopModes.EngagesAdmittedArms | src/openpi_control/teleop.py:184-255 | an engage makes the leader bilateral and resumes the follower only on the connections of its admission, and marks the pair engaged only while both are up |
| TeleopModes.AdmissionOrCancel | src/openpi_control/teleop.py:198-221 | a new generation is an admission: gate open, both arms connected, nobody admitted; it starts uncancelled and owes a rollback; a cancellation stays in force until the next one |
| TeleopModes.CallsAreChecked | src/openpi_control/teleop.py:89-196 | every call of an alignment and of the enabling comes right after a check that both arms are on their admitted connections, that check after one for cancellation, and a position command right after the comparison of states |
| TeleopModes.RollbackSparesNewConnections | src/openpi_control/teleop.py:336-373 | a rollback commands no arm that has been connected anew |
| TeleopModes.AlignmentIsQuiet | src/openpi_control/teleop.py:89-104 | while a pair is aligned the follower does not listen to the leader, and from the validation on the leader floats |
| Engagement.TeleopPair.BeginEngage | src/openpi_control/teleop.py:198-221 | who is admitted and what admission changes |
| Engagement.TeleopPair.BeginRollback | src/openpi_control/teleop.py:320-334 | a rollback acts once, and only on the generation it was meant for |
| Engagement.TeleopPair.BlockEngagement | src/openpi_control/teleop.py:274-281 | the gate shuts and a running alignment is cancelled |
| Connection.SameConnectionThroughout | src/openpi_control/arms.py:98-112 | a captured generation that is still current proves one uninterrupted connection |
| Connection.ConnectedIff | src/openpi_control/arms.py:71-100 | an arm is connected exactly if it has been connected successfully and neither closed nor lost since |
| Connection.GenerationRetires | src/openpi_control/arms.py:71-100 | a new generation begins exactly with a new connection and with a close, and what was captured before is never current again |
| Connection.ArmLink.Connect | src/openpi_control/arms.py:71-87 | connecting: generation, capabilities, and clean-up of a failed attempt |
| Connection.ArmLink.Close | src/openpi_control/arms.py:92-100 | closing retires the connection whether or not the backend raises |
| SessionSafety.ClosingFindsPairsDisengaged | src/openpi_control/session.py:140-159 | a pair before which no pair raises when it is disengaged is, from the first arm a session closes on, not engaged and does not become engaged while its gate stays shut |
| SessionSafety.EngagedPairIsClosed | src/openpi_control/session.py:140-159 | there is such a history: a session with one engaged pair closes |
| Session.ArmSession.Close | src/openpi_control/session.py:140-159 | the operations of close in order, and the error that resurfaces |
| Session.EveryArmIsClosed | src/openpi_control/session.py:153-157 | every arm gets exactly one close attempt, whichever operations raise |
| Session.CloseKeepsOrder | src/openpi_control/session.py:140-157 | all blocks, then the disengages, then the closes |
| Session.EveryPairIsDisengagedIff | src/openpi_control/session.py:136-138 | every pair is disengaged exactly when none before the last raises |
| Session.ArmSession.Connect | src/openpi_control/session.py:110-134 | the operations of connect, and the connected arms afterwards |
| Session.ConnectIsAllOrNothing | src/openpi_control/session.py:110-134 | engagement is allowed only after every arm is connected and the new ones prepared; otherwise exactly the arms opened by the call are closed |
| Session.ConnectStopsAtError | src/openpi_control/session.py:110-134 | connecting stops at the first operation that raises; the arms closed then are those whose connecting did not raise, also when their preparing did |
| Alignment.Align | src/openpi_control/teleop.py:105-175 | the loop answers ALIGNED exactly if the turn it ends with is not cancelled, lies between the two durations, has fresh matching states and a leader that has not jumped, and every joint and the effector are within their alignment errors; every other answer has its reason, no turn that sent a command had any, and the commands are the steered ones |
| Alignment.CommandsApproachLeader | src/openpi_control/teleop.py:156-167 | each command is closer to the leader by one step of the speed limit, in every joint and in the effector, or at it, and moves no farther than that |
| Alignment.TravelByTime | src/openpi_control/teleop.py:98-175 | by time t a joint has been commanded at most max_joint_velocity * (t - started) plus one step, even when turns run late |
| Alignment.CommandsKeepTheirTime | src/openpi_control/teleop.py:172-175 | command k is not sent before started + k periods |
| Alignment.AlignmentEnds | src/openpi_control/teleop.py:108-114 | the loop does not outlast its maximum duration |
| Alignment.CommandsStayInHull | src/openpi_control/teleop.py:156-160 | commands stay between the start and the leader's samples |
| Alignment.EffectorStaysNormalized | src/openpi_control/types.py:184-191 | effector commands stay in [0, 1], so every command can be constructed |
| Ports.HashTopic | src/openpi_control/protocol.py:83-88 | the hash loop computes 32-bit FNV-1a |
| Ports.ComputeProbeStep | src/openpi_control/protocol.py:91-97 | the step loop computes a step coprime to 1000 |
| Ports.CandidatesDiffer | src/openpi_control/protocol.py:100-103 | probes of one topic less than 1000 apart are different ports |
| Ports.ProbeSequenceIsPermutation | src/openpi_control/protocol.py:100-103 | for every topic the first n <= 1000 ports are distinct and in the window, and 1000 of them are the window |
| Ports.Bind | src/openpi_control/native.py:159-165 | the first port that can be bound, or none |
| Ports.PublisherFindsPort | src/openpi_control/native.py:159-191 | with at most 15 ports taken a bind succeeds on a port every subscriber probes |
| Ports.NativeAgreesUnlessItWraps | native/pi_control/src/pi_topic_zmq.cpp:709-729 | the native candidate equals the client's exactly when first + index * step fits a 32-bit word |
| Ports.NativeRepeatsIff | native/pi_control/src/pi_topic_zmq.cpp:709-729 | two native probes are the same port exactly when the sum wraps between them, they are eight apart and eight steps are 296 modulo 1000 |
| Ports.NativeWindowMayRepeat | native/pi_control/src/pi_topic_zmq.cpp:709-729 | for the state topic of the arm left in the session jsumoh the native window holds a port twice and differs from the client's |
| Gripper.CommandThenRead | native/pi_control/src/pi_device_effector.cpp:620-791 | command and read contract the travel toward the minimum end by exactly the margin's share, for both polarities |
| Gripper.RoundTripIsIdentity | native/pi_control/src/pi_device_effector.cpp:620-791 | the round trip is the identity on [0, 1] exactly when no margin is in force |
| Gripper.MarginInForce | native/pi_control/src/pi_device_effector.cpp:682-791 | the margin in force is the configured one, unless it is negative or a normalized range replaces the limits; it is dropped exactly if it would use up the travel |
| Gripper.NoReading | native/pi_control/src/pi_device_effector.cpp:620-791 | a gripper that cannot be read or has no travel reads as zero, whatever its polarity |
| Gripper.CommandStaysInRange | native/pi_control/src/pi_device_effector.cpp:682-791 | every finite command lands inside the calibrated range |
| Gripper.RawRoundTrip | native/pi_control/include/pi_robotiq.hpp:52-63 | register values between the stops survive the trip through a position; others are clamped |
| Gripper.PositionRoundTrip | native/pi_control/include/pi_robotiq.hpp:52-63 | a position survives the trip through a register up to half a register step |

## Left out

- SEQUENTIAL ready moves and read-only arms: they do not complete a recovery; the device model is the PARALLEL, driven arm.
- Floating-point rounding and NaN: positions, velocities and slew times are real numbers.
- Calibration gravity float of CAN arms: the arm-specific control mode does not clear the float flag; the model is the base arm.
- Leader control: the torque loop of a leader contributes only its return code, and the no-jump theorem is about follower arms.
- Operation of a ready effector: it contributes only its return code, and the grip-torque clamp on its ready commands is not modelled.
- Diagnostics: the joint that is named when a recovery starts is an arbitrary input, including the probing of effector servos; warnings and logs are omitted.
- SafeMode: whether a servo is outside its limits, lags or has stalled is an input; what these protections do to the target is modelled.
- Drivers, sockets, subprocesses, Pinocchio, Trossen, libfranka and Modbus calls: foreign calls become arbitrary return codes.
- Command-line, JSON and URDF handling, current estimation and trajectory planning: plumbing.
- NodeLoop.ControlLoop.AnnounceReady: publishing READY_NOW is taken to succeed; when it fails the main loop breaks, which would only end the run.
- The periodic handshake and servo-parameter reports of the main loop.
- Client heartbeats: the silence of a client is an input of the step; the tripped flag that makes the watchdog fire once per silence is not kept.
- `set_force_feedback_gain`: its unguarded rollback carries no generation and is not among the threads of the engagement protocol.
- Acknowledgements of other client commands: they share the id counter and the lifecycle lock in the model, but their own waiting is not modelled. Reconnecting during a request appears only as the failure it causes.
- Session.ArmSession.Connect: starts after the stale pairs have been retired.
- Teleop.DisengageIsFinal: like the other theorems on teleoperation it speaks of one pair; pairs share no arm.
- RecoveryEnds.EveryRecoveryEnds: assumes that no STOP and no move-to-ready-and-stop arrives, since the operator's stop overrides a recovery.
- CommandedMove.CommandedMoveFinishes: assumes successful reads, writes, commands and feed-forward, since any failure starts a recovery instead, and no further messages. `RequestServed.RequestIsServed` inherits this.
- Devices.DeviceArm.ProcessMessage: the parameter checks of a command message, which reject it before it has any effect, and the commands that only set parameters are one message with an arbitrary result.
- NoJump.TurnNeverJumps: for a joint that is measured in the turn; what happens to the others is `NoJump.RunKeepsToHistoryIff`. Position commands of the ready move, of the wait for the effector and of the slew; start-up before the main loop is not modelled.
- StrictHistory.TracksStrictlyIff: the exactness in terms of the commands themselves is for ticks of the slew; the theorems on histories say where a command starts and bound its distance from there.
- FenceProtocol.ReturnIsFenced: safety only, over channels that may lose everything; `RequestServed.RequestIsServed` is the liveness when they do not.
- The timeout and the retransmission interval of the client's call: a call may fail at any moment, and sends as often as it likes.
