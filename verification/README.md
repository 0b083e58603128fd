# Skye teleoperation and policy control: a verified model

This project models how a Skye dual-arm robot decides which joint command reaches which arm, and proves what the
decisions guarantee. It covers

- the driver's per-arm command pipeline: two competing command streams (relative teleoperation and absolute poses), the
  2π unwrap, sign and order mapping, leash, soft compression, offset resync, hard clamp, clutch, slew limit, and the
  state that is carried from frame to frame;
- the driver core around the vendor SDK: linked, ready and mode, and every SDK call that each operation makes;
- the driver node, which shares one core between two arms and serves set_mode, hold, stop and emergency stop;
- the arbiter that hands the arms from a policy to a human and back: mode machine, two-phase handshake, chunk player,
  freshness and continuity of policy chunks, and what is published when;
- the policy-side inverses of the driver's two maps, proved against the model of the driver itself;
- two wire formats: Modbus RTU (MODBUS over Serial Line V1.02 sections 2.5.1.2 and 6.2.2, MODBUS Application Protocol
  V1.1b3 section 6.3) and the DM4310 MIT motor frames.

Code that updates state step by step is modelled by classes and loops over arrays (`JointLoops`, `DriverCore`, `Arm`,
`Node`, `ControlArbiterLogic`, `TeleopHandshake`, `ControlArbiter`, `Player`, `Session`, the codec methods). Each method
is proved equal to a step function on values, and the theorems are proved of the step functions, over single steps, over
all sequences of events, or over all sessions.

| files | contents |
|---|---|
| `Prelude` | options, possibly non-finite inputs, poses, joint orders |
| `JointMath`, `JointLoops`, `JointFacts` | the joint-array functions: specification, loops, properties |
| `ArmModel`, `ArmSession` | one arm's session: steps, and the object that performs them |
| `ArmRuns`, `ArmTheorems`, `StreamTheorems` | every run of an arm: safety, unwrap, clutch, how streams proceed and end |
| `ResyncTheorems`, `AssistReversal`, `AssistedCommand`, `AssistShape`, `ResumeTheorems` | the assist: convergence, what is sent, and its parts |
| `Controller`, `CoreTheorems` | the SDK core, what it sends, and the silence after a stop |
| `DriverNode`, `NodeTheorems`, `HoldTheorems` | two arms, one core, the services and the timeouts |
| `PolicyAbs`, `PolicyRelative`, `Lockstep` | inverses of the driver's maps |
| `ControlMode`, `TeleopSync`, `ChunkPlayer`, `ChunkContinuity` | the arbiter's parts |
| `Arbiter`, `ArbiterNode` | the arbiter's steps and the object that performs them |
| `ArbiterRuns`, `HandshakeTheorems`, `ArbiterTheorems`, `ArbiterOutputs` | every run of the arbiter |
| `ModbusRtu`, `DmMit` | wire formats |

Five statements differ from what one would expect of the code, and are proved in their exact form:

- A `hold_current` request does not always lie between an absolute command and a later relative one: the arbiter goes on
  when the service cannot be reached. `HandshakeTheorems.HoldCanBeSkipped` gives such a run for every usable
  configuration; `ArbiterRuns.HoldBetweenOutputs` says exactly when a request is made.
- Not every stream that stops is held by the timeout: a non-finite frame ends its stream, and later checks find nothing to
  hold. `StreamTheorems.PoisonedArmIsNotHeld` proves it; `StreamTheorems.StaleStreamIsHeld` says what does hold.
- Soft compression keeps the order of targets only if the zones of the two limits do not overlap; otherwise a target that
  moves on past the upper zone's edge is commanded back (`AssistShape.CompressMonotoneIff`).
- The scan in `sample` agrees with the closed form exactly when dt is at least 1e-12; below that the tolerance at the
  chunk's end is wider than a step (`ChunkPlayer.ScanIsClosedForm`).
- The unwrap is exact for every motion below half a turn, and for exactly half a turn only when the readings already
  differ by the motion (`JointFacts.UnwrapExact`).

## Model

| member | source | states |
|---|---|---|
| JointLoops.ClampInto | skye_ros2_ws/src/skye_robot_driver/src/driver_core.cpp:75-87 | the loop computes the clamp of every joint, which lies in the limits |
| JointLoops.ApplyJointMapping | skye_ros2_ws/src/skye_robot_driver/src/driver_core.cpp:89-99 | output i is sign times the leader joint named by the order, plus offset |
| JointLoops.ApplyRelativeMapping | skye_ros2_ws/src/skye_robot_driver/src/driver_core.cpp:101-126 | the in-place loop advances the continuous angles output by output and maps relative to both references |
| JointLoops.ApplySoftCompress | skye_ros2_ws/src/skye_robot_driver/src/driver_core.cpp:139-162 | the loop compresses each joint near its own limits |
| JointLoops.ApplyBoundedLeash | skye_ros2_ws/src/skye_robot_driver/src/driver_core.cpp:164-205 | the in-place loop leashes target and reference of every joint, reading offsets before it moves them |
| JointLoops.ApplyOffsetResync | skye_ros2_ws/src/skye_robot_driver/src/driver_core.cpp:207-243 | the in-place loop adds each joint's admitted step to its reference |
| JointLoops.ClutchSaturatedJoints | skye_ros2_ws/src/skye_robot_driver/src/driver_core.cpp:245-260 | exactly the clamped outputs re-anchor: follower at the clamped value, leader at its continuous angle |
| JointLoops.ApplyLimitDelta | skye_ros2_ws/src/skye_robot_driver/src/driver_core.cpp:272-287 | every joint moves toward the command by at most the limit |
| JointFacts.UnwrapExact | skye_ros2_ws/src/skye_robot_driver/src/driver_core.cpp:101-126 | exactly when the corrected difference of two reduced readings is the physical motion |
| JointFacts.ContinuousClosedForm | skye_ros2_ws/src/skye_robot_driver/src/driver_core.cpp:101-126 | with a permutation each continuous angle advances by its own corrected motion, once |
| JointFacts.RelativeClosedForm | skye_ros2_ws/src/skye_robot_driver/src/driver_core.cpp:101-126 | each output follows its leader joint's total travel since its leader reference |
| AssistShape.FlatSaturatingCurvesExist | skye_ros2_ws/src/skye_robot_driver/src/driver_core.cpp:139-162 | the two further requirements on the curve are satisfiable: flatter than the identity, saturating at one |
| JointFacts.SigmoidsExist | skye_ros2_ws/src/skye_robot_driver/src/driver_core.cpp:139-162 | what is assumed of tanh is satisfiable: x/(1+abs x) is odd, increasing, bounded by 1 and 1-Lipschitz |
| JointFacts.CompressMovesLittle | skye_ros2_ws/src/skye_robot_driver/src/driver_core.cpp:139-162 | compression is the identity outside the soft zones and moves less than a zone's width inside them |
| JointFacts.CompressStaysInside | skye_ros2_ws/src/skye_robot_driver/src/driver_core.cpp:139-162 | every target lands inside the limits if and only if the zone fits between them |
| JointFacts.LeashBoundsOffset | skye_ros2_ws/src/skye_robot_driver/src/driver_core.cpp:164-205 | the leash ends in its interval, moves target and reference together, and never exceeds the larger of cap and previous deviation |
| JointFacts.ResyncApproaches | skye_ros2_ws/src/skye_robot_driver/src/driver_core.cpp:207-243 | an admitted step cuts the distance to calibration by min(distance, rate), never crosses it, and never raises compression beyond the slack |
| JointFacts.ClampAfterSlewIsIdentity | skye_ros2_ws/src/skye_robot_driver/src/driver_node.cpp:914-916 | between poses in the limits the clamp after the slew limit changes nothing and keeps the slew bound |
| ArmSession.Arm.HandleCommand | skye_ros2_ws/src/skye_robot_driver/src/driver_node.cpp:691-937 | the relative handler performs the arm's relative step and makes exactly the SDK calls of its target |
| ArmSession.Arm.HandleAbsoluteCommand | skye_ros2_ws/src/skye_robot_driver/src/driver_node.cpp:939-1029 | the absolute handler performs the arm's absolute step and makes exactly the SDK calls of its target |
| ArmSession.Arm.CheckTimeout | skye_ros2_ws/src/skye_robot_driver/src/driver_node.cpp:1031-1077 | one path's timeout check: ends its session and holds the arm unless the other path is active |
| ArmRuns.OneOwner | skye_ros2_ws/src/skye_robot_driver/src/driver_node.cpp:926-936 | in every reachable state at most one path streams, and a streaming path has its references and last command |
| ArmRuns.TimeoutAlwaysHolds | skye_ros2_ws/src/skye_robot_driver/src/driver_node.cpp:1043-1056 | the branch for an active other path is unreachable: a timeout that fires always requests a hold |
| StreamTheorems.CheckHoldsIff | skye_ros2_ws/src/skye_robot_driver/src/driver_node.cpp:1031-1077 | a check holds its arm if and only if the path streams and its latest sent command is older than the timeout; every other check changes nothing |
| StreamTheorems.TargetIff | skye_ros2_ws/src/skye_robot_driver/src/driver_node.cpp:694-792 | exactly which messages lead to a target, and a relative one changes nothing while the absolute path's latest sent command is no older than the timeout |
| StreamTheorems.CycleTimeIsElapsed | skye_ros2_ws/src/skye_robot_driver/src/driver_node.cpp:811-816 | a session's cycle time is the time since its latest sent command, kept between 0.1 and 50 ms |
| ArmRuns.TargetsAreSafe | skye_ros2_ws/src/skye_robot_driver/src/driver_node.cpp:914-927 | every target is in the limits and within the slew limit of the last one sent on its path, the first of a session of the clamped measured pose |
| StreamTheorems.StreamEndsIff | skye_ros2_ws/src/skye_robot_driver/src/driver_node.cpp:599-641 | exactly how a stream ends: held by its timeout, superseded by the other path or a service, or poisoned by a non-finite frame |
| StreamTheorems.StaleStreamIsHeld | skye_ros2_ws/src/skye_robot_driver/src/driver_node.cpp:1031-1077 | the watchdog over runs: once a check finds the latest sent command too old the arm has been held, unless its stream ended in one of the other two ways |
| StreamTheorems.PoisonedArmIsNotHeld | skye_ros2_ws/src/skye_robot_driver/src/driver_node.cpp:785-793 | a non-finite frame ends its stream without a hold, and no check holds the arm until a later command is taken |
| StreamTheorems.AbsoluteCommandArrives | skye_ros2_ws/src/skye_robot_driver/src/driver_node.cpp:1000-1021 | n frames asking for one pose leave max(0, d - n max_delta_per_cycle) of every joint's distance to it, from the last command or the clamped measured pose |
| ArmRuns.EveryInputRuns | skye_ros2_ws/src/skye_robot_driver/src/driver_node.cpp:691-1091 | every sequence of events has a run: no event ever finds an arm in a state that its handler cannot work on |
| ArmTheorems.AssistNeverSaturates | skye_ros2_ws/src/skye_robot_driver/src/driver_node.cpp:840-912 | with the assist on the shaped command is already in the limits, so the hard clamp is the identity and the clutch leaves all references alone |
| ArmTheorems.AssistKeepsOffset | skye_ros2_ws/src/skye_robot_driver/src/driver_node.cpp:840-912 | over any assisted session each joint's effective offset stays within the larger of the cap and its deviation at the start |
| JointFacts.OffsetIsDistance | skye_ros2_ws/src/skye_robot_driver/src/driver_core.cpp:128-137 | what an offset means: whatever the leader angle, its difference to calibration is that between the relative and the absolute map |
| ArmTheorems.DeviationIsDistance | skye_ros2_ws/src/skye_robot_driver/src/driver_core.cpp:128-137 | a deviation is the distance between the session's pose and the driver's own absolute map of the continuous leader pose |
| ArmTheorems.PoseStaysNearAbsoluteMap | skye_ros2_ws/src/skye_robot_driver/src/driver_node.cpp:840-912 | over any assisted session that distance stays within the larger of the cap and what it was at the start |
| AssistedCommand.TargetFollowsLeader | skye_ros2_ws/src/skye_robot_driver/src/driver_node.cpp:875-929 | in every tracked frame of every assisted session, blocked or not, the target is the leader's pose on the session's references, compressed and slewed from the last command |
| AssistedCommand.TargetNearLeader | skye_ros2_ws/src/skye_robot_driver/src/driver_node.cpp:875-929 | an unslewed target is within a zone's width of that pose, and exactly it on joints a zone inside their limits |
| AssistedCommand.PoseFollowsMotion | skye_ros2_ws/src/skye_robot_driver/src/driver_node.cpp:777-880 | the pose moves by sign times the leader's motion and at most one nudge in every frame the leash leaves alone |
| AssistedCommand.AbsoluteMappingIsSent | skye_ros2_ws/src/skye_robot_driver/src/driver_node.cpp:782-784 | with the absolute mapping on this path the target is the absolute map of the leader, clamped and slewed |
| AssistShape.CompressGrows | skye_ros2_ws/src/skye_robot_driver/src/driver_core.cpp:139-162 | with room for both zones compression is continuous and strictly increasing, and never amplifies a motion |
| AssistShape.CompressMonotoneIff | skye_ros2_ws/src/skye_robot_driver/src/driver_core.cpp:139-162 | for a curve flatter than the identity, as tanh is: it never reverses a motion if and only if the two zones do not overlap |
| AssistShape.CompressReachesLimit | skye_ros2_ws/src/skye_robot_driver/src/driver_core.cpp:139-162 | for a curve that saturates at one, as tanh does: every target below the limit is passed by pushing far enough |
| AssistShape.CompressIsSymmetric | skye_ros2_ws/src/skye_robot_driver/src/driver_core.cpp:139-162 | both limits are treated alike |
| AssistShape.StepsLeaveTheZones | skye_ros2_ws/src/skye_robot_driver/src/driver_core.cpp:207-243 | no resync step takes a pose further from the range between the zones, up to 1e-12 |
| AssistShape.BlockedIff | skye_ros2_ws/src/skye_robot_driver/src/driver_node.cpp:818-838 | blocked exactly when some measured joint is off the last command by more than the threshold |
| AssistShape.StillnessAdvances | skye_ros2_ws/src/skye_robot_driver/src/driver_node.cpp:848-856 | the time at rest advances only in frames where the assist acts |
| AssistShape.StillnessIff | skye_ros2_ws/src/skye_robot_driver/src/driver_node.cpp:848-856 | and counts exactly the frames in which every leader joint moves less than the threshold |
| AssistShape.IdleRamp | skye_ros2_ws/src/skye_robot_driver/src/driver_node.cpp:857-860 | the idle rate sets in after the configured time at rest and is full 0.3 s later |
| AssistShape.RateIsShareOfMotion | skye_ros2_ws/src/skye_robot_driver/src/driver_node.cpp:862-870 | a rate limit is a share of the leader joint's own motion up to the configured speed, plus the idle rate for the frame's time |
| AssistShape.FrameRateIsCapped | skye_ros2_ws/src/skye_robot_driver/src/driver_node.cpp:862-870 | whatever the leader does, at most the two configured speeds times the cycle time |
| ArmTheorems.UnwrapTracksMotion | skye_ros2_ws/src/skye_robot_driver/src/driver_core.cpp:101-126 | over any session with less than half a turn per frame the continuous angle moves as the physical joint does and differs from the report by full turns |
| ArmTheorems.ClutchReanchors | skye_ros2_ws/src/skye_robot_driver/src/driver_node.cpp:889-912 | assist off: after a frame the same leader pose maps exactly to the clamped command |
| ArmTheorems.ClutchKeepsLimits | skye_ros2_ws/src/skye_robot_driver/src/driver_node.cpp:889-912 | assist off: whenever the path streams, its last leader pose maps inside the limits, however far the leader was pushed |
| ArmTheorems.ReversalMovesAtOnce | skye_ros2_ws/src/skye_robot_driver/src/driver_core.cpp:245-260 | assist off: the command before the slew limit is the clamp of an in-limits pose plus sign times the motion, so a reversal leaves the limit at once |
| ArmTheorems.ReversalIsSent | skye_ros2_ws/src/skye_robot_driver/src/driver_node.cpp:889-916 | assist off: the target sent is that command after the slew limit, and equals it exactly when it is within the slew limit of the last command |
| ArmTheorems.ReversalIsSentInFull | skye_ros2_ws/src/skye_robot_driver/src/driver_node.cpp:889-916 | assist off: once the last command has caught up, a motion of at most the slew limit is sent in full, clamped to the limits |
| ResyncTheorems.FrameDeviation | skye_ros2_ws/src/skye_robot_driver/src/driver_node.cpp:840-880 | every assisted frame cuts the deviation that the leash leaves by its own nudge, rate limit and admission test included, down to zero and never past it |
| ResyncTheorems.ResyncConverges | skye_ros2_ws/src/skye_robot_driver/src/driver_node.cpp:848-873 | over any session whose leash leaves a joint alone, the deviation left is max(0, start - sum of the frames' nudges), whatever the leader does |
| ResyncTheorems.ConvergesToAbsoluteMap | skye_ros2_ws/src/skye_robot_driver/src/driver_node.cpp:848-873 | the pose ends as far from the driver's absolute map as the nudges leave of the distance at the start, and on it once they make up for it |
| ResyncTheorems.ResyncConvergesFrom | skye_ros2_ws/src/skye_robot_driver/src/driver_node.cpp:848-873 | the same from any point after the opening on, whatever happened before it; only the frames since then count |
| ResyncTheorems.ResyncConvergesAtRate | skye_ros2_ws/src/skye_robot_driver/src/driver_core.cpp:207-243 | n frames that each nudge at rate r, counted from any point of a session after its opening, leave max(0, distance - n r) |
| ResyncTheorems.MotionlessNudge | skye_ros2_ws/src/skye_robot_driver/src/driver_node.cpp:848-873 | without motion and without an idle rate the resync takes no step, in any state: what is left is what the leash made |
| ResyncTheorems.MotionlessFrameIsNotNudged | skye_ros2_ws/src/skye_robot_driver/src/driver_node.cpp:840-880 | in every state of a session, a motionless frame without an idle rate moves a follower reference only where the leash does |
| ResumeTheorems.ResumeReseeds | skye_ros2_ws/src/skye_robot_driver/src/driver_node.cpp:746-776 | from an absolute stream on, the first relative frame that is tracked opens a new session |
| ResumeTheorems.ResumeIsBumplessUnassisted | skye_ros2_ws/src/skye_robot_driver/src/driver_node.cpp:746-776 | assist off: the first target of a session is the clamped measured pose |
| ResumeTheorems.ResumeIsBumplessAssisted | skye_ros2_ws/src/skye_robot_driver/src/driver_node.cpp:840-880 | assist on: the first target is within a zone's width plus one idle nudge of the measured pose, and equals it on joints a zone inside their limits when this frame has no idle rate |
| ResumeTheorems.OpeningNudges | skye_ros2_ws/src/skye_robot_driver/src/driver_node.cpp:848-873 | assist on: exactly when the first frame moves a follower reference off the measured pose: not blocked, an idle rate from stillness carried over, off calibration, and admitted |
| ResumeTheorems.OpeningContributes | skye_ros2_ws/src/skye_robot_driver/src/driver_node.cpp:848-873 | the opening frame is never leashed and nudges at its idle rate if at all: by 0 when no idle rate is configured or stillness starts at zero |
| ResumeTheorems.SessionConvergesAtRate | skye_ros2_ws/src/skye_robot_driver/src/driver_node.cpp:848-873 | a whole session without an idle rate at its opening: n frames after the opening one, each at rate r, leave max(0, d - n r) of the deviation at its start |
| AssistReversal.LeashCaps | skye_ros2_ws/src/skye_robot_driver/src/driver_core.cpp:164-205 | exactly when the leash leaves a reference alone although the target is outside; otherwise it moves both into its interval |
| AssistReversal.LeashKeepsNearLimits | skye_ros2_ws/src/skye_robot_driver/src/driver_node.cpp:840-887 | assist on: after a frame its leader pose maps to within the leash slack and one nudge of the limits, unless the offset is at its cap or the assist is blocked, where it stays at the mapped command |
| AssistReversal.AssistedReversal | skye_ros2_ws/src/skye_robot_driver/src/driver_node.cpp:777-887 | assist on: however far the leader was pushed, the next frame maps back inside a limit after undoing the leash slack and one nudge |
| Controller.DriverCore.EnterModeUnlocked | skye_ros2_ws/src/skye_robot_driver/src/driver_core.cpp:316-415 | both arms are parked, then switched in order up to the first refusal; mode and readiness change only on success |
| Controller.DriverCore.ConfigureAndEnable | skye_ros2_ws/src/skye_robot_driver/src/driver_core.cpp:464-510 | checks ratios, cycle time and link, sets the cycle time, enters the mode with one retry, then disconnects |
| Controller.DriverCore.HoldCurrent | skye_ros2_ws/src/skye_robot_driver/src/driver_core.cpp:613-629 | a hold re-enters the mode when not ready, tries both arms, and claims readiness only if both hold |
| Controller.DriverCore.StopMotion | skye_ros2_ws/src/skye_robot_driver/src/driver_core.cpp:631-642 | stops, parks and leaves a linked controller idle |
| Controller.ReadyMeansLinkedAndWorking | skye_ros2_ws/src/skye_robot_driver/src/driver_core.cpp:316-531 | after any operations, ready implies linked and not idle |
| Controller.SilentAfterStop | skye_ros2_ws/src/skye_robot_driver/src/driver_core.cpp:597-663 | after a stop on a linked controller no joint command of any kind reaches the SDK until a working mode is entered |
| Controller.CommandsComeFromAWorkingMode | skye_ros2_ws/src/skye_robot_driver/src/driver_core.cpp:417-434 | every joint command leaves a linked controller in a working mode |
| CoreTheorems.CommandsAreMoves | skye_ros2_ws/src/skye_robot_driver/src/driver_core.cpp:417-434 | exactly which joint commands each operation sends: a sent target as it is, a hold each arm's own measured pose, anything else none |
| CoreTheorems.HoldSucceedsIff | skye_ros2_ws/src/skye_robot_driver/src/driver_core.cpp:583-629 | a hold succeeds exactly when attempted, every arm could be read, and the SDK took every command |
| CoreTheorems.StateAfter | skye_ros2_ws/src/skye_robot_driver/src/driver_core.cpp:316-663 | what each operation makes of linked, ready and mode |
| CoreTheorems.ModesAreNumbered | skye_ros2_ws/src/skye_robot_driver/src/driver_core.cpp:30-45 | the mode numbers 0, 1, 2, 3 and 11, and no others |
| CoreTheorems.SwitchesAreParked | skye_ros2_ws/src/skye_robot_driver/src/driver_core.cpp:336-415 | no arm is put into another mode than asked for, and only after both arms were parked |
| CoreTheorems.SwitchReachesBothArms | skye_ros2_ws/src/skye_robot_driver/src/driver_core.cpp:346-415 | a successful switch told the mode and the speed to both arms |
| CoreTheorems.StopsReachTheSdk | skye_ros2_ws/src/skye_robot_driver/src/driver_core.cpp:631-654 | every stop of a linked controller reaches the SDK |
| DriverNode.Node.OnCommand | skye_ros2_ws/src/skye_robot_driver/src/driver_node.cpp:691-1029 | a command message performs one step of the node: its own arm changes, the other does not |
| DriverNode.Node.CheckCommandTimeout | skye_ros2_ws/src/skye_robot_driver/src/driver_node.cpp:1031-1091 | the four timeout checks in their order |
| DriverNode.Node.HandleSetMode | skye_ros2_ws/src/skye_robot_driver/src/driver_node.cpp:643-689 | an unknown mode changes nothing; a successful switch ends all four sessions |
| DriverNode.Node.HandleEmergencyStop | skye_ros2_ws/src/skye_robot_driver/src/driver_node.cpp:1127-1141 | an emergency stop ends all four sessions whatever the SDK answers |
| NodeTheorems.RestIsKept | skye_ros2_ws/src/skye_robot_driver/src/driver_node.cpp:643-1141 | at rest, no event but a successful set_mode changes that or sends a joint command |
| NodeTheorems.SilentUntilModeEntered | skye_ros2_ws/src/skye_robot_driver/src/driver_node.cpp:1115-1141 | after a stop or emergency stop on a linked controller no streamed, held or timed-out command reaches the SDK before set_mode succeeds |
| NodeTheorems.NodeRunIsArmRun | skye_ros2_ws/src/skye_robot_driver/src/driver_node.cpp:310-312 | handlers interleave on two arms, and each arm still has a run of its own with the same events, states and commanded targets, so every per-arm theorem holds of both |
| NodeTheorems.StreamedCommandsAreSafe | skye_ros2_ws/src/skye_robot_driver/src/driver_node.cpp:918-924 | every joint command that a message causes goes to its own arm, in that arm's limits, on a ready core |
| NodeTheorems.StreamedCommandsKeepSlew | skye_ros2_ws/src/skye_robot_driver/src/driver_node.cpp:914-927 | in every node run each such SDK call is within the slew limit of the latest call taken for that arm over that path, the first of a session of the clamped measured pose |
| HoldTheorems.TickHoldsOverdueArms | skye_ros2_ws/src/skye_robot_driver/src/driver_node.cpp:1031-1091 | in every node run a tick on a ready controller holds exactly the arms with an overdue path, each once, at the pose read back from it, and moves nothing else |
| HoldTheorems.TicksMoveOnlyStaleArms | skye_ros2_ws/src/skye_robot_driver/src/driver_node.cpp:1031-1091 | on any controller a tick moves an arm only to its own measured pose and only if a path of that arm is stale |
| HoldTheorems.MessageCommands | skye_ros2_ws/src/skye_robot_driver/src/driver_node.cpp:918-924 | a message with a target sends that one target to its own arm if the controller is ready, and nothing otherwise |
| HoldTheorems.FrameOfMessage | skye_ros2_ws/src/skye_robot_driver/src/driver_node.cpp:746-838 | what a handler reads of a message and of the controller |
| HoldTheorems.ServiceCommands | skye_ros2_ws/src/skye_robot_driver/src/driver_node.cpp:1093-1141 | hold_current sends each arm its own measured pose, the other services move nothing |
| HoldTheorems.ServicesCloseSessions | skye_ros2_ws/src/skye_robot_driver/src/driver_node.cpp:643-1141 | a service that takes effect closes all four sessions, one that does not leaves them alone |
| HoldTheorems.StillnessOutlivesModeSwitch | skye_ros2_ws/src/skye_robot_driver/src/driver_node.cpp:599-689 | set_mode keeps the time at rest, the other services clear it |
| HoldTheorems.SetModeEntersTheMode | skye_ros2_ws/src/skye_robot_driver/src/driver_node.cpp:643-689 | a successful set_mode leaves the core in the mode with the requested number |
| PolicyAbs.FollowerPoseToLeaderAbs | skye_ros2_ws/src/skye_hitl_dagger/skye_hitl_dagger/policy_abs.py:15-39 | the loop fills the leader slots, and raises exactly for wrong lengths, indices out of range or zero signs |
| PolicyAbs.DriverInvertsConversion | skye_ros2_ws/src/skye_hitl_dagger/skye_hitl_dagger/policy_abs.py:15-39 | the driver's absolute map takes every converted pose back to the pose |
| PolicyAbs.InvertibleIffPermutation | skye_ros2_ws/src/skye_hitl_dagger/skye_hitl_dagger/policy_abs.py:15-39 | that holds for all poses if and only if the order repeats no index |
| PolicyRelative.Session.FollowerTargetToLeader | skye_ros2_ws/src/skye_hitl_dagger/skye_hitl_dagger/policy_relative.py:71-82 | the leader command is the previous one plus the required travel |
| PolicyRelative.Session.CommitPublished | skye_ros2_ws/src/skye_hitl_dagger/skye_hitl_dagger/policy_relative.py:84-89 | the session's unwrap state advances by the corrected motion of the published command |
| Lockstep.SameAdvance | skye_ros2_ws/src/skye_hitl_dagger/skye_hitl_dagger/policy_relative.py:84-89 | whatever is published, session and driver advance their unwrap states alike |
| Lockstep.ReplayIsExact | skye_ros2_ws/src/skye_hitl_dagger/skye_hitl_dagger/policy_relative.py:29-89 | the driver's relative map outputs exactly every target if and only if no joint changes by more than pi per frame |
| Lockstep.PolicyReachesTheSdkExactly | skye_ros2_ws/src/skye_robot_driver/src/driver_node.cpp:777-927 | end to end through the whole handler, from any point where no path owns the arm and with quiet timer checks in between: reachable targets are sent to the SDK unchanged, frame by frame |
| Lockstep.TimelyChecksAreQuiet | skye_ros2_ws/src/skye_robot_driver/src/driver_node.cpp:1037-1042 | exactly which timeout checks leave the arm as it is |
| ControlMode.ControlArbiterLogic.RequestTakeover | skye_ros2_ws/src/skye_hitl_dagger/skye_hitl_dagger/control_mode.py:28-34 | accepted exactly in AUTONOMOUS, and then clears a pending request |
| ControlMode.ControlArbiterLogic.SyncCompleted | skye_ros2_ws/src/skye_hitl_dagger/skye_hitl_dagger/control_mode.py:45-52 | accepted exactly in a handover with a pending request |
| TeleopSync.NormalizedTwice | skye_ros2_ws/src/skye_hitl_dagger/skye_hitl_dagger/teleop_sync.py:13-32 | a normalised state is its own normal form, so caching it loses no classification |
| TeleopSync.BlanksAndCaseDoNotMatter | skye_ros2_ws/src/skye_hitl_dagger/skye_hitl_dagger/teleop_sync.py:13-18 | blanks around a report and the case of its letters do not matter |
| TeleopSync.TeleopHandshake.OnState | skye_ros2_ws/src/skye_hitl_dagger/skye_hitl_dagger/teleop_sync.py:97-109 | a report updates the cached state, the non-aligned flag and the start of the hold |
| TeleopSync.TeleopHandshake.AlignedReady | skye_ros2_ws/src/skye_hitl_dagger/skye_hitl_dagger/teleop_sync.py:111-117 | ready exactly when aligned after a non-aligned report and held long enough |
| ChunkPlayer.Player.Load | skye_ros2_ws/src/skye_hitl_dagger/skye_hitl_dagger/chunk_player.py:27-46 | stores exactly the loadable chunks; a rejected one leaves the old chunk |
| ChunkPlayer.Player.Sample | skye_ros2_ws/src/skye_hitl_dagger/skye_hitl_dagger/chunk_player.py:55-79 | the scan with its tail tolerance returns the selected step of both arms and grippers |
| ChunkPlayer.ScanIsClosedForm | skye_ros2_ws/src/skye_hitl_dagger/skye_hitl_dagger/chunk_player.py:59-71 | the step is floor((t-t0)/dt) clamped to 0..15 for all t, if and only if dt is at least 1e-12 |
| ChunkPlayer.PlaybackIsMonotone | skye_ros2_ws/src/skye_hitl_dagger/skye_hitl_dagger/chunk_player.py:59-71 | the step never goes back; a held tail stays held and is the last step |
| ChunkPlayer.TailStartsAtTheEnd | skye_ros2_ws/src/skye_hitl_dagger/skye_hitl_dagger/chunk_player.py:62-63 | the tail is held from the end of the sixteenth step on, and at most the tolerance before |
| ChunkContinuity.MaxStep0Jump | skye_ros2_ws/src/skye_hitl_dagger/skye_hitl_dagger/chunk_continuity.py:10-21 | the running maximum over both arms, infinite for arrays that are too short |
| ChunkContinuity.JumpIsLeastBound | skye_ros2_ws/src/skye_hitl_dagger/skye_hitl_dagger/chunk_continuity.py:10-21 | the jump is within a bound if and only if all fourteen joints are |
| ChunkContinuity.RebaseArmJointsToPose | skye_ros2_ws/src/skye_hitl_dagger/skye_hitl_dagger/chunk_continuity.py:24-36 | the nested loop shifts every step by the first step's error; raises on other lengths |
| ChunkContinuity.RebaseShiftsWhole | skye_ros2_ws/src/skye_hitl_dagger/skye_hitl_dagger/chunk_continuity.py:24-36 | the first step lands on the pose and all step-to-step differences are kept |
| ArbiterNode.ControlArbiter.OnPolicy | skye_ros2_ws/src/skye_hitl_dagger/skye_hitl_dagger/control_arbiter_node.py:191-238 | the policy callback performs the arbiter's policy step, publishes nothing, and reports when it raises |
| ArbiterTheorems.PolicyRaisesIff | skye_ros2_ws/src/skye_hitl_dagger/skye_hitl_dagger/control_arbiter_node.py:215-223 | exactly when the callback raises: fresh, off a recent pose, and joint arrays that do not match the chunk size; never for a well-sized chunk |
| ArbiterNode.ControlArbiter.OnIntervention | skye_ros2_ws/src/skye_hitl_dagger/skye_hitl_dagger/control_arbiter_node.py:240-292 | takeover, enter_teleop and return perform their steps and publications in order; anything else is ignored |
| ArbiterNode.ControlArbiter.OnJointStates | skye_ros2_ws/src/skye_hitl_dagger/skye_hitl_dagger/control_arbiter_node.py:317-330 | a complete report is cached, and after a return becomes the hold target |
| ArbiterNode.ControlArbiter.OnSyncTimer | skye_ros2_ws/src/skye_hitl_dagger/skye_hitl_dagger/control_arbiter_node.py:353-400 | the sync timer completes, asks for, or re-publishes exactly as the step says |
| ArbiterNode.ControlArbiter.OnJointTimer | skye_ros2_ws/src/skye_hitl_dagger/skye_hitl_dagger/control_arbiter_node.py:402-430 | the joint timer publishes the absolute commands of the step |
| ArbiterNode.ControlArbiter.OnGripperTimer | skye_ros2_ws/src/skye_hitl_dagger/skye_hitl_dagger/control_arbiter_node.py:432-450 | the gripper timer publishes the gripper values of the step and changes nothing |
| ArbiterRuns.AlwaysCoherent | skye_ros2_ws/src/skye_hitl_dagger/skye_hitl_dagger/control_arbiter_node.py:101-114 | in every reachable state the separately kept fields agree: pending request and silenced absolute stream, handshake phase and mode, empty player outside AUTONOMOUS and after a return |
| ArbiterRuns.OutputsFollowOwnership | skye_ros2_ws/src/skye_hitl_dagger/skye_hitl_dagger/control_arbiter_node.py:402-458 | policy outputs only while the arms are not released, teleop outputs only in HUMAN, hold requests exactly at an accepted enter_teleop that finds the service |
| ArbiterRuns.OutputsNeverInterleave | skye_ros2_ws/src/skye_hitl_dagger/skye_hitl_dagger/control_arbiter_node.py:240-292 | an accepted enter_teleop lies between a policy and a later teleop output, an accepted return between a teleop output or enter_teleop and a later policy output |
| ArbiterRuns.HoldBetweenOutputs | skye_ros2_ws/src/skye_hitl_dagger/skye_hitl_dagger/control_arbiter_node.py:294-315 | exactly when a hold is requested between them: some accepted enter_teleop found the service |
| HandshakeTheorems.HoldCanBeSkipped | skye_ros2_ws/src/skye_hitl_dagger/skye_hitl_dagger/control_arbiter_node.py:296-299 | without the service a relative output follows an absolute one with no hold request at all |
| HandshakeTheorems.HumanIffEvidence | skye_ros2_ws/src/skye_hitl_dagger/skye_hitl_dagger/control_arbiter_node.py:353-400 | a step enters HUMAN if and only if it is a sync timer after, since the last takeover and in order: a non-aligned report, an aligned one uncontradicted for the hold time, switch_teleop no earlier than an accepted enter_teleop, and a newer TELEOP report |
| HandshakeTheorems.HandoverCompletes | skye_ros2_ws/src/skye_hitl_dagger/skye_hitl_dagger/teleop_sync.py:41-51 | every run inside a handover is brought to HUMAN by fresh reports and one request: no deadlock |
| ArbiterOutputs.OperatorCommandsPublish | skye_ros2_ws/src/skye_hitl_dagger/skye_hitl_dagger/control_arbiter_node.py:240-277 | takeover publishes switch_sync, return the configured command or its default, refused commands nothing |
| ArbiterOutputs.UnansweredCommandIsRepeated | skye_ros2_ws/src/skye_hitl_dagger/skye_hitl_dagger/control_arbiter_node.py:353-390 | exactly when the unanswered mode command is repeated, and which it is |
| ArbiterTheorems.CommandDrives | skye_ros2_ws/src/skye_hitl_dagger/skye_hitl_dagger/control_arbiter_node.py:460-473 | a published absolute command makes the driver's own map output exactly the target |
| ArbiterTheorems.HandoverHoldsStill | skye_ros2_ws/src/skye_hitl_dagger/skye_hitl_dagger/control_arbiter_node.py:402-414 | throughout a handover the absolute target is the one frozen at the takeover, and silent once enter_teleop is accepted |
| ArbiterTheorems.AfterReturnArmsFollowFeedback | skye_ros2_ws/src/skye_hitl_dagger/skye_hitl_dagger/control_arbiter_node.py:265-277 | after a return, until a chunk or takeover: player empty, grippers silent, arms sent exactly to the latest reported pose, or nothing while none is recent |
| ArbiterTheorems.ChunksAcceptedAfterReturn | skye_ros2_ws/src/skye_hitl_dagger/skye_hitl_dagger/chunk_continuity.py:39-54 | exactly which chunks end that wait: well formed, and fresh by stamp, by receipt, or by elapsed fallback time |
| ArbiterOutputs.ChunkAcceptedIff | skye_ros2_ws/src/skye_hitl_dagger/skye_hitl_dagger/control_arbiter_node.py:191-232 | in every run a message is accepted if and only if the mode is AUTONOMOUS, it is well sized with a finite positive dt, and, only while a return waits for its first chunk, it is fresh since then |
| ArbiterOutputs.ChunkStartTime | skye_ros2_ws/src/skye_hitl_dagger/skye_hitl_dagger/control_arbiter_node.py:197-212 | an accepted chunk plays from its stamp, unless it is fresh only by receipt after a return |
| ArbiterOutputs.SilentBeforeTheFirstChunk | skye_ros2_ws/src/skye_hitl_dagger/skye_hitl_dagger/control_arbiter_node.py:402-450 | until the first accepted chunk or takeover nothing moves |
| ArbiterTheorems.ChunkStartsAtPose | skye_ros2_ws/src/skye_hitl_dagger/skye_hitl_dagger/control_arbiter_node.py:213-227 | with recent feedback step 0 is within the allowed jump on all fourteen joints; a near chunk is untouched, any other starts on the pose; differences are the message's |
| ArbiterTheorems.ChunkReachesTheArms | skye_ros2_ws/src/skye_hitl_dagger/skye_hitl_dagger/control_arbiter_node.py:415-420 | end to end: each joint tick drives both arms exactly to the step that the clock selects from the joined message |
| ArbiterTheorems.ChunkReachesTheGrippers | skye_ros2_ws/src/skye_hitl_dagger/skye_hitl_dagger/control_arbiter_node.py:432-450 | the grippers get the same step's values, inverted as configured |
| ArbiterOutputs.ForwardedIff | skye_ros2_ws/src/skye_hitl_dagger/skye_hitl_dagger/control_arbiter_node.py:452-458 | each teleop message is forwarded unchanged to its own arm in HUMAN, and only there |
| ArbiterOutputs.HandoverHoldsGrippers | skye_ros2_ws/src/skye_hitl_dagger/skye_hitl_dagger/control_arbiter_node.py:432-450 | throughout a handover the grippers get the values frozen at the takeover, until enter_teleop |
| ArbiterOutputs.ReturnKeepsGrippers | skye_ros2_ws/src/skye_hitl_dagger/skye_hitl_dagger/control_arbiter_node.py:338-348 | after a return the held targets keep the grippers where the last target had them |
| ArbiterOutputs.GripperInversion | skye_ros2_ws/src/skye_hitl_dagger/skye_hitl_dagger/control_arbiter_node.py:38-40 | inversion exchanges open and closed and undoes itself |
| ModbusRtu.Crc16 | skye_ros2_ws/src/skye_robot_driver/include/skye_robot_driver/modbus_rtu.hpp:10-23 | the nested loop computes the CRC register of the message |
| ModbusRtu.BurstChangesCrc | skye_ros2_ws/src/skye_robot_driver/include/skye_robot_driver/modbus_rtu.hpp:10-23 | one or two adjacent changed bytes change the CRC of a message of any length |
| ModbusRtu.ResidueZeroIffCrc | skye_ros2_ws/src/skye_robot_driver/include/skye_robot_driver/modbus_rtu.hpp:10-23 | the CRC over a message and two bytes is 0 if and only if they are its CRC, low byte first |
| ModbusRtu.ReadHolding | skye_ros2_ws/src/skye_robot_driver/include/skye_robot_driver/modbus_rtu.hpp:25-37 | the builder produces the framed read request |
| ModbusRtu.WriteSingle | skye_ros2_ws/src/skye_robot_driver/include/skye_robot_driver/modbus_rtu.hpp:39-51 | the builder produces the framed write request |
| ModbusRtu.RequestRoundTrips | skye_ros2_ws/src/skye_robot_driver/include/skye_robot_driver/modbus_rtu.hpp:25-51 | a request determines its fields and passes the residue check |
| ModbusRtu.ParseReadU16 | skye_ros2_ws/src/skye_robot_driver/include/skye_robot_driver/modbus_rtu.hpp:53-69 | the parser as written equals its specification on every byte sequence |
| ModbusRtu.ParsesExactlyReplies | skye_ros2_ws/src/skye_robot_driver/include/skye_robot_driver/modbus_rtu.hpp:53-69 | accepts exactly the slave's well-formed replies, each with its value |
| ModbusRtu.BurstIsRejected | skye_ros2_ws/src/skye_robot_driver/include/skye_robot_driver/modbus_rtu.hpp:53-69 | changing any one or two adjacent bytes of a valid reply makes the parser reject it |
| DmMit.CodeIsGreatestBelow | skye_ros2_ws/src/skye_robot_driver/src/dm_mit.cpp:29-39 | quantising and dequantising are adjoint: a code is at most a set-point's code iff its value is at most the clamped set-point |
| DmMit.QuantiseLosesLessThanAStep | skye_ros2_ws/src/skye_robot_driver/src/dm_mit.cpp:29-39 | codes stay in range and their value is below the clamped set-point by less than one step |
| DmMit.CodeRoundTrips | skye_ros2_ws/src/skye_robot_driver/src/dm_mit.cpp:29-39 | quantising a code's value gives the code back |
| DmMit.EncodeMit | skye_ros2_ws/src/skye_robot_driver/src/dm_mit.cpp:41-60 | the buffer is the byte layout of the five quantised set-points |
| DmMit.PackingIsABijection | skye_ros2_ws/src/skye_robot_driver/src/dm_mit.cpp:41-60 | reading a frame recovers all five codes, and every frame is one tuple's |
| DmMit.MotorReadsSetPoints | skye_ros2_ws/src/skye_robot_driver/src/dm_mit.cpp:41-60 | all five values read from a control frame are within one step below the clamped set-points |
| DmMit.ReservedFrames | skye_ros2_ws/src/skye_robot_driver/include/skye_robot_driver/dm_mit.hpp:46-51 | exactly when a control frame equals the enable or disable frame, hence never with kp below 500 |
| DmMit.DocumentedRanges | skye_ros2_ws/src/skye_robot_driver/src/dm_mit.cpp:41-47 | the documented ranges: each code is full exactly from its maximum on, and zero stands for its minimum |
| DmMit.FeedbackRecovered | skye_ros2_ws/src/skye_robot_driver/src/dm_mit.cpp:62-81 | every field of a motor's report is recovered to the code, with the text of its error |
| DmMit.TextTellsCode | skye_ros2_ws/src/skye_robot_driver/src/dm_mit.cpp:11-15 | different error codes have different texts |
| DmMit.PackTerminal | skye_ros2_ws/src/skye_robot_driver/src/dm_mit.cpp:83-95 | twelve bytes: identifier low byte first, then the data cut or filled to eight |
| DmMit.UnpackTerminal | skye_ros2_ws/src/skye_robot_driver/src/dm_mit.cpp:97-111 | rejects under five bytes, otherwise splits identifier and padded data |
| DmMit.TerminalRoundTrips | skye_ros2_ws/src/skye_robot_driver/src/dm_mit.cpp:83-111 | unpacking a packed frame is the identity on identifier and eight data bytes |
| DmMit.PayloadRoundTrips | skye_ros2_ws/src/skye_robot_driver/src/dm_mit.cpp:83-111 | packing what was unpacked from twelve bytes gives them back |

## Left out

- Floating-point rounding: doubles are reals; degree and radian conversion is not part of this model.
- tanh itself: compression is proved for every odd, increasing, 1-bounded, 1-Lipschitz curve, which covers tanh. Two results also need it flatter than the identity or saturating at one, which covers tanh too; x/(1+abs x) meets all of it.
- Clocks: each handler reads its clock once; `now` and `wall` are parameters, and no theorem needs them to advance.
- SDK answers, feedback reads and the availability of the hold service are parameters of each step.
- Non-finite numbers occur only in command messages and a chunk's dt; feedback and chunk joints are finite. A non-finite entry that no output reads (possible only with a repeated index) counts as 0, and a continuous angle poisoned by a rejected frame is not represented, because the next session overwrites it.
- Joint orders may repeat an index, as in the driver's parameter check; where a permutation is needed it is a stated precondition.
- JointFacts.LeashBoundsOffset: claims the leash interval for the function, not for the final raw target, because a frozen joint's clamp is discarded by the recomputation at driver_node.cpp:875-880.
- Lockstep.PolicyReachesTheSdkExactly: assumes assist off, targets in the limits and within the slew limit, since anything else is shaped on purpose.
- ArbiterNode.ControlArbiter.OnPolicy: an exception ends the process; the model reports it and lets runs go on from the unchanged state, which only adds runs.
- TeleopSync.NormalizedTwice: strip and upper cover ASCII only.
- ArmRuns.TargetsAreSafe: no slew bound across a change of path, because each session reseeds from measurement; hold_current poses are measured and not clamped.
- ArbiterTheorems.CommandDrives: takes the driver's order, signs and offsets to be the arbiter's; the two processes load them separately, and nothing compares them.
- Controller.DriverCore.EnterModeUnlocked: the ratios and gains passed to the SDK's mode and speed calls are not recorded.
- Status publications (mode topic, applied actions, policy version), logging and throttled warnings, speed-rate service.
- The gripper bridge and Robotiq coalescing; the Modbus write acknowledgement, whose CRC the program does not check.
- Operator UI, session supervisor, recording, replay, cameras, launch files, and the older Marvin driver.
- Locks and memory order: handlers of one callback group run one at a time, and so do the arbiter's callbacks.
