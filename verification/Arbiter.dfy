/** The arbiter between policy chunks and teleoperation: one step per callback, and what each step publishes. */
module Arbiter {
  import opened Prelude
  import opened ControlMode
  import opened TeleopSync
  import opened ChunkPlayer
  import opened ChunkContinuity
  import opened PolicyAbs

  datatype ArmSide = LeftArm | RightArm

  const SWITCH_STOP: string := "switch_stop"

  datatype ArbConfig = ArbConfig(minSyncHold: real, syncTimeout: real, startMaxJump: real, fallback: real, stale: real,
                                 returnMode: string, invertGripper: bool, left: Mapping, right: Mapping)
  {
    /** The configured times and distances are used as they are, except that negative ones count as zero. */
    function Hold(): (h: real)
      ensures minSyncHold >= 0.0 ==> h == minSyncHold
      ensures minSyncHold < 0.0 ==> h == 0.0
    {
      Max(0.0, minSyncHold)
    }

    function MaxJump(): (j: real)
      ensures startMaxJump >= 0.0 ==> j == startMaxJump
      ensures startMaxJump < 0.0 ==> j == 0.0
    {
      Max(0.0, startMaxJump)
    }

    /** The configured return command, or the default when the configuration names no supported one. */
    function ReturnCommand(): string {
      if returnMode == SWITCH_SYNC || returnMode == SWITCH_STOP then returnMode else SWITCH_SYNC
    }

    function GripperValue(value: real): real {
      if invertGripper then 1.0 - value else value
    }
  }

  datatype Followers = Followers(left: Pose, right: Pose)

  type Active = c: Option<Chunk> | c.Some? ==> c.value.Valid() witness None

  datatype ArbState = ArbState(logic: LogicState, hs: HandshakeState, chunk: Active, lastTarget: Option<Sample>,
                               holdTarget: Option<Sample>, syncStarted: Option<real>, returnTime: Option<real>,
                               returnWall: Option<real>, feedback: Option<Followers>, feedbackAt: Option<real>,
                               absHold: bool)

  const INITIAL: ArbState :=
    ArbState(LogicState(Autonomous, false), AT_REST, None, None, None, None, None, None, None, None, false)

  /** A policy message; `stamp` is 0 when the sender did not stamp it. */
  datatype Message = Message(stamp: real, size: nat, dt: Double, left: seq<real>, right: seq<real>,
                             leftGripper: seq<real>, rightGripper: seq<real>)

  /** `now` is the ROS clock and `wall` the monotonic clock, read once per callback. */
  datatype ArbEvent =
    | Policy(msg: Message, now: real, wall: real)
    | Intervention(command: string, now: real, wall: real, holdAvailable: bool)
    | JointStates(positions: seq<real>, wall: real)
    | TeleopState(report: string, wall: real)
    | SyncTimer(wall: real)
    | JointTimer(now: real)
    | GripperTimer(now: real)
    | TeleopJoint(arm: ArmSide, leader: seq<Double>)
    | TeleopGripper(arm: ArmSide, gripper: seq<Double>)

  datatype Publication =
    | ModeCommand(name: string)
    | HoldRequest
    | AbsCommand(left: Pose, right: Pose)
    | RelCommand(arm: ArmSide, leader: seq<Double>)
    | GripperCommand(leftValue: real, rightValue: real)
    | GripperForward(arm: ArmSide, gripper: seq<Double>)

  datatype ArbOutcome = ArbOutcome(state: ArbState, out: seq<Publication>)

  const TAKEOVER: string := "takeover"
  const ENTER_TELEOP: string := "enter_teleop"
  const RETURN: string := "return"

  // ---- Specification of each callback ----

  function Playing(chunk: Active, t: real): Option<Sample> {
    if chunk.None? then None else Some(SampleAt(chunk.value, t))
  }

  /** A hold target at the measured pose; the grippers keep their last targets. */
  function FeedbackTarget(feedback: Option<Followers>, last: Option<Sample>): Option<Sample> {
    match feedback
    case None => None
    case Some(pose) =>
      if last.Some? then Some(Sampled(pose.left, pose.right, last.value.leftGripper, last.value.rightGripper, true))
      else Some(Sampled(pose.left, pose.right, 0.0, 0.0, true))
  }

  predicate Recent(cfg: ArbConfig, st: ArbState, wall: real) {
    st.feedbackAt.Some? && wall - st.feedbackAt.value <= cfg.stale
  }

  predicate FreshByStamp(st: ArbState, stamp: real) {
    st.returnTime.None? || (stamp > 0.0 && stamp >= st.returnTime.value)
  }

  predicate Fresh(cfg: ArbConfig, st: ArbState, stamp: real, wall: real) {
    ChunkIsFresh(stamp, st.returnTime, wall, st.returnWall, wall, cfg.fallback)
  }

  predicate SmallJump(cfg: ArbConfig, msg: Message, pose: Followers) {
    var jump := Step0Jump(msg.left, msg.right, pose.left, pose.right);
    jump.Some? && jump.value <= cfg.MaxJump()
  }

  /** The joint arrays to load, moved onto a recently measured pose when they start too far away; `None` raises. */
  function Joined(cfg: ArbConfig, st: ArbState, msg: Message, wall: real): Option<(seq<real>, seq<real>)> {
    if !Recent(cfg, st, wall) || st.feedback.None? || SmallJump(cfg, msg, st.feedback.value) then
      Some((msg.left, msg.right))
    else
      var left := Rebased(msg.left, st.feedback.value.left, msg.size);
      var right := Rebased(msg.right, st.feedback.value.right, msg.size);
      if left.Some? && right.Some? then Some((left.value, right.value)) else None
  }

  /** The chunk that a policy message makes active, if it makes one active. */
  function Admitted(cfg: ArbConfig, st: ArbState, msg: Message, now: real, wall: real): Active {
    var joined := Joined(cfg, st, msg, wall);
    var t0 := if FreshByStamp(st, msg.stamp) then msg.stamp else now;
    if st.logic.mode != Autonomous || !Fresh(cfg, st, msg.stamp, wall) || joined.None? then None
    else if !Loadable(msg.size, msg.dt, Fin(t0), joined.value.0, joined.value.1, msg.leftGripper, msg.rightGripper) then None
    else Some(MakeChunk(msg.dt.v, t0, joined.value.0, joined.value.1, msg.leftGripper, msg.rightGripper))
  }

  /** The policy callback raises: a fresh chunk has to be rebased and cannot be. */
  predicate PolicyRaises(cfg: ArbConfig, st: ArbState, msg: Message, wall: real) {
    st.logic.mode == Autonomous && Fresh(cfg, st, msg.stamp, wall) && Joined(cfg, st, msg, wall).None?
  }

  function PolicyStep(cfg: ArbConfig, st: ArbState, msg: Message, now: real, wall: real): ArbOutcome {
    var chunk := Admitted(cfg, st, msg, now, wall);
    if chunk.None? then ArbOutcome(st, [])
    else ArbOutcome(st.(chunk := chunk, returnTime := None, returnWall := None, holdTarget := None), [])
  }

  function TakeoverStep(st: ArbState, now: real, wall: real): ArbOutcome {
    var sampled := Playing(st.chunk, now);
    var last := if sampled.Some? then sampled else st.lastTarget;
    var hold := if last.Some? then last else FeedbackTarget(st.feedback, last);
    ArbOutcome(st.(logic := LogicState(HandoverSync, false), absHold := false, syncStarted := Some(wall),
                   lastTarget := last, holdTarget := hold, chunk := None, hs := SYNC_STARTED),
               [ModeCommand(SWITCH_SYNC)])
  }

  function EnterTeleopStep(cfg: ArbConfig, st: ArbState, wall: real, holdAvailable: bool): ArbOutcome {
    var entered := st.(logic := LogicState(HandoverSync, true), absHold := true, syncStarted := Some(wall));
    var held := if holdAvailable then [HoldRequest] else [];
    if st.hs.AlignedReady(wall, cfg.Hold()) then
      ArbOutcome(entered.(hs := st.hs.TeleopStarted()), held + [ModeCommand(SWITCH_TELEOP)])
    else ArbOutcome(entered, held)
  }

  function ReturnStep(cfg: ArbConfig, st: ArbState, now: real, wall: real): ArbOutcome {
    var target := if Recent(cfg, st, wall) then FeedbackTarget(st.feedback, st.lastTarget) else None;
    ArbOutcome(st.(logic := LogicState(Autonomous, false), absHold := false, syncStarted := None, hs := AT_REST,
                   chunk := None, returnTime := Some(now), returnWall := Some(wall), holdTarget := target,
                   lastTarget := target),
               [ModeCommand(cfg.ReturnCommand())])
  }

  function InterventionStep(cfg: ArbConfig, st: ArbState, command: string, now: real, wall: real,
                            holdAvailable: bool): ArbOutcome
  {
    if command == TAKEOVER && st.logic.CanTakeover() then TakeoverStep(st, now, wall)
    else if command == ENTER_TELEOP && st.logic.CanEnterTeleop() then EnterTeleopStep(cfg, st, wall, holdAvailable)
    else if command == RETURN && st.logic.CanReturn() then ReturnStep(cfg, st, now, wall)
    else ArbOutcome(st, [])
  }

  function JointStatesStep(st: ArbState, positions: seq<real>, wall: real): ArbOutcome {
    if |positions| < 2 * DOF then ArbOutcome(st, [])
    else
      var heard := st.(feedback := Some(Followers(positions[..DOF], positions[DOF..2 * DOF])), feedbackAt := Some(wall));
      if st.logic.mode == Autonomous && st.returnTime.Some? then
        var target := FeedbackTarget(heard.feedback, st.lastTarget);
        ArbOutcome(heard.(holdTarget := target, lastTarget := target), [])
      else ArbOutcome(heard, [])
  }

  predicate Overdue(cfg: ArbConfig, st: ArbState, wall: real) {
    st.syncStarted.Some? && wall - st.syncStarted.value >= cfg.syncTimeout
  }

  function SyncTimerStep(cfg: ArbConfig, st: ArbState, wall: real): ArbOutcome {
    var restarted := st.(syncStarted := Some(wall));
    if st.logic.mode != HandoverSync then ArbOutcome(st, [])
    else if !st.logic.requested then
      if Overdue(cfg, st, wall) && st.hs.Pending() == Some(SWITCH_SYNC) then
        ArbOutcome(restarted, [ModeCommand(SWITCH_SYNC)])
      else ArbOutcome(st, [])
    else if st.hs.TeleopReady() then
      ArbOutcome(st.(logic := LogicState(Human, false), absHold := false, hs := AT_REST, syncStarted := None), [])
    else if st.hs.AlignedReady(wall, cfg.Hold()) && st.hs.Pending() != Some(SWITCH_TELEOP) then
      ArbOutcome(restarted.(hs := st.hs.TeleopStarted()), [ModeCommand(SWITCH_TELEOP)])
    else if Overdue(cfg, st, wall) then
      match st.hs.Pending()
      case Some(command) => ArbOutcome(restarted, [ModeCommand(command)])
      case None => ArbOutcome(restarted, [])
    else ArbOutcome(st, [])
  }

  /** Both arms' absolute commands, or nothing when either conversion fails. */
  function AbsOut(cfg: ArbConfig, target: Sample): seq<Publication> {
    var l, r := LeaderCommand(target.left, cfg.left), LeaderCommand(target.right, cfg.right);
    if l.Some? && r.Some? then [AbsCommand(l.value, r.value)] else []
  }

  function JointTimerStep(cfg: ArbConfig, st: ArbState, now: real): ArbOutcome {
    var sampled := Playing(st.chunk, now);
    match st.logic.mode
    case Human => ArbOutcome(st, [])
    case HandoverSync =>
      if !st.absHold && st.holdTarget.Some? then ArbOutcome(st, AbsOut(cfg, st.holdTarget.value)) else ArbOutcome(st, [])
    case Autonomous =>
      if st.returnTime.Some? && st.holdTarget.None? then ArbOutcome(st, [])
      else if sampled.Some? then ArbOutcome(st.(lastTarget := sampled), AbsOut(cfg, sampled.value))
      else if st.lastTarget.Some? then ArbOutcome(st, AbsOut(cfg, st.lastTarget.value))
      else ArbOutcome(st, [])
  }

  function GripperTarget(st: ArbState, now: real): Option<Sample> {
    var sampled := if st.logic.mode == HandoverSync then st.holdTarget else Playing(st.chunk, now);
    if sampled.Some? then sampled else st.lastTarget
  }

  predicate GripperSilent(st: ArbState) {
    || st.logic.mode == Human
    || (st.logic.mode == Autonomous && st.returnTime.Some?)
    || (st.logic.mode == HandoverSync && st.absHold)
  }

  function GripperOut(cfg: ArbConfig, st: ArbState, now: real): seq<Publication> {
    var target := GripperTarget(st, now);
    if GripperSilent(st) || target.None? then []
    else [GripperCommand(cfg.GripperValue(target.value.leftGripper), cfg.GripperValue(target.value.rightGripper))]
  }

  function ArbStep(cfg: ArbConfig, st: ArbState, ev: ArbEvent): ArbOutcome {
    match ev
    case Policy(msg, now, wall) => PolicyStep(cfg, st, msg, now, wall)
    case Intervention(command, now, wall, available) => InterventionStep(cfg, st, command, now, wall, available)
    case JointStates(positions, wall) => JointStatesStep(st, positions, wall)
    case TeleopState(report, wall) => ArbOutcome(st.(hs := st.hs.Reported(report, wall)), [])
    case SyncTimer(wall) => SyncTimerStep(cfg, st, wall)
    case JointTimer(now) => JointTimerStep(cfg, st, now)
    case GripperTimer(now) => ArbOutcome(st, GripperOut(cfg, st, now))
    case TeleopJoint(arm, leader) => ArbOutcome(st, if st.logic.mode == Human then [RelCommand(arm, leader)] else [])
    case TeleopGripper(arm, msg) => ArbOutcome(st, if st.logic.mode == Human then [GripperForward(arm, msg)] else [])
  }
}
