/** The arbiter node: callbacks over its mode machine, handshake and player, proved against the arbiter's steps. */
module ArbiterNode {
  import opened Prelude
  import opened ControlMode
  import opened TeleopSync
  import opened ChunkPlayer
  import opened ChunkContinuity
  import opened PolicyAbs
  import opened Arbiter

  class ControlArbiter {
    const cfg: ArbConfig
    const logic: ControlArbiterLogic
    const handshake: TeleopHandshake
    const player: Player
    var lastTarget: Option<Sample>
    var holdTarget: Option<Sample>
    var syncStarted: Option<real>
    var returnTime: Option<real>
    var returnWall: Option<real>
    var feedback: Option<Followers>
    var feedbackAt: Option<real>
    var absHold: bool
    /** Everything published so far. */
    ghost var log: seq<Publication>

    ghost predicate Valid()
      reads this, player
    {
      player.Valid() && handshake.hold == cfg.Hold()
    }

    ghost function State(): ArbState
      reads this, logic, handshake, player
      requires Valid()
    {
      ArbState(logic.State(), handshake.State(), player.chunk, lastTarget, holdTarget, syncStarted, returnTime,
               returnWall, feedback, feedbackAt, absHold)
    }

    constructor (cfg: ArbConfig)
      ensures Valid() && State() == INITIAL && log == [] && this.cfg == cfg
      ensures fresh(logic) && fresh(handshake) && fresh(player)
    {
      this.cfg := cfg;
      logic := new ControlArbiterLogic();
      handshake := new TeleopHandshake(Max(0.0, cfg.minSyncHold));
      player := new Player();
      lastTarget, holdTarget, syncStarted, returnTime, returnWall := None, None, None, None, None;
      feedback, feedbackAt, absHold := None, None, false;
      log := [];
    }

    method PublishModeCommand(name: string)
      requires Valid()
      modifies this`log
      ensures log == old(log) + [ModeCommand(name)]
    {
      log := log + [ModeCommand(name)];
    }

    method FeedbackIsRecent(wall: real) returns (recent: bool)
      requires Valid()
      ensures recent == Recent(cfg, State(), wall)
    {
      recent := feedbackAt.Some? && wall - feedbackAt.value <= cfg.stale;
    }

    method FeedbackAsTarget() returns (target: Option<Sample>)
      ensures target == FeedbackTarget(feedback, lastTarget)
    {
      if feedback.None? {
        return None;
      }
      var leftGripper, rightGripper := 0.0, 0.0;
      if lastTarget.Some? {
        leftGripper, rightGripper := lastTarget.value.leftGripper, lastTarget.value.rightGripper;
      }
      target := Some(Sampled(feedback.value.left, feedback.value.right, leftGripper, rightGripper, true));
    }

    /** The joint arrays that a message loads; `None` when the rebase raises. */
    method JoinToPose(msg: Message, wall: real) returns (r: Option<(seq<real>, seq<real>)>)
      requires Valid()
      ensures r == Joined(cfg, State(), msg, wall)
    {
      var left, right := msg.left, msg.right;
      var recent := FeedbackIsRecent(wall);
      if recent && feedback.Some? {
        var jump := MaxStep0Jump(left, right, feedback.value.left, feedback.value.right);
        if jump.None? || jump.value > cfg.MaxJump() {
          var l := RebaseArmJointsToPose(left, feedback.value.left, msg.size);
          if l.None? {
            return None;
          }
          var r := RebaseArmJointsToPose(right, feedback.value.right, msg.size);
          if r.None? {
            return None;
          }
          left, right := l.value, r.value;
        }
      }
      r := Some((left, right));
    }

    /** Loads a fresh chunk, or raises when a chunk that has to be rebased has arrays of the wrong length. */
    method OnPolicy(msg: Message, now: real, wall: real) returns (raised: bool)
      requires Valid()
      modifies this, player
      ensures Valid()
      ensures raised == PolicyRaises(cfg, old(State()), msg, wall)
      ensures State() == PolicyStep(cfg, old(State()), msg, now, wall).state && log == old(log)
    {
      if logic.mode != Autonomous {
        return false;
      }
      var freshByStamp := returnTime.None? || (msg.stamp > 0.0 && msg.stamp >= returnTime.value);
      if !ChunkIsFresh(msg.stamp, returnTime, wall, returnWall, wall, cfg.fallback) {
        return false;
      }
      var t0 := if freshByStamp then msg.stamp else now;
      var joined := JoinToPose(msg, wall);
      if joined.None? {
        return true;
      }
      var loaded := player.Load(msg.size, msg.dt, Fin(t0), joined.value.0, joined.value.1, msg.leftGripper,
                                msg.rightGripper);
      if !loaded {
        return false;
      }
      returnTime := None;
      returnWall := None;
      holdTarget := None;
      return false;
    }

    method OnIntervention(command: string, now: real, wall: real, holdAvailable: bool)
      requires Valid()
      modifies this, logic, handshake, player
      ensures Valid()
      ensures var o := InterventionStep(cfg, old(State()), command, now, wall, holdAvailable);
        State() == o.state && log == old(log) + o.out
    {
      var ok := false;
      if command == TAKEOVER {
        ok := logic.RequestTakeover();
        if ok {
          BeginTakeover(now, wall);
        }
      } else if command == ENTER_TELEOP {
        ok := logic.RequestEnterTeleop();
        if ok {
          BeginEnterTeleop(wall, holdAvailable);
        }
      } else if command == RETURN {
        ok := logic.RequestReturn();
        if ok {
          BeginReturn(now, wall);
        }
      }
    }

    /** Freeze the target that is playing, drop the chunk and start the handshake. */
    method BeginTakeover(now: real, wall: real)
      requires Valid() && logic.State() == LogicState(HandoverSync, false)
      modifies this, handshake, player
      ensures Valid()
      ensures var o := TakeoverStep(old(State()), now, wall); State() == o.state && log == old(log) + o.out
    {
      absHold := false;
      syncStarted := Some(wall);
      var sampled := player.Sample(now);
      if sampled.Some? {
        lastTarget := sampled;
      }
      holdTarget := lastTarget;
      if holdTarget.None? {
        holdTarget := FeedbackAsTarget();
      }
      player.Clear();
      PublishModeCommand(SWITCH_SYNC);
      handshake.StartSync();
    }

    /** Stop the absolute stream, ask for a hold, and ask for teleoperation if the leader is aligned already. */
    method BeginEnterTeleop(wall: real, holdAvailable: bool)
      requires Valid() && logic.State() == LogicState(HandoverSync, true)
      modifies this, handshake
      ensures Valid()
      ensures var o := EnterTeleopStep(cfg, old(State()), wall, holdAvailable);
        State() == o.state && log == old(log) + o.out
    {
      if holdAvailable {
        log := log + [HoldRequest];
      }
      absHold := true;
      syncStarted := Some(wall);
      var ready := handshake.AlignedReady(wall);
      if ready {
        PublishModeCommand(SWITCH_TELEOP);
        handshake.StartTeleop();
      }
    }

    method BeginReturn(now: real, wall: real)
      requires Valid() && logic.State() == LogicState(Autonomous, false)
      modifies this, handshake, player
      ensures Valid()
      ensures var o := ReturnStep(cfg, old(State()), now, wall); State() == o.state && log == old(log) + o.out
    {
      absHold := false;
      syncStarted := None;
      handshake.Reset();
      player.Clear();
      returnTime := Some(now);
      returnWall := Some(wall);
      var target: Option<Sample> := None;
      var recent := FeedbackIsRecent(wall);
      if recent {
        target := FeedbackAsTarget();
      }
      holdTarget := target;
      lastTarget := target;
      PublishModeCommand(cfg.ReturnCommand());
    }

    method OnJointStates(positions: seq<real>, wall: real)
      requires Valid()
      modifies this
      ensures Valid() && log == old(log)
      ensures State() == JointStatesStep(old(State()), positions, wall).state
    {
      if |positions| < 2 * DOF {
        return;
      }
      feedback := Some(Followers(positions[..DOF], positions[DOF..2 * DOF]));
      feedbackAt := Some(wall);
      if logic.mode == Autonomous && returnTime.Some? {
        holdTarget := FeedbackAsTarget();
        lastTarget := holdTarget;
      }
    }

    method OnTeleopState(report: string, wall: real)
      requires Valid()
      modifies handshake
      ensures Valid() && State() == ArbStep(cfg, old(State()), TeleopState(report, wall)).state
    {
      handshake.OnState(report, wall);
    }

    method OnSyncTimer(wall: real)
      requires Valid()
      modifies this, logic, handshake
      ensures Valid()
      ensures var o := SyncTimerStep(cfg, old(State()), wall); State() == o.state && log == old(log) + o.out
    {
      if logic.mode != HandoverSync {
        return;
      }
      var pending := handshake.PendingCommand();
      if !logic.teleopRequested {
        if syncStarted.Some? && wall - syncStarted.value >= cfg.syncTimeout {
          if pending == Some(SWITCH_SYNC) {
            PublishModeCommand(SWITCH_SYNC);
            syncStarted := Some(wall);
          }
        }
        return;
      }
      var teleop := handshake.TeleopReady();
      if teleop {
        CompleteSync();
        return;
      }
      var aligned := handshake.AlignedReady(wall);
      if aligned && pending != Some(SWITCH_TELEOP) {
        PublishModeCommand(SWITCH_TELEOP);
        handshake.StartTeleop();
        syncStarted := Some(wall);
        return;
      }
      if syncStarted.Some? && wall - syncStarted.value >= cfg.syncTimeout {
        if pending.Some? {
          PublishModeCommand(pending.value);
        }
        syncStarted := Some(wall);
      }
    }

    method CompleteSync()
      requires Valid()
      modifies this, logic, handshake
      ensures Valid() && log == old(log)
      ensures State() ==
        if old(State()).logic.CanComplete() then
          old(State()).(logic := LogicState(Human, false), absHold := false, hs := AT_REST, syncStarted := None)
        else old(State())
    {
      var ok := logic.SyncCompleted();
      if ok {
        absHold := false;
        handshake.Reset();
        syncStarted := None;
      }
    }

    method PublishPolicyAbs(target: Sample)
      requires Valid()
      modifies this`log
      ensures log == old(log) + AbsOut(cfg, target)
    {
      var left := FollowerPoseToLeaderAbs(target.left, cfg.left);
      if left.None? {
        return;
      }
      var right := FollowerPoseToLeaderAbs(target.right, cfg.right);
      if right.None? {
        return;
      }
      log := log + [AbsCommand(left.value, right.value)];
    }

    method OnJointTimer(now: real)
      requires Valid()
      modifies this
      ensures Valid()
      ensures var o := JointTimerStep(cfg, old(State()), now); State() == o.state && log == old(log) + o.out
    {
      var mode := logic.mode;
      if mode == Human {
        return;
      }
      if mode == HandoverSync && absHold {
        return;
      }
      if mode == HandoverSync {
        if holdTarget.Some? {
          PublishPolicyAbs(holdTarget.value);
        }
        return;
      }
      var sampled := player.Sample(now);
      if returnTime.Some? && holdTarget.None? {
        return;
      }
      if sampled.Some? {
        lastTarget := sampled;
        PublishPolicyAbs(sampled.value);
      } else if lastTarget.Some? {
        PublishPolicyAbs(lastTarget.value);
      }
    }

    method OnGripperTimer(now: real)
      requires Valid()
      modifies this`log
      ensures Valid() && State() == old(State())
      ensures log == old(log) + GripperOut(cfg, State(), now)
    {
      var mode := logic.mode;
      if mode == Human {
        return;
      }
      if mode == Autonomous && returnTime.Some? {
        return;
      }
      if mode == HandoverSync && absHold {
        return;
      }
      var target := holdTarget;
      if mode != HandoverSync {
        target := player.Sample(now);
      }
      if target.None? {
        target := lastTarget;
      }
      if target.None? {
        return;
      }
      log := log + [GripperCommand(cfg.GripperValue(target.value.leftGripper),
                                   cfg.GripperValue(target.value.rightGripper))];
    }

    method OnTeleopJoint(arm: ArmSide, leader: seq<Double>)
      requires Valid()
      modifies this`log
      ensures Valid() && State() == old(State())
      ensures log == old(log) + ArbStep(cfg, State(), TeleopJoint(arm, leader)).out
    {
      if logic.mode == Human {
        log := log + [RelCommand(arm, leader)];
      }
    }

    method OnTeleopGripper(arm: ArmSide, gripper: seq<Double>)
      requires Valid()
      modifies this`log
      ensures Valid() && State() == old(State())
      ensures log == old(log) + ArbStep(cfg, State(), TeleopGripper(arm, gripper)).out
    {
      if logic.mode == Human {
        log := log + [GripperForward(arm, gripper)];
      }
    }
  }
}
