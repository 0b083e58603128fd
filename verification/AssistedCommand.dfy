/** What is sent: with the assist on, the leader's pose on the session's references, compressed and slewed. */
module AssistedCommand {
  import opened Prelude
  import opened JointMath
  import opened JointFacts
  import opened ArmModel
  import opened ArmRuns
  import opened ArmTheorems
  import opened ResyncTheorems
  import opened AssistReversal

  /** The pose that one joint's references give the leader pose at hand, compressed near the limits. */
  function Eased(cfg: Config, st: ArmState, out: int): real
    requires st.gentoRef.Some? && 0 <= out < DOF
  {
    Compress(cfg.tanh, Remapped(cfg, st, out), cfg.minimum[out], cfg.maximum[out], cfg.compressDelta)
  }

  lemma UnblockedCommand(cfg: Config, st: ArmState, leader: Pose, f: Frame, out: int)
    requires Assisted(cfg) && Inv(cfg, st) && Open(st) && !Blocked(cfg, st, f) && 0 <= out < DOF
    ensures ShapedCommand(cfg, st, leader, f).desired[out] == Eased(cfg, Clutched(cfg, st, leader, f), out)
  {
    AssistNeverSaturates(cfg, st, leader, f);
    StillLeaderMaps(leader, Continued(cfg, st, leader), st.leaderContRef, ShapedCommand(cfg, st, leader, f).gentoRef,
                    cfg.order, cfg.signs, out);
  }

  lemma BlockedCommand(cfg: Config, st: ArmState, leader: Pose, f: Frame, out: int)
    requires Assisted(cfg) && Injective(cfg.order) && Inv(cfg, st) && Open(st) && Blocked(cfg, st, f) && 0 <= out < DOF
    ensures ShapedCommand(cfg, st, leader, f).desired[out] == Eased(cfg, Clutched(cfg, st, leader, f), out)
  {
    AssistNeverSaturates(cfg, st, leader, f);
    MappedFromRemapped(cfg, st, leader, out);
  }

  /** A frame's command is the new leader pose on the references that the frame leaves. */
  lemma FrameCommand(cfg: Config, st: ArmState, leader: Pose, f: Frame, out: int)
    requires Assisted(cfg) && Injective(cfg.order) && Inv(cfg, st) && Open(st) && 0 <= out < DOF
    ensures ShapedCommand(cfg, st, leader, f).desired[out] == Eased(cfg, Clutched(cfg, st, leader, f), out)
  {
    if Blocked(cfg, st, f) {
      BlockedCommand(cfg, st, leader, f, out);
    } else {
      UnblockedCommand(cfg, st, leader, f, out);
    }
  }

  lemma AssistedTarget(cfg: Config, st: ArmState, leader: Pose, f: Frame, seeded: bool, out: int)
    requires Assisted(cfg) && Inv(cfg, st) && Open(st) && 0 <= out < DOF
    ensures Track(cfg, st, leader, f, seeded).target.Some?
    ensures Track(cfg, st, leader, f, seeded).target.value[out]
      == LimitDelta(ShapedCommand(cfg, st, leader, f).desired[out], st.lastCommand.value[out], cfg.maxDelta)
  {
    AssistNeverSaturates(cfg, st, leader, f);
    ClampAfterSlewIsIdentity(ShapedCommand(cfg, st, leader, f).desired, st.lastCommand.value, cfg.minimum, cfg.maximum,
                             cfg.maxDelta);
  }

  /** The outcome of a tracked frame, in the state it works on. */
  lemma TrackedStep(cfg: Config, r: ArmRun, i: nat)
    requires IsRun(cfg, r) && i < |r.events| && Tracked(r, i)
    ensures var st, f := Before(cfg, r, i), r.events[i].frame;
      Inv(cfg, st) && Open(st) && r.outs[i] == Track(cfg, st, Values(f.positions), f, r.outs[i].seeded)
  {
    StepAt(cfg, r, i);
    TargetsAreTracked(cfg, r, i);
    TrackedOutcome(cfg, r.states[i], r.events[i].frame);
  }

  lemma UntouchedReference(cfg: Config, st: ArmState, leader: Pose, out: int)
    requires Open(st) && 0 <= out < DOF && !FrameLeash(cfg, st, leader, out).touched
    ensures FrameLeash(cfg, st, leader, out).ref == st.gentoRef.value[out]
  {
  }

  lemma UnblockedShift(cfg: Config, st: ArmState, leader: Pose, f: Frame, out: int)
    requires Assisted(cfg) && Open(st) && !Blocked(cfg, st, f) && 0 <= out < DOF
    requires !FrameLeash(cfg, st, leader, out).touched
    ensures Abs(ShapedCommand(cfg, st, leader, f).gentoRef[out] - st.gentoRef.value[out])
      <= Max(0.0, FrameRate(cfg, st, leader, f, out))
  {
    UntouchedReference(cfg, st, leader, out);
    AssistMoves(cfg, st, leader, f, out);
  }

  lemma MovedByAssist(cfg: Config, st: ArmState, leader: Pose, f: Frame, out: int)
    requires Assisted(cfg) && Open(st) && 0 <= out < DOF
    requires Blocked(cfg, st, f) || !FrameLeash(cfg, st, leader, out).touched
    ensures var shift := ShapedCommand(cfg, st, leader, f).gentoRef[out] - st.gentoRef.value[out];
      (Blocked(cfg, st, f) ==> shift == 0.0) && Abs(shift) <= Max(0.0, FrameRate(cfg, st, leader, f, out))
  {
    if Blocked(cfg, st, f) {
      BlockedReference(cfg, st, leader, f);
    } else {
      UnblockedShift(cfg, st, leader, f, out);
    }
  }

  lemma PoseMoves(cfg: Config, st: ArmState, leader: Pose, f: Frame, out: int)
    requires Assisted(cfg) && Injective(cfg.order) && Inv(cfg, st) && Open(st) && 0 <= out < DOF
    ensures Remapped(cfg, Clutched(cfg, st, leader, f), out)
      == Moved(Remapped(cfg, st, out), cfg.signs[out], FrameDelta(leader, st.leaderPrev)[cfg.order[out]])
         + (ShapedCommand(cfg, st, leader, f).gentoRef[out] - st.gentoRef.value[out])
  {
    MappedFromRemapped(cfg, st, leader, out);
    RemappedAfter(cfg, st, leader, f, out);
  }

  /** The pose moves by sign times the leader's motion, and at most one nudge on top; none when the assist is blocked. */
  predicate MovesWith(cfg: Config, st: ArmState, next: ArmState, leader: Pose, f: Frame, out: int)
    requires Open(st) && next.gentoRef.Some? && 0 <= out < DOF
  {
    var moved := Moved(Remapped(cfg, st, out), cfg.signs[out], FrameDelta(leader, st.leaderPrev)[cfg.order[out]]);
    && (Blocked(cfg, st, f) ==> Remapped(cfg, next, out) == moved)
    && Abs(Remapped(cfg, next, out) - moved) <= Max(0.0, FrameRate(cfg, st, leader, f, out))
  }

  lemma NextPose(cfg: Config, st: ArmState, next: ArmState, leader: Pose, f: Frame, out: int)
    requires Assisted(cfg) && Injective(cfg.order) && Inv(cfg, st) && Open(st) && 0 <= out < DOF
    requires SameRefs(next, Clutched(cfg, st, leader, f))
    requires Blocked(cfg, st, f) || !FrameLeash(cfg, st, leader, out).touched
    ensures MovesWith(cfg, st, next, leader, f, out)
  {
    PoseMoves(cfg, st, leader, f, out);
    MovedByAssist(cfg, st, leader, f, out);
    SameRemap(cfg, next, Clutched(cfg, st, leader, f), out);
  }

  /** The pose follows the leader's motion in every frame that the leash leaves alone. */
  lemma PoseFollowsMotion(cfg: Config, r: ArmRun, i: nat, out: int)
    requires IsRun(cfg, r) && Assisted(cfg) && Injective(cfg.order) && i < |r.events| && Tracked(r, i) && 0 <= out < DOF
    requires Unleashed(cfg, r, i, out)
    ensures Open(Before(cfg, r, i)) && r.states[i + 1].gentoRef.Some?
    ensures MovesWith(cfg, Before(cfg, r, i), r.states[i + 1], Values(r.events[i].frame.positions), r.events[i].frame, out)
  {
    TargetsAreTracked(cfg, r, i);
    SessionStep(cfg, r, i);
    NextPose(cfg, Before(cfg, r, i), r.states[i + 1], Values(r.events[i].frame.positions), r.events[i].frame, out);
  }

  lemma SameEased(cfg: Config, x: ArmState, y: ArmState, out: int)
    requires SameRefs(x, y) && x.gentoRef.Some? && 0 <= out < DOF
    ensures Eased(cfg, x, out) == Eased(cfg, y, out)
  {
  }

  /**
   * In every tracked frame of every assisted session, blocked or not, the target is the leader's pose on the session's
   * references, compressed near the limits, after the slew limit from the last command.
   */
  lemma TargetFollowsLeader(cfg: Config, r: ArmRun, i: nat, out: int)
    requires IsRun(cfg, r) && Assisted(cfg) && Injective(cfg.order) && i < |r.events| && Tracked(r, i) && 0 <= out < DOF
    ensures Open(Before(cfg, r, i)) && r.states[i + 1].gentoRef.Some?
    ensures r.outs[i].target.value[out]
      == LimitDelta(Eased(cfg, r.states[i + 1], out), Before(cfg, r, i).lastCommand.value[out], cfg.maxDelta)
  {
    var st, f := Before(cfg, r, i), r.events[i].frame;
    TrackedStep(cfg, r, i);
    SessionStep(cfg, r, i);
    AssistedTarget(cfg, st, Values(f.positions), f, r.outs[i].seeded, out);
    FrameCommand(cfg, st, Values(f.positions), f, out);
    SameEased(cfg, r.states[i + 1], Clutched(cfg, st, Values(f.positions), f), out);
  }

  /**
   * So a target that the slew limit does not hold back is within a zone's width of the leader's pose, clamped, and is
   * exactly that pose on a joint a zone's width inside its limits.
   */
  lemma TargetNearLeader(cfg: Config, r: ArmRun, i: nat, out: int)
    requires IsRun(cfg, r) && Assisted(cfg) && Injective(cfg.order) && i < |r.events| && Tracked(r, i) && 0 <= out < DOF
    ensures Open(Before(cfg, r, i)) && r.states[i + 1].gentoRef.Some?
    ensures var pose, t := Remapped(cfg, r.states[i + 1], out), r.outs[i].target.value[out];
      var d, last := SoftZone(cfg.compressDelta), Before(cfg, r, i).lastCommand.value[out];
      && (Abs(t - last) < cfg.maxDelta ==> Abs(t - Clamp(pose, cfg.minimum[out], cfg.maximum[out])) <= d)
      && (cfg.minimum[out] + d <= pose <= cfg.maximum[out] - d ==>
            (t == pose <==> Abs(pose - last) <= cfg.maxDelta))
  {
    TargetFollowsLeader(cfg, r, i, out);
    CompressNearClamp(cfg.tanh, Remapped(cfg, r.states[i + 1], out), cfg.minimum[out], cfg.maximum[out], cfg.compressDelta);
    LimitDeltaExact(Eased(cfg, r.states[i + 1], out), Before(cfg, r, i).lastCommand.value[out], cfg.maxDelta);
  }

  /** With the absolute mapping on the relative path, the target is the driver's absolute map, clamped and slewed. */
  lemma AbsoluteMappingIsSent(cfg: Config, r: ArmRun, i: nat, out: int)
    requires IsRun(cfg, r) && !cfg.relative && i < |r.events| && Tracked(r, i) && 0 <= out < DOF
    ensures Open(Before(cfg, r, i))
    ensures var leader := Values(r.events[i].frame.positions);
      var goal := Map(leader[cfg.order[out]], cfg.signs[out], cfg.offsets[out]);
      r.outs[i].target.value[out] == LimitDelta(Clamp(goal, cfg.minimum[out], cfg.maximum[out]),
                                                Before(cfg, r, i).lastCommand.value[out], cfg.maxDelta)
  {
    var st, f := Before(cfg, r, i), r.events[i].frame;
    var leader := Values(f.positions);
    TrackedStep(cfg, r, i);
    ClampAfterSlewIsIdentity(HardClamp(cfg, ShapedCommand(cfg, st, leader, f).desired), st.lastCommand.value, cfg.minimum,
                             cfg.maximum, cfg.maxDelta);
  }
}
