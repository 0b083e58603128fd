/** What the arms are told: held through a handover, kept at the measured pose after a return, and played from chunks. */
module ArbiterTheorems {
  import opened Prelude
  import opened JointMath
  import opened ControlMode
  import opened ChunkPlayer
  import opened ChunkContinuity
  import opened PolicyAbs
  import opened Arbiter
  import opened ArbiterRuns
  import opened HandshakeTheorems

  // ---- Absolute commands through the driver's map ----

  predicate Mapped(cfg: ArbConfig) {
    cfg.left.Usable() && cfg.right.Usable() && Injective(cfg.left.order) && Injective(cfg.right.order)
  }

  function Driven(leader: Pose, m: Mapping): Pose
    requires m.Usable()
  {
    JointMapping(leader, m.order, m.signs, m.offsets)
  }

  /** A single absolute command, which the driver's own maps turn into the two poses. */
  predicate Drives(cfg: ArbConfig, out: seq<Publication>, left: Pose, right: Pose)
    requires Mapped(cfg)
  {
    && |out| == 1 && out[0].AbsCommand?
    && Driven(out[0].left, cfg.left) == left && Driven(out[0].right, cfg.right) == right
  }

  lemma CommandDrives(cfg: ArbConfig, target: Sample)
    requires Mapped(cfg)
    ensures Drives(cfg, AbsOut(cfg, target), target.left, target.right)
  {
    DriverInvertsConversion(target.left, cfg.left);
    DriverInvertsConversion(target.right, cfg.right);
  }

  // ---- During a handover ----

  /** The target frozen by a takeover: what was playing, else the last target, else the measured pose. */
  function Frozen(r: Run, a: nat): Option<Sample>
    requires TookOver(r, a)
  {
    var st := r.states[a];
    if st.chunk.Some? then Some(SampleAt(st.chunk.value, r.events[a].now))
    else if st.lastTarget.Some? then st.lastTarget
    else FeedbackTarget(st.feedback, None)
  }

  lemma HandoverKeepsHold(cfg: ArbConfig, st: ArbState, ev: ArbEvent)
    requires st.logic.mode == HandoverSync && ArbStep(cfg, st, ev).state.logic.mode == HandoverSync
    ensures ArbStep(cfg, st, ev).state.holdTarget == st.holdTarget
  {
  }

  lemma {:induction false} HoldIsFrozen(cfg: ArbConfig, r: Run, a: nat, n: nat)
    requires IsRun(cfg, r) && n <= |r.events| && HandoverSince(r, a, n)
    ensures r.states[n].holdTarget == Frozen(r, a)
  {
    assert Linked(cfg, r, n - 1);
    if n > a + 1 {
      HoldIsFrozen(cfg, r, a, n - 1);
      HandoverKeepsHold(cfg, r.states[n - 1], r.events[n - 1]);
    }
  }

  /** Throughout a handover every absolute command is the one pose frozen at the takeover, until the operator's
    * enter_teleop silences them. */
  lemma HandoverHoldsStill(cfg: ArbConfig, r: Run, a: nat, n: nat)
    requires IsRun(cfg, r) && n < |r.events| && HandoverSince(r, a, n) && r.events[n].JointTimer? && Mapped(cfg)
    ensures r.states[n].logic.requested || Frozen(r, a).None? ==> r.outs[n] == []
    ensures !r.states[n].logic.requested && Frozen(r, a).Some? ==>
      Drives(cfg, r.outs[n], Frozen(r, a).value.left, Frozen(r, a).value.right)
  {
    assert Linked(cfg, r, n);
    AlwaysCoherent(cfg, r, n);
    HoldIsFrozen(cfg, r, a, n);
    if Frozen(r, a).Some? {
      CommandDrives(cfg, Frozen(r, a).value);
    }
  }

  // ---- After a return ----

  predicate PoseReport(r: Run, i: int) {
    0 <= i < |r.events| && r.events[i].JointStates? && |r.events[i].positions| >= 2 * DOF
  }

  /** The latest complete joint report before event `n`. */
  function LastReport(r: Run, n: nat): (k: Option<nat>)
    requires n <= |r.events|
    ensures k.Some? ==> k.value < n && PoseReport(r, k.value)
    ensures forall i :: (if k.Some? then k.value + 1 else 0) <= i < n ==> !PoseReport(r, i)
  {
    if n == 0 then None
    else if PoseReport(r, n - 1) then Some(n - 1)
    else LastReport(r, n - 1)
  }

  function LeftOf(ev: ArbEvent): Pose
    requires ev.JointStates? && |ev.positions| >= 2 * DOF
  {
    ev.positions[..DOF]
  }

  function RightOf(ev: ArbEvent): Pose
    requires ev.JointStates? && |ev.positions| >= 2 * DOF
  {
    ev.positions[DOF..2 * DOF]
  }

  predicate FeedbackIs(r: Run, n: nat)
    requires n <= |r.events|
  {
    var k, st := LastReport(r, n), r.states[n];
    if k.None? then st.feedback.None? && st.feedbackAt.None?
    else
      && st.feedback == Some(Followers(LeftOf(r.events[k.value]), RightOf(r.events[k.value])))
      && st.feedbackAt == Some(r.events[k.value].wall)
  }

  lemma FeedbackStep(cfg: ArbConfig, st: ArbState, ev: ArbEvent)
    ensures var next := ArbStep(cfg, st, ev).state;
      if ev.JointStates? && |ev.positions| >= 2 * DOF then
        next.feedback == Some(Followers(LeftOf(ev), RightOf(ev))) && next.feedbackAt == Some(ev.wall)
      else next.feedback == st.feedback && next.feedbackAt == st.feedbackAt
  {
  }

  lemma {:induction false} FeedbackIsLastReport(cfg: ArbConfig, r: Run, n: nat)
    requires IsRun(cfg, r) && n <= |r.events|
    ensures FeedbackIs(r, n)
  {
    if n > 0 {
      FeedbackIsLastReport(cfg, r, n - 1);
      assert Linked(cfg, r, n - 1);
      FeedbackStep(cfg, r.states[n - 1], r.events[n - 1]);
    }
  }

  /** Since the return at `b` there was no takeover and no chunk was accepted. */
  predicate ReturnedSince(cfg: ArbConfig, r: Run, b: nat, n: nat)
    requires n <= |r.events|
  {
    b < n && Returned(r, b) && forall i :: b < i < n ==> !TookOver(r, i) && !ChunkAccepted(cfg, r, i)
  }

  /** A pose that was recent at the return, or came after it. */
  predicate PoseKnown(cfg: ArbConfig, r: Run, b: nat, n: nat)
    requires b < n <= |r.events|
  {
    var k := LastReport(r, n);
    k.Some? && (b < k.value || WallOf(r.events[b]) - r.events[k.value].wall <= cfg.stale)
  }

  /** The arbiter's state while it waits for a chunk after a return. */
  predicate Waiting(st: ArbState, now: real, wall: real, known: bool) {
    && st.logic == LogicState(Autonomous, false) && st.chunk.None?
    && st.returnTime == Some(now) && st.returnWall == Some(wall) && (st.holdTarget.Some? <==> known)
  }

  lemma ReturnWaits(cfg: ArbConfig, st: ArbState, ev: ArbEvent)
    requires Coherent(st) && Return(st, ev)
    ensures Waiting(ArbStep(cfg, st, ev).state, ev.now, ev.wall, Recent(cfg, st, ev.wall))
  {
  }

  lemma WaitingContinues(cfg: ArbConfig, st: ArbState, ev: ArbEvent, now: real, wall: real, known: bool)
    requires Waiting(st, now, wall, known) && !Takeover(st, ev) && !NewChunk(cfg, st, ev)
    ensures Waiting(ArbStep(cfg, st, ev).state, now, wall,
                    known || (ev.JointStates? && |ev.positions| >= 2 * DOF))
  {
  }

  lemma {:induction false} WaitingSince(cfg: ArbConfig, r: Run, b: nat, n: nat)
    requires IsRun(cfg, r) && n <= |r.events| && ReturnedSince(cfg, r, b, n)
    ensures Waiting(r.states[n], r.events[b].now, WallOf(r.events[b]), PoseKnown(cfg, r, b, n))
  {
    assert Linked(cfg, r, n - 1);
    if n == b + 1 {
      AlwaysCoherent(cfg, r, b);
      FeedbackIsLastReport(cfg, r, b);
      ReturnWaits(cfg, r.states[b], r.events[b]);
    } else {
      WaitingSince(cfg, r, b, n - 1);
      assert !TookOver(r, n - 1) && !ChunkAccepted(cfg, r, n - 1);
      WaitingContinues(cfg, r.states[n - 1], r.events[n - 1], r.events[b].now, WallOf(r.events[b]),
                       PoseKnown(cfg, r, b, n - 1));
    }
  }

  lemma WaitingOutputs(cfg: ArbConfig, st: ArbState, ev: ArbEvent, now: real, wall: real, known: bool)
    requires Coherent(st) && Waiting(st, now, wall, known)
    ensures ev.GripperTimer? ==> ArbStep(cfg, st, ev).out == []
    ensures ev.JointTimer? ==> ArbStep(cfg, st, ev).out == if known then AbsOut(cfg, st.holdTarget.value) else []
  {
  }

  /** After a return, until a chunk is accepted or the next takeover: the player is empty, the grippers get nothing, and
    * each joint tick sends the arms exactly to the latest reported pose, or nothing while no recent pose is known. */
  lemma AfterReturnArmsFollowFeedback(cfg: ArbConfig, r: Run, b: nat, n: nat)
    requires IsRun(cfg, r) && n < |r.events| && ReturnedSince(cfg, r, b, n)
    ensures r.states[n].chunk.None? && (r.events[n].GripperTimer? ==> r.outs[n] == [])
    ensures r.events[n].JointTimer? && !PoseKnown(cfg, r, b, n) ==> r.outs[n] == []
    ensures r.events[n].JointTimer? && PoseKnown(cfg, r, b, n) && Mapped(cfg) ==>
      var k := LastReport(r, n).value; Drives(cfg, r.outs[n], LeftOf(r.events[k]), RightOf(r.events[k]))
  {
    assert Linked(cfg, r, n);
    AlwaysCoherent(cfg, r, n);
    WaitingSince(cfg, r, b, n);
    FeedbackIsLastReport(cfg, r, n);
    WaitingOutputs(cfg, r.states[n], r.events[n], r.events[b].now, WallOf(r.events[b]), PoseKnown(cfg, r, b, n));
    if PoseKnown(cfg, r, b, n) && Mapped(cfg) {
      CommandDrives(cfg, r.states[n].holdTarget.value);
    }
  }

  /** The arrays are long enough for a chunk of the player's size. */
  predicate WellSized(msg: Message) {
    && msg.size == STEPS && |msg.left| == |msg.right| == STEPS * DOF
    && |msg.leftGripper| == |msg.rightGripper| == STEPS
  }

  lemma WellSizedJoins(cfg: ArbConfig, st: ArbState, msg: Message, wall: real)
    requires WellSized(msg)
    ensures Joined(cfg, st, msg, wall).Some?
    ensures var j := Joined(cfg, st, msg, wall).value; |j.0| == |j.1| == STEPS * DOF
  {
  }

  /** Exactly when the policy callback raises: a fresh message that does not start near a recent pose, with joint arrays
    * of another length than its own chunk size says, or empty ones. A well-sized message never raises. */
  lemma PolicyRaisesIff(cfg: ArbConfig, st: ArbState, msg: Message, wall: real)
    ensures PolicyRaises(cfg, st, msg, wall) <==>
      && st.logic.mode == Autonomous && Fresh(cfg, st, msg.stamp, wall) && Recent(cfg, st, wall) && st.feedback.Some?
      && !SmallJump(cfg, msg, st.feedback.value)
      && !(|msg.left| == |msg.right| == msg.size * DOF && msg.size > 0)
    ensures WellSized(msg) ==> !PolicyRaises(cfg, st, msg, wall)
  {
    if msg.size > 0 {
      assert msg.size * DOF >= DOF;
    }
  }

  lemma OnlyWellSizedLoads(cfg: ArbConfig, st: ArbState, msg: Message, now: real, wall: real)
    requires st.logic.mode == Autonomous
    ensures Admitted(cfg, st, msg, now, wall).Some? <==>
      Fresh(cfg, st, msg.stamp, wall) && WellSized(msg) && msg.dt.Fin? && msg.dt.v > 0.0
  {
    if WellSized(msg) {
      WellSizedJoins(cfg, st, msg, wall);
    }
  }

  /** Which chunks end the wait after a return: well formed, and stamped at or after the return, or unstamped and
    * received since, or stamped earlier but received when the fallback time is over. */
  lemma ChunksAcceptedAfterReturn(cfg: ArbConfig, r: Run, b: nat, n: nat)
    requires IsRun(cfg, r) && n < |r.events| && ReturnedSince(cfg, r, b, n) && r.events[n].Policy?
    ensures var msg, wall := r.events[n].msg, r.events[n].wall;
      ChunkAccepted(cfg, r, n) <==>
        && WellSized(msg) && msg.dt.Fin? && msg.dt.v > 0.0
        && (|| (msg.stamp > 0.0 && msg.stamp >= r.events[b].now)
            || (msg.stamp == 0.0 && wall >= WallOf(r.events[b]))
            || (msg.stamp != 0.0 && wall - WallOf(r.events[b]) >= cfg.fallback))
  {
    WaitingSince(cfg, r, b, n);
    OnlyWellSizedLoads(cfg, r.states[n], r.events[n].msg, r.events[n].now, r.events[n].wall);
  }

  // ---- Playing a chunk ----

  /** Since the chunk at `p` was accepted there was no takeover and no newer chunk. */
  predicate PlayingSince(cfg: ArbConfig, r: Run, p: nat, n: nat)
    requires n <= |r.events|
  {
    p < n && ChunkAccepted(cfg, r, p) && forall i :: p < i < n ==> !TookOver(r, i) && !ChunkAccepted(cfg, r, i)
  }

  /** The chunk made from the message at `p`. */
  function ChunkOf(cfg: ArbConfig, r: Run, p: nat): (c: Chunk)
    requires ChunkAccepted(cfg, r, p)
    ensures c.Valid()
  {
    Admitted(cfg, r.states[p], r.events[p].msg, r.events[p].now, r.events[p].wall).value
  }

  predicate Plays(st: ArbState, c: Chunk) {
    st.logic.mode == Autonomous && st.returnTime.None? && st.chunk == Some(c)
  }

  lemma PlayingContinues(cfg: ArbConfig, st: ArbState, ev: ArbEvent, c: Chunk)
    requires Plays(st, c) && !Takeover(st, ev) && !NewChunk(cfg, st, ev)
    ensures Plays(ArbStep(cfg, st, ev).state, c)
  {
  }

  lemma {:induction false} StillPlaying(cfg: ArbConfig, r: Run, p: nat, n: nat)
    requires IsRun(cfg, r) && n <= |r.events| && PlayingSince(cfg, r, p, n)
    ensures Plays(r.states[n], ChunkOf(cfg, r, p))
  {
    assert Linked(cfg, r, n - 1);
    if n > p + 1 {
      StillPlaying(cfg, r, p, n - 1);
      assert !TookOver(r, n - 1) && !ChunkAccepted(cfg, r, n - 1);
      PlayingContinues(cfg, r.states[n - 1], r.events[n - 1], ChunkOf(cfg, r, p));
    }
  }

  /** Both arms' first steps are within the allowed jump of the pose. */
  predicate StartsNear(cfg: ArbConfig, msg: Message, pose: Followers)
    requires WellSized(msg)
  {
    Near(msg.left[..DOF], pose.left, cfg.MaxJump()) && Near(msg.right[..DOF], pose.right, cfg.MaxJump())
  }

  /** Every step of `loaded` is the sent step moved by one displacement: none without a pose or when the chunk starts
    * near it, otherwise the one that puts the first step on the pose. */
  predicate JoinedArm(sent: seq<real>, loaded: seq<real>, pose: Option<Pose>, near: bool, bound: real) {
    && |loaded| == |sent| == STEPS * DOF
    && (forall k :: 0 <= k < STEPS * DOF ==> loaded[k] - loaded[k % DOF] == sent[k] - sent[k % DOF])
    && (pose.None? || near ==> loaded == sent)
    && (pose.Some? && !near ==> loaded[..DOF] == pose.value)
    && (pose.Some? ==> Near(loaded[..DOF], pose.value, bound))
  }

  lemma RebasedJoins(sent: seq<real>, pose: Pose, bound: real)
    requires |sent| == STEPS * DOF && bound >= 0.0
    ensures JoinedArm(sent, Rebased(sent, pose, STEPS).value, Some(pose), false, bound)
  {
    var loaded := Rebased(sent, pose, STEPS).value;
    forall k | 0 <= k < STEPS * DOF
      ensures loaded[k] - loaded[k % DOF] == sent[k] - sent[k % DOF]
    {
      assert loaded[k] == RebasedAt(sent, pose, k) && loaded[k % DOF] == RebasedAt(sent, pose, k % DOF);
    }
    forall i | 0 <= i < DOF
      ensures loaded[..DOF][i] == pose[i]
    {
      RebaseShiftsWhole(sent, pose, STEPS, i);
    }
  }

  function PoseFor(cfg: ArbConfig, st: ArbState, wall: real): Option<Followers> {
    if Recent(cfg, st, wall) then st.feedback else None
  }

  lemma SmallJumpIsNear(cfg: ArbConfig, msg: Message, pose: Followers)
    requires WellSized(msg)
    ensures SmallJump(cfg, msg, pose) <==> StartsNear(cfg, msg, pose)
  {
    JumpIsLeastBound(DOF, msg.left, msg.right, pose.left, pose.right, cfg.MaxJump());
  }

  lemma NearJoins(sent: seq<real>, pose: Pose, bound: real)
    requires |sent| == STEPS * DOF && Near(sent[..DOF], pose, bound)
    ensures JoinedArm(sent, sent, Some(pose), true, bound)
  {
  }

  /** How the arrays of a chunk relate to the message and to the pose, when there is one. */
  predicate JoinedTo(cfg: ArbConfig, msg: Message, left: seq<real>, right: seq<real>, pose: Option<Followers>)
    requires WellSized(msg)
  {
    var near := pose.Some? && StartsNear(cfg, msg, pose.value);
    && JoinedArm(msg.left, left, LeftPose(pose), near, cfg.MaxJump())
    && JoinedArm(msg.right, right, RightPose(pose), near, cfg.MaxJump())
  }

  function LeftPose(pose: Option<Followers>): Option<Pose> {
    if pose.Some? then Some(pose.value.left) else None
  }

  function RightPose(pose: Option<Followers>): Option<Pose> {
    if pose.Some? then Some(pose.value.right) else None
  }

  /** A well-sized chunk is joined to a recent pose on all fourteen joints, and keeps its own motion. */
  lemma ChunkStartsAtPose(cfg: ArbConfig, st: ArbState, msg: Message, wall: real)
    requires WellSized(msg) && Joined(cfg, st, msg, wall).Some?
    ensures var j := Joined(cfg, st, msg, wall).value; JoinedTo(cfg, msg, j.0, j.1, PoseFor(cfg, st, wall))
  {
    var j, pose := Joined(cfg, st, msg, wall).value, PoseFor(cfg, st, wall);
    if pose.Some? {
      SmallJumpIsNear(cfg, msg, pose.value);
      if SmallJump(cfg, msg, pose.value) {
        assert j == (msg.left, msg.right);
        NearJoins(msg.left, pose.value.left, cfg.MaxJump());
        NearJoins(msg.right, pose.value.right, cfg.MaxJump());
      } else {
        RebasedJoins(msg.left, pose.value.left, cfg.MaxJump());
        RebasedJoins(msg.right, pose.value.right, cfg.MaxJump());
      }
    }
  }

  function StepPose(flat: seq<real>, k: nat): Pose
    requires |flat| == STEPS * DOF && k < STEPS
  {
    flat[k * DOF..k * DOF + DOF]
  }

  lemma ChunkIsTheMessage(cfg: ArbConfig, r: Run, p: nat)
    requires ChunkAccepted(cfg, r, p)
    ensures var c, msg, st := ChunkOf(cfg, r, p), r.events[p].msg, r.states[p];
      && WellSized(msg) && c.dt == msg.dt.v && c.leftGripper == msg.leftGripper && c.rightGripper == msg.rightGripper
      && c.t0 == (if FreshByStamp(st, msg.stamp) then msg.stamp else r.events[p].now)
      && Joined(cfg, st, msg, r.events[p].wall) == Some((c.left, c.right))
  {
    OnlyWellSizedLoads(cfg, r.states[p], r.events[p].msg, r.events[p].now, r.events[p].wall);
  }

  /** End to end: each joint tick sends the arms exactly to the step that the clock selects from the accepted message,
    * displaced as a whole so that the first step starts within the allowed jump of a recently measured pose. */
  lemma ChunkReachesTheArms(cfg: ArbConfig, r: Run, p: nat, n: nat)
    requires IsRun(cfg, r) && n < |r.events| && PlayingSince(cfg, r, p, n) && r.events[n].JointTimer? && Mapped(cfg)
    ensures var c, msg, pose := ChunkOf(cfg, r, p), r.events[p].msg, PoseFor(cfg, r.states[p], r.events[p].wall);
      var k := StepAt(c, r.events[n].now);
      && WellSized(msg) && c.dt == msg.dt.v
      && c.t0 == (if FreshByStamp(r.states[p], msg.stamp) then msg.stamp else r.events[p].now)
      && Drives(cfg, r.outs[n], StepPose(c.left, k), StepPose(c.right, k))
      && JoinedTo(cfg, msg, c.left, c.right, pose)
  {
    ChunkIsTheMessage(cfg, r, p);
    ChunkStartsAtPose(cfg, r.states[p], r.events[p].msg, r.events[p].wall);
    StillPlaying(cfg, r, p, n);
    assert Linked(cfg, r, n);
    CommandDrives(cfg, SampleAt(ChunkOf(cfg, r, p), r.events[n].now));
  }

  /** The grippers get the same step's values, inverted if the driver expects that. */
  lemma ChunkReachesTheGrippers(cfg: ArbConfig, r: Run, p: nat, n: nat)
    requires IsRun(cfg, r) && n < |r.events| && PlayingSince(cfg, r, p, n) && r.events[n].GripperTimer?
    ensures WellSized(r.events[p].msg)
    ensures var msg, k := r.events[p].msg, StepAt(ChunkOf(cfg, r, p), r.events[n].now);
      r.outs[n] == [GripperCommand(cfg.GripperValue(msg.leftGripper[k]), cfg.GripperValue(msg.rightGripper[k]))]
  {
    ChunkIsTheMessage(cfg, r, p);
    StillPlaying(cfg, r, p, n);
    assert Linked(cfg, r, n);
  }
}
