/** Which policy messages are accepted, and exactly what the arbiter publishes besides absolute commands. */
module ArbiterOutputs {
  import opened Prelude
  import opened ControlMode
  import opened TeleopSync
  import opened ChunkPlayer
  import opened Arbiter
  import opened ArbiterRuns
  import opened HandshakeTheorems
  import opened ArbiterTheorems

  // ---- Acceptance of policy messages ----

  /** The latest return after which no chunk was accepted yet. */
  function PendingReturn(cfg: ArbConfig, r: Run, n: nat): (b: Option<nat>)
    requires n <= |r.events|
    ensures b.Some? ==> b.value < n && Returned(r, b.value)
  {
    if n == 0 then None
    else if Returned(r, n - 1) then Some(n - 1)
    else if ChunkAccepted(cfg, r, n - 1) then None
    else PendingReturn(cfg, r, n - 1)
  }

  /** The return times say which return is pending. */
  predicate TimesSay(st: ArbState, r: Run, b: Option<nat>)
    requires b.Some? ==> b.value < |r.events| && Returned(r, b.value)
  {
    if b.None? then st.returnTime.None? && st.returnWall.None?
    else st.returnTime == Some(r.events[b.value].now) && st.returnWall == Some(WallOf(r.events[b.value]))
  }

  lemma TimesStep(cfg: ArbConfig, st: ArbState, ev: ArbEvent)
    ensures var next := ArbStep(cfg, st, ev).state;
      if Return(st, ev) then next.returnTime == Some(ev.now) && next.returnWall == Some(ev.wall)
      else if NewChunk(cfg, st, ev) then next.returnTime.None? && next.returnWall.None?
      else next.returnTime == st.returnTime && next.returnWall == st.returnWall
  {
  }

  lemma {:induction false} TimesSayPendingReturn(cfg: ArbConfig, r: Run, n: nat)
    requires IsRun(cfg, r) && n <= |r.events|
    ensures TimesSay(r.states[n], r, PendingReturn(cfg, r, n))
  {
    if n > 0 {
      TimesSayPendingReturn(cfg, r, n - 1);
      assert Linked(cfg, r, n - 1);
      TimesStep(cfg, r.states[n - 1], r.events[n - 1]);
    }
  }

  /** A message whose stamp or receipt lies after a return, or that comes once the fallback time is over. */
  predicate FreshSince(cfg: ArbConfig, ev: ArbEvent, back: ArbEvent)
    requires ev.Policy? && back.Intervention?
  {
    || (ev.msg.stamp > 0.0 && ev.msg.stamp >= back.now)
    || (ev.msg.stamp == 0.0 && ev.wall >= back.wall)
    || (ev.msg.stamp != 0.0 && ev.wall - back.wall >= cfg.fallback)
  }

  /**
   * Exactly which policy messages are accepted, in every run: in AUTONOMOUS, well sized with a finite positive dt, and, only
   * if a return is still waiting for its first chunk, fresh since that return.
   */
  lemma ChunkAcceptedIff(cfg: ArbConfig, r: Run, n: nat)
    requires IsRun(cfg, r) && n < |r.events| && r.events[n].Policy?
    ensures var msg, b := r.events[n].msg, PendingReturn(cfg, r, n);
      ChunkAccepted(cfg, r, n) <==>
        && r.states[n].logic.mode == Autonomous && WellSized(msg) && msg.dt.Fin? && msg.dt.v > 0.0
        && (b.Some? ==> FreshSince(cfg, r.events[n], r.events[b.value]))
  {
    TimesSayPendingReturn(cfg, r, n);
    if r.states[n].logic.mode == Autonomous {
      OnlyWellSizedLoads(cfg, r.states[n], r.events[n].msg, r.events[n].now, r.events[n].wall);
    }
  }

  /** When an accepted chunk starts to play: at its stamp, unless it only counts as fresh by its receipt after a return. */
  lemma ChunkStartTime(cfg: ArbConfig, r: Run, p: nat)
    requires IsRun(cfg, r) && ChunkAccepted(cfg, r, p)
    ensures var ev, b := r.events[p], PendingReturn(cfg, r, p);
      ChunkOf(cfg, r, p).t0 ==
        if b.None? || (ev.msg.stamp > 0.0 && ev.msg.stamp >= r.events[b.value].now) then ev.msg.stamp else ev.now
  {
    TimesSayPendingReturn(cfg, r, p);
    ChunkIsTheMessage(cfg, r, p);
  }

  predicate Untouched(st: ArbState) {
    st.logic == LogicState(Autonomous, false) && st.chunk.None? && st.returnTime.None? && st.lastTarget.None?
  }

  lemma UntouchedStep(cfg: ArbConfig, st: ArbState, ev: ArbEvent, p: Publication)
    requires Untouched(st)
    ensures !Takeover(st, ev) && !NewChunk(cfg, st, ev) ==> Untouched(ArbStep(cfg, st, ev).state)
    ensures p in ArbStep(cfg, st, ev).out ==> !FromPolicy(p) && !FromTeleop(p)
  {
  }

  /** Until the first chunk is accepted or the first takeover, the arbiter moves nothing. */
  lemma {:induction false} SilentBeforeTheFirstChunk(cfg: ArbConfig, r: Run, n: nat)
    requires IsRun(cfg, r) && n <= |r.events| && forall i :: 0 <= i < n ==> !TookOver(r, i) && !ChunkAccepted(cfg, r, i)
    ensures Untouched(r.states[n])
    ensures n < |r.events| ==> !PolicyAt(r, n) && !TeleopAt(r, n)
  {
    if n > 0 {
      SilentBeforeTheFirstChunk(cfg, r, n - 1);
      assert Linked(cfg, r, n - 1);
      assert !TookOver(r, n - 1) && !ChunkAccepted(cfg, r, n - 1);
      UntouchedStep(cfg, r.states[n - 1], r.events[n - 1], HoldRequest);
    }
    if n < |r.events| {
      assert Linked(cfg, r, n);
      forall p | p in r.outs[n]
        ensures !FromPolicy(p) && !FromTeleop(p)
      {
        UntouchedStep(cfg, r.states[n], r.events[n], p);
      }
    }
  }

  // ---- Mode commands ----

  /** What the operator's accepted commands publish first: the leader's sync, the hold, the configured return command. */
  lemma OperatorCommandsPublish(cfg: ArbConfig, r: Run, i: nat)
    requires IsRun(cfg, r) && i < |r.events|
    ensures TookOver(r, i) ==> r.outs[i] == [ModeCommand("switch_sync")]
    ensures Returned(r, i) ==>
      r.outs[i] == [ModeCommand(if cfg.returnMode == "switch_stop" then "switch_stop" else "switch_sync")]
    ensures r.events[i].Intervention? && !TookOver(r, i) && !AskedToEnter(r, i) && !Returned(r, i) ==>
      r.outs[i] == [] && r.states[i + 1] == r.states[i]
  {
    assert Linked(cfg, r, i);
  }

  lemma AskIffWaits(cfg: ArbConfig, st: ArbState, ev: ArbEvent)
    requires Coherent(st) && st.logic.mode == HandoverSync && ArbStep(cfg, st, ev).state.logic.mode == HandoverSync
    ensures var o := ArbStep(cfg, st, ev);
      o.state.hs.phase == WaitTeleop <==> st.hs.phase == WaitTeleop || ModeCommand(SWITCH_TELEOP) in o.out
  {
    if EnterTeleop(st, ev) {
      EnterEffect(cfg, st, ev);
    } else if ev.SyncTimer? {
      TimerEffect(cfg, st, ev.wall);
    } else if !ev.TeleopState? && !Takeover(st, ev) && !Return(st, ev) {
      OthersKeepHandshake(cfg, st, ev);
    }
  }

  /** switch_teleop has been published since the takeover. */
  predicate TeleopAskedSince(r: Run, a: nat, n: nat) {
    exists p :: a < p < n && AsksTeleop(r, p)
  }

  lemma {:induction false} PhaseSays(cfg: ArbConfig, r: Run, a: nat, n: nat)
    requires IsRun(cfg, r) && n <= |r.events| && HandoverSince(r, a, n)
    ensures r.states[n].hs.phase == if TeleopAskedSince(r, a, n) then WaitTeleop else WaitAligned
    decreases n
  {
    AlwaysCoherent(cfg, r, n);
    AlwaysCoherent(cfg, r, n - 1);
    assert Linked(cfg, r, n - 1);
    if a + 1 < n {
      PhaseSays(cfg, r, a, n - 1);
      AskIffWaits(cfg, r.states[n - 1], r.events[n - 1]);
      assert TeleopAskedSince(r, a, n) <==> TeleopAskedSince(r, a, n - 1) || AsksTeleop(r, n - 1);
    }
  }

  /** The latest time since the takeover at which the source was prompted: a takeover, an accepted enter_teleop, or a sync
    * timer that published. */
  function LastPrompt(r: Run, n: nat): Option<real>
    requires n <= |r.events|
  {
    if n == 0 then None
    else if TookOver(r, n - 1) || AskedToEnter(r, n - 1) || (r.events[n - 1].SyncTimer? && r.outs[n - 1] != []) then
      Some(WallOf(r.events[n - 1]))
    else LastPrompt(r, n - 1)
  }

  lemma PromptStep(cfg: ArbConfig, st: ArbState, ev: ArbEvent)
    requires Coherent(st) && ArbStep(cfg, st, ev).state.logic.mode == HandoverSync
    ensures var o := ArbStep(cfg, st, ev);
      if Takeover(st, ev) || EnterTeleop(st, ev) || (ev.SyncTimer? && o.out != []) then
        o.state.syncStarted == Some(WallOf(ev))
      else st.logic.mode == HandoverSync && o.state.syncStarted == st.syncStarted
  {
  }

  lemma {:induction false} TimerRunsSincePrompt(cfg: ArbConfig, r: Run, n: nat)
    requires IsRun(cfg, r) && n <= |r.events| && r.states[n].logic.mode == HandoverSync
    ensures r.states[n].syncStarted == LastPrompt(r, n) && LastPrompt(r, n).Some?
    decreases n
  {
    assert r.states[0] == INITIAL;
    assert Linked(cfg, r, n - 1);
    AlwaysCoherent(cfg, r, n - 1);
    PromptStep(cfg, r.states[n - 1], r.events[n - 1]);
    if !(TookOver(r, n - 1) || AskedToEnter(r, n - 1) || (r.events[n - 1].SyncTimer? && r.outs[n - 1] != [])) {
      TimerRunsSincePrompt(cfg, r, n - 1);
    }
  }

  lemma TimerPublishes(cfg: ArbConfig, st: ArbState, wall: real)
    requires Coherent(st) && st.logic.mode == HandoverSync && st.syncStarted.Some?
    ensures var o := ArbStep(cfg, st, SyncTimer(wall));
      o.state.logic.mode == HandoverSync && o.state.hs.phase == st.hs.phase ==>
        o.out == if wall - st.syncStarted.value >= cfg.syncTimeout then
            [ModeCommand(if st.hs.phase == WaitTeleop then SWITCH_TELEOP else SWITCH_SYNC)] else []
  {
  }

  /**
   * Retransmission: a sync timer that neither completes the handover nor asks for teleoperation repeats the command that is
   * still unanswered, exactly when the last prompt is the sync timeout ago; it is switch_teleop once that was published.
   */
  lemma UnansweredCommandIsRepeated(cfg: ArbConfig, r: Run, a: nat, n: nat)
    requires IsRun(cfg, r) && n < |r.events| && HandoverSince(r, a, n) && r.events[n].SyncTimer?
    requires r.states[n + 1].logic.mode == HandoverSync && r.states[n + 1].hs.phase == r.states[n].hs.phase
    ensures LastPrompt(r, n).Some?
    ensures r.outs[n] ==
      if r.events[n].wall - LastPrompt(r, n).value >= cfg.syncTimeout then
        [ModeCommand(if TeleopAskedSince(r, a, n) then "switch_teleop" else "switch_sync")]
      else []
  {
    assert Linked(cfg, r, n);
    AlwaysCoherent(cfg, r, n);
    TimerRunsSincePrompt(cfg, r, n);
    PhaseSays(cfg, r, a, n);
    TimerPublishes(cfg, r.states[n], r.events[n].wall);
  }

  // ---- Forwarding ----

  /** In HUMAN, and only there, each message of the teleoperation is forwarded as it is, to its own arm, at once. */
  lemma ForwardedIff(cfg: ArbConfig, r: Run, i: nat, arm: ArmSide, msg: seq<Double>)
    requires IsRun(cfg, r) && i < |r.events|
    ensures RelCommand(arm, msg) in r.outs[i] <==> r.events[i] == TeleopJoint(arm, msg) && r.states[i].logic.mode == Human
    ensures GripperForward(arm, msg) in r.outs[i] <==>
      r.events[i] == TeleopGripper(arm, msg) && r.states[i].logic.mode == Human
  {
    assert Linked(cfg, r, i);
    if r.states[i].logic.mode == Human && (r.events[i].TeleopJoint? || r.events[i].TeleopGripper?) {
      assert r.outs[i][0] in r.outs[i];
    }
  }

  // ---- Grippers ----

  /** Inverting twice changes nothing, inversion exchanges open and closed, and without it values pass. */
  lemma GripperInversion(cfg: ArbConfig, v: real)
    ensures cfg.GripperValue(cfg.GripperValue(v)) == v && (0.0 <= v <= 1.0 <==> 0.0 <= cfg.GripperValue(v) <= 1.0)
    ensures cfg.GripperValue(0.0) == if cfg.invertGripper then 1.0 else 0.0
    ensures cfg.GripperValue(v) == v <==> !cfg.invertGripper || v == 0.5
  {
  }

  lemma GripperStep(cfg: ArbConfig, st: ArbState, ev: ArbEvent)
    requires st.logic.mode == HandoverSync && ArbStep(cfg, st, ev).state.logic.mode == HandoverSync
    ensures ArbStep(cfg, st, ev).state.lastTarget == st.lastTarget
  {
  }

  lemma {:induction false} LastTargetIsFrozen(cfg: ArbConfig, r: Run, a: nat, n: nat)
    requires IsRun(cfg, r) && n <= |r.events| && HandoverSince(r, a, n)
    ensures Frozen(r, a).None? ==> r.states[n].lastTarget.None?
    decreases n
  {
    assert Linked(cfg, r, n - 1);
    if a + 1 < n {
      LastTargetIsFrozen(cfg, r, a, n - 1);
      GripperStep(cfg, r.states[n - 1], r.events[n - 1]);
    }
  }

  /** Throughout a handover the grippers get the values frozen at the takeover, until enter_teleop silences them. */
  lemma HandoverHoldsGrippers(cfg: ArbConfig, r: Run, a: nat, n: nat)
    requires IsRun(cfg, r) && n < |r.events| && HandoverSince(r, a, n) && r.events[n].GripperTimer?
    ensures r.outs[n] ==
      if r.states[n].logic.requested || Frozen(r, a).None? then []
      else [GripperCommand(cfg.GripperValue(Frozen(r, a).value.leftGripper),
                           cfg.GripperValue(Frozen(r, a).value.rightGripper))]
  {
    assert Linked(cfg, r, n);
    AlwaysCoherent(cfg, r, n);
    HoldIsFrozen(cfg, r, a, n);
    LastTargetIsFrozen(cfg, r, a, n);
  }

  predicate SameGrippers(target: Option<Sample>, left: real, right: real) {
    target.Some? ==> target.value.leftGripper == left && target.value.rightGripper == right
  }

  /** The gripper values that a return carries over: those of the last target, if the pose is recent enough to hold. */
  function Carried(cfg: ArbConfig, r: Run, b: nat): (real, real)
    requires Returned(r, b)
  {
    var st := r.states[b];
    if Recent(cfg, st, r.events[b].wall) && st.lastTarget.Some? then
      (st.lastTarget.value.leftGripper, st.lastTarget.value.rightGripper)
    else (0.0, 0.0)
  }

  lemma CarryStep(cfg: ArbConfig, st: ArbState, ev: ArbEvent, now: real, wall: real, known: bool, left: real, right: real)
    requires Coherent(st) && Waiting(st, now, wall, known) && !Takeover(st, ev) && !NewChunk(cfg, st, ev)
    requires SameGrippers(st.lastTarget, left, right) && (known || (left == 0.0 && right == 0.0))
    ensures SameGrippers(ArbStep(cfg, st, ev).state.lastTarget, left, right)
  {
  }

  /** After a return the held targets keep the grippers where the last target had them. */
  lemma {:induction false} ReturnKeepsGrippers(cfg: ArbConfig, r: Run, b: nat, n: nat)
    requires IsRun(cfg, r) && n <= |r.events| && ReturnedSince(cfg, r, b, n)
    ensures SameGrippers(r.states[n].lastTarget, Carried(cfg, r, b).0, Carried(cfg, r, b).1)
    decreases n
  {
    AlwaysCoherent(cfg, r, n - 1);
    assert Linked(cfg, r, n - 1);
    if b + 1 < n {
      ReturnKeepsGrippers(cfg, r, b, n - 1);
      ArbiterTheorems.WaitingSince(cfg, r, b, n - 1);
      FeedbackIsLastReport(cfg, r, b);
      assert !TookOver(r, n - 1) && !ChunkAccepted(cfg, r, n - 1);
      CarryStep(cfg, r.states[n - 1], r.events[n - 1], r.events[b].now, WallOf(r.events[b]), PoseKnown(cfg, r, b, n - 1),
                Carried(cfg, r, b).0, Carried(cfg, r, b).1);
    }
  }
}
