/** Resuming relative control after an absolute stream: the first frame reseeds and does not jump. */
module ResumeTheorems {
  import opened Prelude
  import opened JointMath
  import opened JointFacts
  import opened ArmModel
  import opened ArmRuns
  import opened ArmTheorems
  import opened ResyncTheorems
  import opened AssistedCommand

  /** Relative frames that arrive while the absolute path owns the arm change nothing. */
  lemma IgnoredWhileAbsoluteActive(cfg: Config, st: ArmState, f: Frame)
    requires cfg.Valid() && Inv(cfg, st) && PathActive(cfg, st, true, f.now)
    ensures Step(cfg, st, Relative(f)) == Quiet(st)
  {
  }

  /** From an absolute stream on, the first relative frame that is tracked opens a new session. */
  lemma {:induction false} ResumeReseeds(cfg: Config, r: ArmRun, i: nat, j: nat)
    requires IsRun(cfg, r) && i <= j < |r.events| && r.states[i].absStreaming
    requires forall k :: i <= k < j ==> !Tracked(r, k)
    ensures !r.states[j].streaming
    ensures Tracked(r, j) ==> r.outs[j].seeded
    decreases j
  {
    OneOwner(cfg, r, j);
    if i < j {
      ResumeReseeds(cfg, r, i, j - 1);
      SessionStep(cfg, r, j - 1);
    }
    TargetsAreTracked(cfg, r, j);
  }

  lemma SeedMapsToFeedback(cfg: Config, st: ArmState, leader: Pose, measured: Pose)
    requires cfg.Valid() && cfg.relative
    ensures var open := Seed(cfg, st, leader, measured);
      && Mapped(cfg, open, leader) == HardClamp(cfg, measured)
      && Continued(cfg, open, leader) == leader
      && FrameDelta(leader, open.leaderPrev) == ORIGIN
  {
    var open := Seed(cfg, st, leader, measured);
    StillLeader(DOF, leader, leader, cfg.order);
    forall out | 0 <= out < DOF
      ensures Mapped(cfg, open, leader)[out] == HardClamp(cfg, measured)[out]
    {
      StillLeaderMaps(leader, leader, leader, HardClamp(cfg, measured), cfg.order, cfg.signs, out);
      FollowAdds(HardClamp(cfg, measured)[out], cfg.signs[out], leader[cfg.order[out]], leader[cfg.order[out]], 0.0);
    }
  }

  /** Assist off: a session opens exactly on the clamped measured pose. */
  lemma ResumeIsBumplessUnassisted(cfg: Config, r: ArmRun, i: nat)
    requires IsRun(cfg, r) && cfg.relative && !cfg.assist && i < |r.events| && OpensSession(r, i)
    ensures r.outs[i].target == Some(HardClamp(cfg, r.events[i].frame.seed.value))
  {
    var st, f := r.states[i], r.events[i].frame;
    var feedback := HardClamp(cfg, f.seed.value);
    StepAt(cfg, r, i);
    TargetsAreTracked(cfg, r, i);
    SeedMapsToFeedback(cfg, st, Values(f.positions), f.seed.value);
    ClampAfterSlewIsIdentity(feedback, feedback, cfg.minimum, cfg.maximum, cfg.maxDelta);
  }

  /** The resync rate limit of a frame that opens a session: no motion, the shortest cycle, the time at rest so far. */
  function OpeningRate(cfg: Config, st: ArmState): real {
    RateLimit(cfg, 0.0, 0.004, IdleScale(cfg, StillAfter(cfg, st.still, ORIGIN, 0.004)))
  }

  lemma OpeningState(cfg: Config, st: ArmState, f: Frame)
    requires Assisted(cfg) && !st.streaming && |f.positions| == DOF && f.seed.Some?
    ensures var leader := Values(f.positions); var open := Seed(cfg, st, leader, f.seed.value);
      && Mapped(cfg, open, leader) == open.gentoRef.value == HardClamp(cfg, f.seed.value)
      && forall out :: 0 <= out < DOF ==>
           && FrameRate(cfg, open, leader, f, out) == OpeningRate(cfg, st)
           && FrameLeash(cfg, open, leader, out) == Leashed(open.gentoRef.value[out], open.gentoRef.value[out], false)
  {
    SeedMapsToFeedback(cfg, st, Values(f.positions), f.seed.value);
  }

  /** The command of a frame that opens a session, on the reference as the assist leaves it. */
  lemma OpeningCommand(cfg: Config, st: ArmState, f: Frame, out: int)
    requires Assisted(cfg) && !st.streaming && |f.positions| == DOF && f.seed.Some? && 0 <= out < DOF
    ensures var leader := Values(f.positions); var open := Seed(cfg, st, leader, f.seed.value);
      var shaped := ShapedCommand(cfg, open, leader, f);
      && shaped.desired[out] ==
           Compress(cfg.tanh, shaped.gentoRef[out], cfg.minimum[out], cfg.maximum[out], cfg.compressDelta)
      && (Blocked(cfg, open, f) ==> shaped.gentoRef == open.gentoRef.value)
  {
    var leader := Values(f.positions);
    var open := Seed(cfg, st, leader, f.seed.value);
    var ref := ShapedCommand(cfg, open, leader, f).gentoRef;
    SeedMapsToFeedback(cfg, st, leader, f.seed.value);
    StillLeaderMaps(leader, leader, leader, ref, cfg.order, cfg.signs, out);
    FollowAdds(ref[out], cfg.signs[out], leader[cfg.order[out]], leader[cfg.order[out]], 0.0);
  }

  /** The follower reference that a session starts with: the measured pose, nudged by at most the opening rate. */
  lemma OpeningReference(cfg: Config, st: ArmState, f: Frame, out: int)
    requires Assisted(cfg) && Inv(cfg, st) && !st.streaming && |f.positions| == DOF && f.seed.Some? && 0 <= out < DOF
    ensures var leader, m := Values(f.positions), HardClamp(cfg, f.seed.value)[out];
      var open := Seed(cfg, st, leader, f.seed.value); var ref := ShapedCommand(cfg, open, leader, f).gentoRef[out];
      && Abs(ref - m) <= Max(0.0, OpeningRate(cfg, st))
      && (ref != m <==>
            !Blocked(cfg, open, f) && OpeningRate(cfg, st) > 0.0 && FrameAdmits(cfg, open, leader, f, out) &&
            Offset(m, cfg.signs[out], leader[cfg.order[out]]) != cfg.offsets[out])
  {
    var leader := Values(f.positions);
    var open := Seed(cfg, st, leader, f.seed.value);
    OpeningState(cfg, st, f);
    OpeningCommand(cfg, st, f, out);
    if !Blocked(cfg, open, f) {
      NudgedReference(cfg, open, leader, f, out);
      var m, lo, hi := open.gentoRef.value[out], cfg.minimum[out], cfg.maximum[out];
      ResyncActsIff(LeashedOffset(cfg, open, leader, out), cfg.offsets[out], Compress(cfg.tanh, m, lo, hi, cfg.compressDelta),
                    lo, hi, OpeningRate(cfg, st), cfg.compressDelta);
    }
  }

  /**
   * Exactly when the frame that opens an assisted session moves a follower reference off the measured pose: the leader
   * has been still long enough for an idle rate, the joint is off calibration, and the admission test passes.
   */
  lemma OpeningNudges(cfg: Config, r: ArmRun, i: nat, out: int)
    requires IsRun(cfg, r) && Assisted(cfg) && i < |r.events| && OpensSession(r, i) && 0 <= out < DOF
    ensures r.states[i + 1].gentoRef.Some?
    ensures var st, f := r.states[i], r.events[i].frame;
      var leader, m, open := Values(f.positions), HardClamp(cfg, f.seed.value)[out], Opening(cfg, r, i);
      r.states[i + 1].gentoRef.value[out] != m <==>
        && !Blocked(cfg, open, f) && OpeningRate(cfg, st) > 0.0 && FrameAdmits(cfg, open, leader, f, out)
        && Offset(m, cfg.signs[out], leader[cfg.order[out]]) != cfg.offsets[out]
  {
    var f := r.events[i].frame;
    StepAt(cfg, r, i);
    TargetsAreTracked(cfg, r, i);
    SessionStep(cfg, r, i);
    AssistNeverSaturates(cfg, Opening(cfg, r, i), Values(f.positions), f);
    OpeningReference(cfg, r.states[i], f, out);
  }

  /**
   * What the opening frame contributes to the resync: nothing, unless stillness carried over from before gives it an idle
   * rate. Without an idle rate configured, or with the clock of stillness at zero, it has none.
   */
  lemma OpeningContributes(cfg: Config, r: ArmRun, a: nat, out: int)
    requires IsRun(cfg, r) && Assisted(cfg) && a < |r.events| && OpensSession(r, a) && 0 <= out < DOF
    ensures var f, open := r.events[a].frame, Opening(cfg, r, a);
      && Open(open)
      && EventNudge(cfg, r, a, out) ==
           if Blocked(cfg, open, f) || !FrameAdmits(cfg, open, Values(f.positions), f, out) then 0.0
           else Max(0.0, OpeningRate(cfg, r.states[a]))
    ensures Unleashed(cfg, r, a, out)
    ensures IdleOff(cfg, StillAfter(cfg, r.states[a].still, ORIGIN, 0.004)) ==> EventNudge(cfg, r, a, out) == 0.0
    ensures cfg.resyncIdle == 0.0 || (r.states[a].still == 0.0 && cfg.stillTime > 0.004) ==>
      IdleOff(cfg, StillAfter(cfg, r.states[a].still, ORIGIN, 0.004))
  {
    var st, f := r.states[a], r.events[a].frame;
    TargetsAreTracked(cfg, r, a);
    OpeningState(cfg, st, f);
    NudgeOfFrame(cfg, r, a, out);
    if IdleOff(cfg, StillAfter(cfg, st.still, ORIGIN, 0.004)) {
      NoMotionNoRate(cfg, 0.004, StillAfter(cfg, st.still, ORIGIN, 0.004));
    }
  }

  /**
   * A whole session without an idle rate at its opening: n frames after the opening one that each nudge at rate r leave
   * max(0, d - n r) of the deviation d that the session started with.
   */
  lemma SessionConvergesAtRate(cfg: Config, r: ArmRun, a: nat, b: nat, out: int, rate: real)
    requires IsRun(cfg, r) && Assisted(cfg) && Session(r, a, b) && 0 <= out < DOF
    requires IdleOff(cfg, StillAfter(cfg, r.states[a].still, ORIGIN, 0.004))
    requires UnleashedThrough(cfg, r, a + 1, b, out)
    requires forall i :: a < i < b && Tracked(r, i) ==> EventNudge(cfg, r, i, out) == rate
    ensures DeviationOf(cfg, r.states[b], out)
      == Max(0.0, DeviationOf(cfg, Opening(cfg, r, a), out) - Times(Frames(r, a + 1, b), rate))
  {
    OpeningContributes(cfg, r, a, out);
    OpeningDeviation(cfg, r, a, out);
    ResyncConvergesAtRate(cfg, r, a, a + 1, b, out, rate);
  }

  lemma CompressedIsNear(cfg: Config, ref: real, m: real, rate: real, out: int)
    requires Assisted(cfg) && 0 <= out < DOF && cfg.minimum[out] <= m <= cfg.maximum[out] && Abs(ref - m) <= rate
    ensures var d := SoftZone(cfg.compressDelta);
      var c := Compress(cfg.tanh, ref, cfg.minimum[out], cfg.maximum[out], cfg.compressDelta);
      && Abs(LimitDelta(c, m, cfg.maxDelta) - m) <= d + rate
      && (rate == 0.0 && cfg.minimum[out] + d <= m <= cfg.maximum[out] - d ==> LimitDelta(c, m, cfg.maxDelta) == m)
  {
    CompressNearClamp(cfg.tanh, ref, cfg.minimum[out], cfg.maximum[out], cfg.compressDelta);
  }

  lemma OpeningDesired(cfg: Config, st: ArmState, f: Frame, out: int) returns (ref: real)
    requires Assisted(cfg) && Inv(cfg, st) && !st.streaming && |f.positions| == DOF && f.seed.Some? && 0 <= out < DOF
    ensures var leader := Values(f.positions);
      ShapedCommand(cfg, Seed(cfg, st, leader, f.seed.value), leader, f).desired[out]
      == Compress(cfg.tanh, ref, cfg.minimum[out], cfg.maximum[out], cfg.compressDelta)
    ensures Abs(ref - HardClamp(cfg, f.seed.value)[out]) <= Max(0.0, OpeningRate(cfg, st))
  {
    var leader := Values(f.positions);
    ref := ShapedCommand(cfg, Seed(cfg, st, leader, f.seed.value), leader, f).gentoRef[out];
    OpeningReference(cfg, st, f, out);
    OpeningCommand(cfg, st, f, out);
  }

  lemma OpeningTargetIsNear(cfg: Config, st: ArmState, f: Frame, out: int)
    requires Assisted(cfg) && Inv(cfg, st) && !st.streaming && |f.positions| == DOF && f.seed.Some? && 0 <= out < DOF
    ensures var leader, m := Values(f.positions), HardClamp(cfg, f.seed.value)[out];
      var t := LimitDelta(ShapedCommand(cfg, Seed(cfg, st, leader, f.seed.value), leader, f).desired[out], m, cfg.maxDelta);
      var d, rate := SoftZone(cfg.compressDelta), Max(0.0, OpeningRate(cfg, st));
      && Abs(t - m) <= d + rate
      && (rate == 0.0 && cfg.minimum[out] + d <= m <= cfg.maximum[out] - d ==> t == m)
  {
    var ref := OpeningDesired(cfg, st, f, out);
    CompressedIsNear(cfg, ref, HardClamp(cfg, f.seed.value)[out], Max(0.0, OpeningRate(cfg, st)), out);
  }

  /**
   * Assist on: the first target is within a zone's width and one idle nudge of the measured pose; without an idle rate it
   * is exactly that pose on every joint a zone's width inside its limits.
   */
  lemma ResumeIsBumplessAssisted(cfg: Config, r: ArmRun, i: nat, out: int)
    requires IsRun(cfg, r) && Assisted(cfg) && i < |r.events| && OpensSession(r, i) && 0 <= out < DOF
    ensures var st, f := r.states[i], r.events[i].frame;
      var m, t := HardClamp(cfg, f.seed.value)[out], r.outs[i].target.value[out];
      var d, rate := SoftZone(cfg.compressDelta), Max(0.0, OpeningRate(cfg, st));
      && Abs(t - m) <= d + rate
      && (rate == 0.0 && cfg.minimum[out] + d <= m <= cfg.maximum[out] - d ==> t == m)
      && (IdleOff(cfg, StillAfter(cfg, st.still, ORIGIN, 0.004)) ==> rate == 0.0)
  {
    var st, f := r.states[i], r.events[i].frame;
    StepAt(cfg, r, i);
    TargetsAreTracked(cfg, r, i);
    TrackedOutcome(cfg, st, f);
    AssistedTarget(cfg, Opening(cfg, r, i), Values(f.positions), f, true, out);
    OpeningTargetIsNear(cfg, st, f, out);
    if IdleOff(cfg, StillAfter(cfg, st.still, ORIGIN, 0.004)) {
      NoMotionNoRate(cfg, 0.004, StillAfter(cfg, st.still, ORIGIN, 0.004));
    }
  }
}
