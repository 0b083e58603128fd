/** Assist on: how far a leader that was pushed past a limit has to come back. */
module AssistReversal {
  import opened Prelude
  import opened JointMath
  import opened JointFacts
  import opened ArmModel
  import opened ArmRuns
  import opened ArmTheorems
  import opened ResyncTheorems

  /** How far a raw target lies outside an interval. */
  function Excess(raw: real, lo: real, hi: real): real {
    if raw > hi then raw - hi else if raw < lo then raw - lo else 0.0
  }

  /** Pulling the target back to the leash would take the offset beyond its cap, and further out than it is. */
  predicate AtCap(raw: real, oEff: real, lo: real, hi: real, oCal: real, slack: real, oMax: real) {
    var e := Excess(raw, lo - Max(0.0, slack), hi + Max(0.0, slack));
    e != 0.0 && Abs(oEff - e - oCal) > Max(0.0, oMax) && Abs(oEff - e - oCal) > Abs(oEff - oCal)
  }

  /** Exactly then the leash leaves the reference alone although the target is outside; otherwise it moves both together,
    * to the nearest point of its interval. */
  lemma LeashCaps(raw: real, ref: real, oEff: real, lo: real, hi: real, oCal: real, slack: real, oMax: real)
    requires lo <= hi
    ensures var l, lam := LeashJoint(raw, ref, oEff, lo, hi, oCal, slack, oMax), Max(0.0, slack);
      && (AtCap(raw, oEff, lo, hi, oCal, slack, oMax) <==> l.touched && l.ref == ref)
      && (!AtCap(raw, oEff, lo, hi, oCal, slack, oMax) ==>
            l.ref - ref == l.raw - raw && l.raw == Clamp(raw, lo - lam, hi + lam))
  {
  }

  /** The joint's offset is at its cap in a frame. */
  predicate Capped(cfg: Config, st: ArmState, leader: Pose, out: int)
    requires Open(st) && 0 <= out < DOF
  {
    AtCap(Mapped(cfg, st, leader)[out], OffsetAt(st.gentoRef.value, st.leaderContRef, cfg.order, cfg.signs, out),
          cfg.minimum[out], cfg.maximum[out], cfg.offsets[out], cfg.leashLambda, cfg.offsetMax)
  }

  lemma FollowShifts(ref: real, shift: real, sign: real, leader: real, leaderRef: real)
    ensures Follow(ref + shift, sign, leader, leaderRef) == Follow(ref, sign, leader, leaderRef) + shift
  {
  }

  /** The mapped command is the remapped pose plus sign times the leader's motion. */
  lemma MappedFromRemapped(cfg: Config, st: ArmState, leader: Pose, out: int)
    requires Assisted(cfg) && Injective(cfg.order) && Open(st) && 0 <= out < DOF
    ensures var src := cfg.order[out];
      && Mapped(cfg, st, leader)[out] == Moved(Remapped(cfg, st, out), cfg.signs[out], FrameDelta(leader, st.leaderPrev)[src])
      && Mapped(cfg, st, leader)[out]
           == Follow(st.gentoRef.value[out], cfg.signs[out], Continued(cfg, st, leader)[src], st.leaderContRef[src])
  {
    var src := cfg.order[out];
    var ref, contRef := st.gentoRef.value, st.leaderContRef;
    RelativeClosedForm(leader, st.leaderPrev, st.leaderContinuous, contRef, ref, cfg.order, cfg.signs, out);
    ContinuousClosedForm(leader, st.leaderPrev, st.leaderContinuous, cfg.order, src);
    FollowAdds(ref[out], cfg.signs[out], st.leaderContinuous[src], contRef[src], FrameDelta(leader, st.leaderPrev)[src]);
  }

  /** After a frame the same leader pose maps to the mapped command, moved as the assist moved the reference. */
  lemma RemappedAfter(cfg: Config, st: ArmState, leader: Pose, f: Frame, out: int)
    requires Assisted(cfg) && Injective(cfg.order) && Inv(cfg, st) && Open(st) && 0 <= out < DOF
    ensures Remapped(cfg, Clutched(cfg, st, leader, f), out)
      == Mapped(cfg, st, leader)[out] + (ShapedCommand(cfg, st, leader, f).gentoRef[out] - st.gentoRef.value[out])
  {
    var src, ref := cfg.order[out], st.gentoRef.value[out];
    AssistNeverSaturates(cfg, st, leader, f);
    MappedFromRemapped(cfg, st, leader, out);
    FollowShifts(ref, ShapedCommand(cfg, st, leader, f).gentoRef[out] - ref, cfg.signs[out],
                 Continued(cfg, st, leader)[src], st.leaderContRef[src]);
  }

  /** How far the assist moves a reference: as the leash does, and by at most the frame's rate. */
  lemma AssistMoves(cfg: Config, st: ArmState, leader: Pose, f: Frame, out: int)
    requires Assisted(cfg) && Open(st) && !Blocked(cfg, st, f) && 0 <= out < DOF
    ensures Abs(ShapedCommand(cfg, st, leader, f).gentoRef[out] - FrameLeash(cfg, st, leader, out).ref)
      <= Max(0.0, FrameRate(cfg, st, leader, f, out))
  {
    NudgedReference(cfg, st, leader, f, out);
    var lo, hi := cfg.minimum[out], cfg.maximum[out];
    ResyncActsIff(LeashedOffset(cfg, st, leader, out), cfg.offsets[out],
                  Compress(cfg.tanh, FrameLeash(cfg, st, leader, out).raw, lo, hi, cfg.compressDelta), lo, hi,
                  FrameRate(cfg, st, leader, f, out), cfg.compressDelta);
  }

  /** A pose past a limit by at most the leash's slack and one nudge. */
  predicate NearLimits(cfg: Config, pose: real, rate: real, out: int)
    requires 0 <= out < DOF
  {
    var slack := Max(0.0, cfg.leashLambda) + Max(0.0, rate);
    cfg.minimum[out] - slack <= pose <= cfg.maximum[out] + slack
  }

  lemma LeashOf(cfg: Config, st: ArmState, leader: Pose, out: int)
    requires Assisted(cfg) && Open(st) && 0 <= out < DOF
    ensures var l, raw, ref := FrameLeash(cfg, st, leader, out), Mapped(cfg, st, leader)[out], st.gentoRef.value[out];
      && (Capped(cfg, st, leader, out) ==> l.ref == ref && !NearLimits(cfg, raw, 0.0, out))
      && (!Capped(cfg, st, leader, out) ==> l.ref - ref == l.raw - raw && NearLimits(cfg, l.raw, 0.0, out))
  {
    LeashCaps(Mapped(cfg, st, leader)[out], st.gentoRef.value[out],
              OffsetAt(st.gentoRef.value, st.leaderContRef, cfg.order, cfg.signs, out), cfg.minimum[out], cfg.maximum[out],
              cfg.offsets[out], cfg.leashLambda, cfg.offsetMax);
  }

  /**
   * However far the leader is pushed: after an assisted frame its pose maps to within the leash's slack and one nudge of
   * the limits, unless the joint's offset is at its cap. A capped or blocked joint keeps the mapped command, up to a nudge.
   */
  lemma LeashKeepsNearLimits(cfg: Config, st: ArmState, leader: Pose, f: Frame, out: int)
    requires Assisted(cfg) && Injective(cfg.order) && Inv(cfg, st) && Open(st) && 0 <= out < DOF
    ensures var pose, rate := Remapped(cfg, Clutched(cfg, st, leader, f), out), FrameRate(cfg, st, leader, f, out);
      && (!Blocked(cfg, st, f) && !Capped(cfg, st, leader, out) ==> NearLimits(cfg, pose, rate, out))
      && (!Blocked(cfg, st, f) && Capped(cfg, st, leader, out) ==>
            Abs(pose - Mapped(cfg, st, leader)[out]) <= Max(0.0, rate))
      && (Blocked(cfg, st, f) ==> pose == Mapped(cfg, st, leader)[out])
  {
    RemappedAfter(cfg, st, leader, f, out);
    if Blocked(cfg, st, f) {
      BlockedReference(cfg, st, leader, f);
    } else {
      AssistMoves(cfg, st, leader, f, out);
      LeashOf(cfg, st, leader, out);
    }
  }

  /** While a session runs without tracked frames, its references stay. */
  lemma {:induction false} QuietKeepsRefs(cfg: Config, r: ArmRun, i: nat, j: nat)
    requires IsRun(cfg, r) && i < j <= |r.events|
    requires forall k :: i < k < j ==> !Tracked(r, k) && r.states[k + 1].streaming
    ensures SameRefs(r.states[j], r.states[i + 1])
    decreases j
  {
    if i + 1 < j {
      QuietKeepsRefs(cfg, r, i, j - 1);
      SessionStep(cfg, r, j - 1);
    }
  }

  /** Frame `i` of a session, in the state it works on. */
  predicate LeashedAt(cfg: Config, r: ArmRun, i: nat, out: int)
    requires i < |r.events| && 0 <= out < DOF
  {
    Tracked(r, i) && Open(Before(cfg, r, i)) &&
    !Blocked(cfg, Before(cfg, r, i), r.events[i].frame) &&
    !Capped(cfg, Before(cfg, r, i), Values(r.events[i].frame.positions), out)
  }

  lemma TrackedNearLimits(cfg: Config, r: ArmRun, i: nat, out: int)
    requires IsRun(cfg, r) && Assisted(cfg) && Injective(cfg.order) && i < |r.events| && 0 <= out < DOF
    requires LeashedAt(cfg, r, i, out)
    ensures r.states[i + 1].gentoRef.Some?
    ensures var st, f := Before(cfg, r, i), r.events[i].frame;
      NearLimits(cfg, Remapped(cfg, r.states[i + 1], out), FrameRate(cfg, st, Values(f.positions), f, out), out)
  {
    var st, f := Before(cfg, r, i), r.events[i].frame;
    TargetsAreTracked(cfg, r, i);
    SessionStep(cfg, r, i);
    LeashKeepsNearLimits(cfg, st, Values(f.positions), f, out);
    SameRemap(cfg, r.states[i + 1], Clutched(cfg, st, Values(f.positions), f), out);
  }

  /**
   * The next frame `j` after frame `i` of a session maps to a pose near the limits plus sign times the leader's motion
   * since: a leader pushed any distance past a limit is back inside after undoing the leash's slack and one nudge.
   */
  lemma AssistedReversal(cfg: Config, r: ArmRun, i: nat, j: nat, out: int)
    requires IsRun(cfg, r) && Assisted(cfg) && Injective(cfg.order) && i < j < |r.events| && 0 <= out < DOF
    requires LeashedAt(cfg, r, i, out) && r.states[j].streaming
    requires forall k :: i < k < j ==> !Tracked(r, k) && r.states[k + 1].streaming
    requires r.events[j].Relative? && |r.events[j].frame.positions| == DOF
    ensures Open(r.states[j])
    ensures var st, leader, f := r.states[j], Values(r.events[j].frame.positions), r.events[i].frame;
      var rate := FrameRate(cfg, Before(cfg, r, i), Values(f.positions), f, out);
      var slack := Max(0.0, cfg.leashLambda) + Max(0.0, rate);
      var move := cfg.signs[out] * FrameDelta(leader, st.leaderPrev)[cfg.order[out]];
      && NearLimits(cfg, Mapped(cfg, st, leader)[out] - move, rate, out)
      && (move <= -slack ==> Mapped(cfg, st, leader)[out] <= cfg.maximum[out])
      && (move >= slack ==> Mapped(cfg, st, leader)[out] >= cfg.minimum[out])
  {
    var st, leader := r.states[j], Values(r.events[j].frame.positions);
    OneOwner(cfg, r, j);
    TrackedNearLimits(cfg, r, i, out);
    QuietKeepsRefs(cfg, r, i, j);
    SameRemap(cfg, r.states[i + 1], st, out);
    MappedFromRemapped(cfg, st, leader, out);
  }
}
