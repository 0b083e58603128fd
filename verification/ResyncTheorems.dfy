/** How the resync brings an assisted session back to calibration, frame by frame. */
module ResyncTheorems {
  import opened Prelude
  import opened JointMath
  import opened JointFacts
  import opened ArmModel
  import opened ArmRuns
  import opened ArmTheorems

  // ---- One frame ----

  predicate Blocked(cfg: Config, st: ArmState, f: Frame)
    requires Open(st)
  {
    Frozen(cfg, st.lastCommand.value, f.measured)
  }

  /** What the leash makes of one joint in a frame. */
  function FrameLeash(cfg: Config, st: ArmState, leader: Pose, out: int): Leashed
    requires Open(st) && 0 <= out < DOF
  {
    LeashAt(cfg.Leash(), Mapped(cfg, st, leader), st.gentoRef.value, st.leaderContRef, out)
  }

  /** How long the leader has been still, counting a frame. */
  function StillWith(cfg: Config, st: ArmState, leader: Pose, f: Frame): real {
    StillAfter(cfg, st.still, FrameDelta(leader, st.leaderPrev), CycleTime(st, f.now))
  }

  /** A frame's own resync rate limit on one joint. */
  function FrameRate(cfg: Config, st: ArmState, leader: Pose, f: Frame, out: int): real
    requires 0 <= out < DOF
  {
    RateLimit(cfg, FrameDelta(leader, st.leaderPrev)[cfg.order[out]], CycleTime(st, f.now),
              IdleScale(cfg, StillWith(cfg, st, leader, f)))
  }

  /** The offset that the leash leaves to the resync. */
  function LeashedOffset(cfg: Config, st: ArmState, leader: Pose, out: int): real
    requires Open(st) && 0 <= out < DOF
  {
    Offset(FrameLeash(cfg, st, leader, out).ref, cfg.signs[out], st.leaderContRef[cfg.order[out]])
  }

  /** The resync's admission test passes in a frame. */
  predicate FrameAdmits(cfg: Config, st: ArmState, leader: Pose, f: Frame, out: int)
    requires Open(st) && 0 <= out < DOF
  {
    var lo, hi := cfg.minimum[out], cfg.maximum[out];
    Admitted(LeashedOffset(cfg, st, leader, out), cfg.offsets[out],
             Compress(cfg.tanh, FrameLeash(cfg, st, leader, out).raw, lo, hi, cfg.compressDelta), lo, hi,
             FrameRate(cfg, st, leader, f, out), cfg.compressDelta)
  }

  /** How far a frame may bring one joint's offset toward calibration. */
  function FrameNudge(cfg: Config, st: ArmState, leader: Pose, f: Frame, out: int): (n: real)
    requires Open(st) && 0 <= out < DOF
    ensures n >= 0.0
  {
    if Blocked(cfg, st, f) || !FrameAdmits(cfg, st, leader, f, out) then 0.0
    else Max(0.0, FrameRate(cfg, st, leader, f, out))
  }

  /** What the leash of a frame leaves of one joint's deviation. */
  function LeashedDeviation(cfg: Config, st: ArmState, leader: Pose, f: Frame, out: int): real
    requires Open(st) && 0 <= out < DOF
  {
    if Blocked(cfg, st, f) then Deviation(cfg, st.gentoRef.value, st.leaderContRef, out)
    else Abs(LeashedOffset(cfg, st, leader, out) - cfg.offsets[out])
  }

  /** The reference that leash and resync leave on one joint. */
  function NudgedRef(cfg: Config, st: ArmState, leader: Pose, f: Frame, out: int): real
    requires Open(st) && 0 <= out < DOF
  {
    var l, lo, hi := FrameLeash(cfg, st, leader, out), cfg.minimum[out], cfg.maximum[out];
    l.ref + ResyncStep(LeashedOffset(cfg, st, leader, out), cfg.offsets[out],
                       Compress(cfg.tanh, l.raw, lo, hi, cfg.compressDelta), lo, hi, FrameRate(cfg, st, leader, f, out),
                       cfg.compressDelta)
  }

  lemma NudgedReference(cfg: Config, st: ArmState, leader: Pose, f: Frame, out: int)
    requires Assisted(cfg) && Open(st) && !Blocked(cfg, st, f) && 0 <= out < DOF
    ensures ShapedCommand(cfg, st, leader, f).gentoRef[out] == NudgedRef(cfg, st, leader, f, out)
  {
  }

  lemma BlockedReference(cfg: Config, st: ArmState, leader: Pose, f: Frame)
    requires Open(st) && Blocked(cfg, st, f)
    ensures ShapedCommand(cfg, st, leader, f).gentoRef == st.gentoRef.value
  {
  }

  lemma ClutchedDeviation(cfg: Config, st: ArmState, leader: Pose, f: Frame, out: int)
    requires Assisted(cfg) && Inv(cfg, st) && Open(st) && 0 <= out < DOF
    ensures DeviationOf(cfg, Clutched(cfg, st, leader, f), out)
      == Deviation(cfg, ShapedCommand(cfg, st, leader, f).gentoRef, st.leaderContRef, out)
  {
    AssistNeverSaturates(cfg, st, leader, f);
  }

  lemma ResyncDeviation(ref: real, sign: real, leaderRef: real, oCal: real, q: real, lo: real, hi: real, rate: real,
                        delta: real)
    ensures var o := Offset(ref, sign, leaderRef);
      Abs(Offset(ref + ResyncStep(o, oCal, q, lo, hi, rate, delta), sign, leaderRef) - oCal)
      == Max(0.0, Abs(o - oCal) - if Admitted(o, oCal, q, lo, hi, rate, delta) then Max(0.0, rate) else 0.0)
  {
    var o := Offset(ref, sign, leaderRef);
    ResyncApproaches(o, oCal, q, lo, hi, rate, delta);
    OffsetShifts(ref, ResyncStep(o, oCal, q, lo, hi, rate, delta), sign, leaderRef);
  }

  lemma NudgedDeviation(cfg: Config, st: ArmState, leader: Pose, f: Frame, out: int)
    requires Open(st) && !Blocked(cfg, st, f) && 0 <= out < DOF
    ensures Abs(Offset(NudgedRef(cfg, st, leader, f, out), cfg.signs[out], st.leaderContRef[cfg.order[out]])
                - cfg.offsets[out])
      == Max(0.0, LeashedDeviation(cfg, st, leader, f, out) - FrameNudge(cfg, st, leader, f, out))
  {
    var l, lo, hi := FrameLeash(cfg, st, leader, out), cfg.minimum[out], cfg.maximum[out];
    ResyncDeviation(l.ref, cfg.signs[out], st.leaderContRef[cfg.order[out]], cfg.offsets[out],
                    Compress(cfg.tanh, l.raw, lo, hi, cfg.compressDelta), lo, hi, FrameRate(cfg, st, leader, f, out),
                    cfg.compressDelta);
  }

  lemma UnblockedDeviation(cfg: Config, st: ArmState, leader: Pose, f: Frame, out: int)
    requires Assisted(cfg) && Open(st) && !Blocked(cfg, st, f) && 0 <= out < DOF
    ensures Deviation(cfg, ShapedCommand(cfg, st, leader, f).gentoRef, st.leaderContRef, out)
      == Max(0.0, LeashedDeviation(cfg, st, leader, f, out) - FrameNudge(cfg, st, leader, f, out))
  {
    NudgedReference(cfg, st, leader, f, out);
    NudgedDeviation(cfg, st, leader, f, out);
  }

  /** Every assisted frame cuts the leashed deviation by its nudge, down to zero and never past it. */
  lemma FrameDeviation(cfg: Config, st: ArmState, leader: Pose, f: Frame, out: int)
    requires Assisted(cfg) && Inv(cfg, st) && Open(st) && 0 <= out < DOF
    ensures DeviationOf(cfg, Clutched(cfg, st, leader, f), out)
      == Max(0.0, LeashedDeviation(cfg, st, leader, f, out) - FrameNudge(cfg, st, leader, f, out))
  {
    ClutchedDeviation(cfg, st, leader, f, out);
    if Blocked(cfg, st, f) {
      BlockedReference(cfg, st, leader, f);
    } else {
      UnblockedDeviation(cfg, st, leader, f, out);
    }
  }

  // ---- Sessions ----

  /** The leash leaves a joint alone in an event. */
  predicate Unleashed(cfg: Config, r: ArmRun, i: nat, out: int)
    requires i < |r.events| && 0 <= out < DOF
  {
    Tracked(r, i) && Open(Before(cfg, r, i)) ==>
      var st, f := Before(cfg, r, i), r.events[i].frame;
      Blocked(cfg, st, f) || !FrameLeash(cfg, st, Values(f.positions), out).touched
  }

  /** The leash leaves a joint alone in every event from `a` to `b`. */
  predicate UnleashedThrough(cfg: Config, r: ArmRun, a: nat, b: nat, out: int)
    requires b <= |r.events| && 0 <= out < DOF
  {
    forall i :: a <= i < b ==> Unleashed(cfg, r, i, out)
  }

  /** What a frame may bring one joint's offset toward calibration, and other events do not. */
  function EventNudge(cfg: Config, r: ArmRun, i: nat, out: int): (n: real)
    requires i < |r.events| && 0 <= out < DOF
    ensures n >= 0.0
  {
    if Tracked(r, i) && Open(Before(cfg, r, i)) then
      FrameNudge(cfg, Before(cfg, r, i), Values(r.events[i].frame.positions), r.events[i].frame, out)
    else 0.0
  }

  /** The nudges of events `a` to `b`, each at its own frame's rate. */
  function NudgeSum(cfg: Config, r: ArmRun, a: nat, b: nat, out: int): (n: real)
    requires a <= b <= |r.events| && 0 <= out < DOF
    ensures n >= 0.0
  {
    if a == b then 0.0 else NudgeSum(cfg, r, a, b - 1, out) + EventNudge(cfg, r, b - 1, out)
  }

  lemma SameDeviation(cfg: Config, x: ArmState, y: ArmState, out: int)
    requires SameRefs(x, y) && 0 <= out < DOF
    ensures DeviationOf(cfg, x, out) == DeviationOf(cfg, y, out)
  {
  }

  lemma UnleashedDeviation(cfg: Config, st: ArmState, leader: Pose, f: Frame, out: int)
    requires Open(st) && 0 <= out < DOF && (Blocked(cfg, st, f) || !FrameLeash(cfg, st, leader, out).touched)
    ensures LeashedDeviation(cfg, st, leader, f, out) == DeviationOf(cfg, st, out)
  {
  }

  lemma FrameCuts(cfg: Config, st: ArmState, next: ArmState, leader: Pose, f: Frame, out: int)
    requires Assisted(cfg) && Inv(cfg, st) && Open(st) && SameRefs(next, Clutched(cfg, st, leader, f)) && 0 <= out < DOF
    requires Blocked(cfg, st, f) || !FrameLeash(cfg, st, leader, out).touched
    ensures DeviationOf(cfg, next, out) == Max(0.0, DeviationOf(cfg, st, out) - FrameNudge(cfg, st, leader, f, out))
  {
    UnleashedDeviation(cfg, st, leader, f, out);
    FrameDeviation(cfg, st, leader, f, out);
    SameDeviation(cfg, next, Clutched(cfg, st, leader, f), out);
  }

  lemma NudgeOfFrame(cfg: Config, r: ArmRun, i: nat, out: int)
    requires i < |r.events| && Tracked(r, i) && Open(Before(cfg, r, i)) && 0 <= out < DOF
    ensures var st, f := Before(cfg, r, i), r.events[i].frame;
      EventNudge(cfg, r, i, out) == FrameNudge(cfg, st, Values(f.positions), f, out)
  {
  }

  lemma TrackedDeviation(cfg: Config, r: ArmRun, i: nat, out: int)
    requires IsRun(cfg, r) && Assisted(cfg) && Tracked(r, i) && 0 <= out < DOF && Unleashed(cfg, r, i, out)
    ensures DeviationOf(cfg, r.states[i + 1], out)
      == Max(0.0, DeviationOf(cfg, Before(cfg, r, i), out) - EventNudge(cfg, r, i, out))
  {
    var st, f := Before(cfg, r, i), r.events[i].frame;
    assert Inv(cfg, st) && Open(st) by {
      TargetsAreTracked(cfg, r, i);
    }
    assert SameRefs(r.states[i + 1], Clutched(cfg, st, Values(f.positions), f)) by {
      SessionStep(cfg, r, i);
    }
    FrameCuts(cfg, st, r.states[i + 1], Values(f.positions), f, out);
    NudgeOfFrame(cfg, r, i, out);
  }

  lemma EventDeviation(cfg: Config, r: ArmRun, i: nat, out: int)
    requires IsRun(cfg, r) && Assisted(cfg) && i < |r.events| && r.states[i + 1].streaming && 0 <= out < DOF
    requires Unleashed(cfg, r, i, out)
    ensures DeviationOf(cfg, r.states[i + 1], out)
      == Max(0.0, DeviationOf(cfg, From(cfg, r, i), out) - EventNudge(cfg, r, i, out))
  {
    if Tracked(r, i) {
      TrackedDeviation(cfg, r, i, out);
    } else {
      SessionStep(cfg, r, i);
      SameDeviation(cfg, r.states[i + 1], r.states[i], out);
    }
  }

  /** What is left of a deviation after the nudges of events `a` to `i`. */
  predicate LeftAfter(cfg: Config, r: ArmRun, a: nat, start: real, out: int, i: nat, st: ArmState)
    requires 0 <= out < DOF
  {
    a <= i <= |r.events| && DeviationOf(cfg, st, out) == Max(0.0, start - NudgeSum(cfg, r, a, i, out))
  }

  lemma EventsConverge(cfg: Config, r: ArmRun, a: nat, c: nat, b: nat, start: real, out: int, p: (nat, ArmState) -> bool)
    requires IsRun(cfg, r) && Assisted(cfg) && Session(r, a, b) && a <= c && 0 <= out < DOF
    requires UnleashedThrough(cfg, r, c, b, out)
    requires forall i, st :: p(i, st) == LeftAfter(cfg, r, c, start, out, i, st)
    ensures forall i: nat :: c <= i < b && p(i, From(cfg, r, i)) ==> p(i + 1, r.states[i + 1])
  {
    forall i: nat | c <= i < b && p(i, From(cfg, r, i))
      ensures p(i + 1, r.states[i + 1])
    {
      EventDeviation(cfg, r, i, out);
      assert LeftAfter(cfg, r, c, start, out, i + 1, r.states[i + 1]);
    }
  }

  /**
   * Over a session whose leash leaves a joint alone, the joint's deviation from calibration shrinks by the sum of its
   * frames' nudges, down to zero and never past it, whatever the leader does.
   */
  lemma ResyncConverges(cfg: Config, r: ArmRun, a: nat, b: nat, out: int)
    requires IsRun(cfg, r) && Assisted(cfg) && Session(r, a, b) && 0 <= out < DOF
    requires UnleashedThrough(cfg, r, a, b, out)
    ensures DeviationOf(cfg, r.states[b], out)
      == Max(0.0, DeviationOf(cfg, Opening(cfg, r, a), out) - NudgeSum(cfg, r, a, b, out))
  {
    var start := DeviationOf(cfg, Opening(cfg, r, a), out);
    var p := (i: nat, st: ArmState) => LeftAfter(cfg, r, a, start, out, i, st);
    EventsConverge(cfg, r, a, a, b, start, out, p);
    SessionInduction(cfg, r, a, b, p);
  }

  /** The same from any point `c` of the session after its opening on; only the frames since then count. */
  lemma ResyncConvergesFrom(cfg: Config, r: ArmRun, a: nat, c: nat, b: nat, out: int)
    requires IsRun(cfg, r) && Assisted(cfg) && Session(r, a, b) && a < c <= b && 0 <= out < DOF
    requires UnleashedThrough(cfg, r, c, b, out)
    ensures DeviationOf(cfg, r.states[b], out)
      == Max(0.0, DeviationOf(cfg, r.states[c], out) - NudgeSum(cfg, r, c, b, out))
  {
    var start := DeviationOf(cfg, r.states[c], out);
    var p := (i: nat, st: ArmState) => LeftAfter(cfg, r, c, start, out, i, st);
    EventsConverge(cfg, r, a, c, b, start, out, p);
    RunningInduction(cfg, r, a, c, b, p);
  }

  lemma OpeningDeviation(cfg: Config, r: ArmRun, a: nat, out: int)
    requires IsRun(cfg, r) && Assisted(cfg) && Session(r, a, a + 1) && 0 <= out < DOF && Unleashed(cfg, r, a, out)
    ensures DeviationOf(cfg, r.states[a + 1], out)
      == Max(0.0, DeviationOf(cfg, Opening(cfg, r, a), out) - EventNudge(cfg, r, a, out))
  {
    EventDeviation(cfg, r, a, out);
  }

  /** What convergence means: the pose ends as far from the driver's own absolute map as the nudges leave of the distance at
    * the start, and on that map once they make up for it. */
  lemma ConvergesToAbsoluteMap(cfg: Config, r: ArmRun, a: nat, b: nat, out: int)
    requires IsRun(cfg, r) && Assisted(cfg) && Session(r, a, b) && 0 <= out < DOF
    requires UnleashedThrough(cfg, r, a, b, out)
    ensures r.states[b].gentoRef.Some?
    ensures Abs(Remapped(cfg, r.states[b], out) - Absolutely(cfg, r.states[b], out))
      == Max(0.0, DeviationOf(cfg, Opening(cfg, r, a), out) - NudgeSum(cfg, r, a, b, out))
  {
    OneOwner(cfg, r, b);
    ResyncConverges(cfg, r, a, b, out);
    DeviationIsDistance(cfg, r.states[b], out);
  }

  /** The tracked frames among events `a` to `b`. */
  function Frames(r: ArmRun, a: nat, b: nat): nat
    requires a <= b <= |r.events|
  {
    if a == b then 0 else Frames(r, a, b - 1) + if Tracked(r, b - 1) then 1 else 0
  }

  lemma {:induction false} ConstantNudges(cfg: Config, r: ArmRun, a: nat, b: nat, out: int, rate: real)
    requires IsRun(cfg, r) && a <= b <= |r.events| && 0 <= out < DOF
    requires forall i :: a <= i < b && Tracked(r, i) ==> EventNudge(cfg, r, i, out) == rate
    ensures NudgeSum(cfg, r, a, b, out) == Times(Frames(r, a, b), rate)
  {
    OneMore(0, rate);
    if a < b {
      ConstantNudges(cfg, r, a, b - 1, out, rate);
      OneMore(Frames(r, a, b - 1), rate);
    }
  }

  /** n frames that each nudge at rate r, from any point of a session after its opening on, leave max(0, distance - n r). */
  lemma ResyncConvergesAtRate(cfg: Config, r: ArmRun, a: nat, c: nat, b: nat, out: int, rate: real)
    requires IsRun(cfg, r) && Assisted(cfg) && Session(r, a, b) && a < c <= b && 0 <= out < DOF
    requires UnleashedThrough(cfg, r, c, b, out)
    requires forall i :: c <= i < b && Tracked(r, i) ==> EventNudge(cfg, r, i, out) == rate
    ensures DeviationOf(cfg, r.states[b], out)
      == Max(0.0, DeviationOf(cfg, r.states[c], out) - Times(Frames(r, c, b), rate))
  {
    ResyncConvergesFrom(cfg, r, a, c, b, out);
    ConstantNudges(cfg, r, c, b, out, rate);
  }

  // ---- A motionless leader ----

  /** Neither the configuration nor the time at rest gives a motionless leader a resync rate. */
  predicate IdleOff(cfg: Config, still: real) {
    cfg.resyncIdle == 0.0 || IdleScale(cfg, still) == 0.0
  }

  lemma NoMotionNoRate(cfg: Config, dt: real, still: real)
    requires dt > 0.0 && IdleOff(cfg, still)
    ensures RateLimit(cfg, 0.0, dt, IdleScale(cfg, still)) <= 0.0
  {
    assert Abs(0.0) / dt == 0.0;
    assert cfg.resyncIdle * IdleScale(cfg, still) == 0.0;
    var rate := Min(cfg.resyncAlpha * 0.0, cfg.resyncMotionMax) + cfg.resyncIdle * IdleScale(cfg, still);
    assert rate <= 0.0;
    assert rate * dt <= 0.0;
  }

  /** Without motion and without an idle rate the resync takes no step: only the leash moves the reference. */
  lemma MotionlessNudge(cfg: Config, mapped: Pose, gentoRef: Pose, contRef: Pose, dt: real, still: real)
    requires dt > 0.0 && IdleOff(cfg, still)
    ensures Nudge(cfg, mapped, gentoRef, contRef, ORIGIN, dt, still)
      == RefOf(LeashAll(cfg.Leash(), mapped, gentoRef, contRef))
  {
    var all := LeashAll(cfg.Leash(), mapped, gentoRef, contRef);
    var steps := ResyncSteps(cfg.Resync(), RefOf(all), contRef, Soft(cfg, RawOf(all)), RateLimits(cfg, ORIGIN, dt, still));
    NoMotionNoRate(cfg, dt, still);
    assert forall out :: 0 <= out < DOF ==> steps[out] == 0.0;
    assert Shifted(RefOf(all), steps) == RefOf(all);
  }

  lemma MotionlessReference(cfg: Config, st: ArmState, leader: Pose, f: Frame, out: int)
    requires Assisted(cfg) && Open(st) && !Blocked(cfg, st, f) && 0 <= out < DOF
    requires FrameDelta(leader, st.leaderPrev) == ORIGIN && IdleOff(cfg, StillWith(cfg, st, leader, f))
    ensures ShapedCommand(cfg, st, leader, f).gentoRef[out] == FrameLeash(cfg, st, leader, out).ref
  {
    var mapped, dt, still := Mapped(cfg, st, leader), CycleTime(st, f.now), StillWith(cfg, st, leader, f);
    MotionlessNudge(cfg, mapped, st.gentoRef.value, st.leaderContRef, dt, still);
    assert ShapedCommand(cfg, st, leader, f).gentoRef
        == Nudge(cfg, mapped, st.gentoRef.value, st.leaderContRef, ORIGIN, dt, still);
  }

  /** In every state of a session: a frame without leader motion and without an idle rate moves a follower reference
    * only where the leash does. */
  lemma MotionlessFrameIsNotNudged(cfg: Config, st: ArmState, leader: Pose, f: Frame, out: int)
    requires Assisted(cfg) && Inv(cfg, st) && Open(st) && 0 <= out < DOF
    requires FrameDelta(leader, st.leaderPrev) == ORIGIN && IdleOff(cfg, StillWith(cfg, st, leader, f))
    ensures Clutched(cfg, st, leader, f).gentoRef.value[out] ==
      if Blocked(cfg, st, f) then st.gentoRef.value[out] else FrameLeash(cfg, st, leader, out).ref
  {
    AssistNeverSaturates(cfg, st, leader, f);
    if Blocked(cfg, st, f) {
      BlockedReference(cfg, st, leader, f);
    } else {
      MotionlessReference(cfg, st, leader, f, out);
    }
  }
}
