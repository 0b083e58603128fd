/** What a relative session guarantees over all its frames. */
module ArmTheorems {
  import opened Prelude
  import opened JointMath
  import opened JointFacts
  import opened ArmModel
  import opened ArmRuns

  // ---- Assist on ----

  ghost predicate Assisted(cfg: Config) {
    && cfg.Valid() && cfg.relative && cfg.assist && Sigmoid(cfg.tanh)
    && forall i :: 0 <= i < DOF ==> SoftZone(cfg.compressDelta) <= cfg.maximum[i] - cfg.minimum[i]
  }

  /** Distance of a joint's effective offset from calibration. */
  function Deviation(cfg: Config, gentoRef: Pose, contRef: Pose, out: int): real
    requires 0 <= out < DOF
  {
    Abs(OffsetAt(gentoRef, contRef, cfg.order, cfg.signs, out) - cfg.offsets[out])
  }

  lemma OffsetShifts(ref: real, shift: real, sign: real, leaderRef: real)
    ensures Offset(ref + shift, sign, leaderRef) == Offset(ref, sign, leaderRef) + shift
  {
  }

  lemma AssistBoundsJoint(cfg: Config, mapped: Pose, gentoRef: Pose, leader: Pose, cont: Pose, contRef: Pose,
                          delta: Pose, dt: real, still: real, out: int)
    requires Assisted(cfg) && dt > 0.0 && 0 <= out < DOF
    ensures Deviation(cfg, Assist(cfg, mapped, gentoRef, leader, cont, contRef, delta, dt, still).gentoRef, contRef, out)
      <= Max(Max(0.0, cfg.offsetMax), Deviation(cfg, gentoRef, contRef, out))
  {
    var all := LeashAll(cfg.Leash(), mapped, gentoRef, contRef);
    var soft := Soft(cfg, RawOf(all));
    var rates := RateLimits(cfg, delta, dt, StillAfter(cfg, still, delta, dt));
    var o := OffsetAt(gentoRef, contRef, cfg.order, cfg.signs, out);
    LeashBoundsOffset(mapped[out], gentoRef[out], o, cfg.minimum[out], cfg.maximum[out], cfg.offsets[out],
                      cfg.leashLambda, cfg.offsetMax);
    var ref := RefOf(all);
    OffsetShifts(gentoRef[out], ref[out] - gentoRef[out], cfg.signs[out], contRef[cfg.order[out]]);
    var o' := OffsetAt(ref, contRef, cfg.order, cfg.signs, out);
    ResyncApproaches(o', cfg.offsets[out], soft[out], cfg.minimum[out], cfg.maximum[out], rates[out], cfg.compressDelta);
    var step := ResyncAt(cfg.Resync(), ref, contRef, soft, rates, out);
    OffsetShifts(ref[out], step, cfg.signs[out], contRef[cfg.order[out]]);
  }

  /** With the assist on, compression already lands inside the limits: no clamp, so no clutch. */
  lemma AssistNeverSaturates(cfg: Config, st: ArmState, leader: Pose, f: Frame)
    requires Assisted(cfg) && Inv(cfg, st) && Open(st)
    ensures var shaped := ShapedCommand(cfg, st, leader, f); var cl := Clutched(cfg, st, leader, f);
      && Within(shaped.desired, cfg.minimum, cfg.maximum)
      && HardClamp(cfg, shaped.desired) == shaped.desired
      && cl.leaderContRef == st.leaderContRef
      && cl.gentoRef == Some(shaped.gentoRef)
  {
    var shaped := ShapedCommand(cfg, st, leader, f);
    var mapped := Mapped(cfg, st, leader);
    var cont := Continued(cfg, st, leader);
    SoftStaysInside(cfg.tanh, mapped, cfg.minimum, cfg.maximum, cfg.compressDelta);
    SoftStaysInside(cfg.tanh, RelativeMapping(leader, leader, cont, st.leaderContRef, shaped.gentoRef, cfg.order, cfg.signs),
                    cfg.minimum, cfg.maximum, cfg.compressDelta);
    assert Within(shaped.desired, cfg.minimum, cfg.maximum);
    assert ClutchContRef(DOF, shaped.desired, shaped.desired, cont, st.leaderContRef, cfg.order) == st.leaderContRef;
    assert ClutchGentoRef(shaped.desired, shaped.desired, shaped.gentoRef) == shaped.gentoRef;
  }

  lemma ShapedBoundsOffset(cfg: Config, st: ArmState, leader: Pose, f: Frame, out: int)
    requires Assisted(cfg) && Open(st) && 0 <= out < DOF
    ensures Deviation(cfg, ShapedCommand(cfg, st, leader, f).gentoRef, st.leaderContRef, out)
      <= Max(Max(0.0, cfg.offsetMax), Deviation(cfg, st.gentoRef.value, st.leaderContRef, out))
  {
    AssistBoundsJoint(cfg, Mapped(cfg, st, leader), st.gentoRef.value, leader, Continued(cfg, st, leader),
                      st.leaderContRef, FrameDelta(leader, st.leaderPrev), CycleTime(st, f.now), st.still, out);
  }

  lemma FrameBoundsOffset(cfg: Config, st: ArmState, leader: Pose, f: Frame, out: int)
    requires Assisted(cfg) && Inv(cfg, st) && Open(st) && 0 <= out < DOF
    ensures var cl := Clutched(cfg, st, leader, f);
      Deviation(cfg, cl.gentoRef.value, cl.leaderContRef, out)
      <= Max(Max(0.0, cfg.offsetMax), Deviation(cfg, st.gentoRef.value, st.leaderContRef, out))
  {
    AssistNeverSaturates(cfg, st, leader, f);
    ShapedBoundsOffset(cfg, st, leader, f, out);
  }

  /** Deviation of a state with a follower reference. */
  function DeviationOf(cfg: Config, st: ArmState, out: int): real
    requires 0 <= out < DOF
  {
    if st.gentoRef.Some? then Deviation(cfg, st.gentoRef.value, st.leaderContRef, out) else 0.0
  }

  lemma EventBoundsOffset(cfg: Config, r: ArmRun, i: nat, out: int)
    requires IsRun(cfg, r) && Assisted(cfg) && i < |r.events| && r.states[i + 1].streaming && 0 <= out < DOF
    ensures DeviationOf(cfg, r.states[i + 1], out)
      <= Max(Max(0.0, cfg.offsetMax), DeviationOf(cfg, From(cfg, r, i), out))
  {
    SessionStep(cfg, r, i);
    TargetsAreTracked(cfg, r, i);
    if Tracked(r, i) {
      var f := r.events[i].frame;
      FrameBoundsOffset(cfg, Before(cfg, r, i), Values(f.positions), f, out);
    }
  }

  /**
   * Over any session with the assist on, whatever else happens in between, each joint's effective offset stays within
   * the larger of the cap and its deviation when the session opened.
   */
  lemma AssistKeepsOffset(cfg: Config, r: ArmRun, a: nat, b: nat, out: int)
    requires IsRun(cfg, r) && Assisted(cfg) && Session(r, a, b) && 0 <= out < DOF
    ensures r.states[b].gentoRef.Some?
    ensures DeviationOf(cfg, r.states[b], out)
      <= Max(Max(0.0, cfg.offsetMax), DeviationOf(cfg, Opening(cfg, r, a), out))
  {
    var bound := Max(Max(0.0, cfg.offsetMax), DeviationOf(cfg, Opening(cfg, r, a), out));
    var p := (i: nat, st: ArmState) => DeviationOf(cfg, st, out) <= bound;
    forall i: nat | a <= i < b && p(i, From(cfg, r, i))
      ensures p(i + 1, r.states[i + 1])
    {
      EventBoundsOffset(cfg, r, i, out);
    }
    SessionInduction(cfg, r, a, b, p);
    OneOwner(cfg, r, b);
  }

  // ---- Phase unwrap ----

  /** `phys[i]` is the leader's physical pose as of event `i`; frames report it reduced to (-pi, pi]. */
  ghost predicate Observes(r: ArmRun, a: nat, b: nat, phys: seq<Pose>)
    requires a < b <= |r.events| == |phys|
  {
    forall i :: a <= i < b ==> ObservedAt(r, a, phys, i)
  }

  ghost predicate ObservedAt(r: ArmRun, a: nat, phys: seq<Pose>, i: nat)
    requires a <= i < |r.events| == |phys|
  {
    if Tracked(r, i) then ReportsMotion(r.events[i].frame, phys, a, i) else i > a && phys[i] == phys[i - 1]
  }

  ghost predicate ReportsMotion(f: Frame, phys: seq<Pose>, a: nat, i: nat)
    requires a <= i < |phys|
  {
    |f.positions| == DOF &&
    forall j :: 0 <= j < DOF ==>
      Reads(Values(f.positions)[j], phys[i][j]) && (a < i ==> Abs(phys[i][j] - phys[i - 1][j]) < PI)
  }

  /** The unwrap state advanced by one leader pose. */
  predicate Continues(cfg: Config, st: ArmState, next: ArmState, leader: Pose) {
    next.leaderPrev == leader && next.leaderContinuous == Continued(cfg, st, leader)
  }

  lemma FrameContinues(cfg: Config, st: ArmState, next: ArmState, leader: Pose, j: int)
    requires cfg.Valid() && cfg.relative && Injective(cfg.order) && 0 <= j < DOF && Continues(cfg, st, next, leader)
    ensures next.leaderContinuous[j] == st.leaderContinuous[j] + Unwrap(leader[j] - st.leaderPrev[j])
  {
    ContinuousClosedForm(leader, st.leaderPrev, st.leaderContinuous, cfg.order, j);
  }

  /** A state of leader joint `j` that agrees with the physical pose: same travel since the opening, same reading. */
  ghost predicate Follows(st: ArmState, start: real, physStart: real, phys: real, j: int)
    requires 0 <= j < DOF
  {
    && st.leaderContinuous[j] - start == phys - physStart
    && FullTurns(st.leaderContinuous[j] - st.leaderPrev[j])
    && Reads(st.leaderPrev[j], phys)
  }

  /** One more frame of less than half a turn. */
  lemma FollowsOn(st: ArmState, next: ArmState, start: real, p0: real, p: real, p': real, j: int)
    requires 0 <= j < DOF && Follows(st, start, p0, p, j)
    requires next.leaderContinuous[j] == st.leaderContinuous[j] + Unwrap(next.leaderPrev[j] - st.leaderPrev[j])
    requires Reads(next.leaderPrev[j], p') && Abs(p' - p) < PI
    ensures Follows(next, start, p0, p', j)
  {
    UnwrapExact(st.leaderPrev[j], next.leaderPrev[j], p, p');
    var k: int :| st.leaderContinuous[j] - st.leaderPrev[j] == Turns(k);
    UnwrapAddsTurns(st.leaderContinuous[j], st.leaderPrev[j], next.leaderPrev[j], k);
  }

  lemma SameFollows(x: ArmState, y: ArmState, start: real, physStart: real, phys: real, j: int)
    requires SameRefs(x, y) && 0 <= j < DOF && Follows(x, start, physStart, phys, j)
    ensures Follows(y, start, physStart, phys, j)
  {
  }

  /** What is known of the state that event `i` works on: it follows the pose as of the event before. */
  ghost predicate FollowsUpTo(phys: seq<Pose>, a: nat, start: real, j: int, i: nat, st: ArmState)
    requires 0 <= j < DOF && a < |phys|
  {
    a <= i <= |phys| && Follows(st, start, phys[a][j], phys[if i == a then a else i - 1][j], j)
  }

  lemma NextFollows(cfg: Config, st: ArmState, next: ArmState, f: Frame, phys: seq<Pose>, a: nat, i: nat, start: real,
                    j: int)
    requires cfg.Valid() && cfg.relative && Injective(cfg.order) && 0 <= j < DOF
    requires a <= i < |phys| && ReportsMotion(f, phys, a, i) && Continues(cfg, st, next, Values(f.positions))
    requires FollowsUpTo(phys, a, start, j, i, st)
    ensures FollowsUpTo(phys, a, start, j, i + 1, next)
  {
    FrameContinues(cfg, st, next, Values(f.positions), j);
    FollowsOn(st, next, start, phys[a][j], phys[if i == a then a else i - 1][j], phys[i][j], j);
  }

  lemma TrackedContinues(cfg: Config, r: ArmRun, i: nat)
    requires IsRun(cfg, r) && i < |r.events| && Tracked(r, i)
    ensures Continues(cfg, Before(cfg, r, i), r.states[i + 1], Values(r.events[i].frame.positions))
  {
    SessionStep(cfg, r, i);
  }

  lemma FrameEventFollows(cfg: Config, r: ArmRun, a: nat, phys: seq<Pose>, i: nat, start: real, j: int)
    requires IsRun(cfg, r) && cfg.relative && Injective(cfg.order) && 0 <= j < DOF
    requires a <= i < |r.events| == |phys| && Tracked(r, i) && ObservedAt(r, a, phys, i)
    requires FollowsUpTo(phys, a, start, j, i, Before(cfg, r, i))
    ensures FollowsUpTo(phys, a, start, j, i + 1, r.states[i + 1])
  {
    TrackedContinues(cfg, r, i);
    NextFollows(cfg, Before(cfg, r, i), r.states[i + 1], r.events[i].frame, phys, a, i, start, j);
  }

  lemma EventFollows(cfg: Config, r: ArmRun, a: nat, phys: seq<Pose>, i: nat, start: real, j: int)
    requires IsRun(cfg, r) && cfg.relative && Injective(cfg.order) && 0 <= j < DOF
    requires a <= i < |r.events| == |phys| && ObservedAt(r, a, phys, i) && r.states[i + 1].streaming
    requires FollowsUpTo(phys, a, start, j, i, From(cfg, r, i))
    ensures FollowsUpTo(phys, a, start, j, i + 1, r.states[i + 1])
  {
    if Tracked(r, i) {
      FrameEventFollows(cfg, r, a, phys, i, start, j);
    } else {
      SessionStep(cfg, r, i);
      SameFollows(r.states[i], r.states[i + 1], start, phys[a][j], phys[i][j], j);
    }
  }

  lemma OpeningFollows(cfg: Config, r: ArmRun, a: nat, phys: seq<Pose>, j: int)
    requires IsRun(cfg, r) && 0 <= j < DOF && a < |r.events| == |phys|
    requires OpensSession(r, a) && ObservedAt(r, a, phys, a)
    ensures FollowsUpTo(phys, a, Opening(cfg, r, a).leaderContinuous[j], j, a, Opening(cfg, r, a))
  {
    assert ReportsMotion(r.events[a].frame, phys, a, a);
    assert Turns(0) == 0.0;
  }

  lemma EventsFollow(cfg: Config, r: ArmRun, a: nat, b: nat, phys: seq<Pose>, start: real, j: int,
                     p: (nat, ArmState) -> bool)
    requires IsRun(cfg, r) && cfg.relative && Injective(cfg.order) && 0 <= j < DOF
    requires Session(r, a, b) && |phys| == |r.events| && Observes(r, a, b, phys)
    requires forall i, st :: p(i, st) == FollowsUpTo(phys, a, start, j, i, st)
    ensures forall i: nat :: a <= i < b && p(i, From(cfg, r, i)) ==> p(i + 1, r.states[i + 1])
  {
    forall i: nat | a <= i < b && p(i, From(cfg, r, i))
      ensures p(i + 1, r.states[i + 1])
    {
      EventFollows(cfg, r, a, phys, i, start, j);
    }
  }

  /** The continuous angle moved exactly as far as the physical joint, and differs from the report by full turns. */
  lemma UnwrapTracksMotion(cfg: Config, r: ArmRun, a: nat, b: nat, phys: seq<Pose>, j: int)
    requires IsRun(cfg, r) && cfg.relative && Injective(cfg.order) && 0 <= j < DOF
    requires Session(r, a, b) && |phys| == |r.events| && Observes(r, a, b, phys)
    ensures Follows(r.states[b], Opening(cfg, r, a).leaderContinuous[j], phys[a][j], phys[b - 1][j], j)
  {
    var start := Opening(cfg, r, a).leaderContinuous[j];
    var p := (i: nat, st: ArmState) => FollowsUpTo(phys, a, start, j, i, st);
    OpeningFollows(cfg, r, a, phys, j);
    EventsFollow(cfg, r, a, b, phys, start, j, p);
    SessionInduction(cfg, r, a, b, p);
  }

  lemma UnwrapAddsTurns(cont: real, prev: real, now: real, k: int)
    requires cont - prev == Turns(k)
    ensures FullTurns(cont + Unwrap(now - prev) - now)
  {
    var m := if now - prev > PI then k - 1 else if now - prev < -PI then k + 1 else k;
    TurnsDiffer(k, 1);
    TurnsDiffer(k, -1);
    assert cont + Unwrap(now - prev) - now == Turns(m);
  }

  // ---- What a deviation is ----

  /** The driver's own absolute map of the leader pose at hand. */
  function Absolutely(cfg: Config, st: ArmState, out: int): real
    requires 0 <= out < DOF
  {
    Map(st.leaderContinuous[cfg.order[out]], cfg.signs[out], cfg.offsets[out])
  }

  /** A deviation is the distance between the pose that the session gives the leader and the driver's absolute map. */
  lemma DeviationIsDistance(cfg: Config, st: ArmState, out: int)
    requires st.gentoRef.Some? && 0 <= out < DOF
    ensures DeviationOf(cfg, st, out) == Abs(Remapped(cfg, st, out) - Absolutely(cfg, st, out))
    ensures Absolutely(cfg, st, out) == JointMapping(st.leaderContinuous, cfg.order, cfg.signs, cfg.offsets)[out]
  {
    var src := cfg.order[out];
    OffsetIsDistance(st.gentoRef.value[out], cfg.signs[out], st.leaderContinuous[src], st.leaderContRef[src],
                     cfg.offsets[out]);
  }

  /** Over any assisted session the pose stays as near to the absolute map as the cap, or as it was at the start. */
  lemma PoseStaysNearAbsoluteMap(cfg: Config, r: ArmRun, a: nat, b: nat, out: int)
    requires IsRun(cfg, r) && Assisted(cfg) && Session(r, a, b) && 0 <= out < DOF
    ensures r.states[b].gentoRef.Some?
    ensures var st, open := r.states[b], Opening(cfg, r, a);
      Abs(Remapped(cfg, st, out) - Absolutely(cfg, st, out))
      <= Max(Max(0.0, cfg.offsetMax), Abs(Remapped(cfg, open, out) - Absolutely(cfg, open, out)))
  {
    AssistKeepsOffset(cfg, r, a, b, out);
    DeviationIsDistance(cfg, r.states[b], out);
    DeviationIsDistance(cfg, Opening(cfg, r, a), out);
  }

  // ---- Assist off: the clutch ----

  ghost predicate Unassisted(cfg: Config) {
    cfg.Valid() && cfg.relative && !cfg.assist && Injective(cfg.order)
  }

  /** The follower target of the leader pose that a session last saw. */
  function Remapped(cfg: Config, st: ArmState, out: int): real
    requires st.gentoRef.Some? && 0 <= out < DOF
  {
    Follow(st.gentoRef.value[out], cfg.signs[out], st.leaderContinuous[cfg.order[out]], st.leaderContRef[cfg.order[out]])
  }

  predicate RemapsInside(cfg: Config, st: ArmState) {
    st.gentoRef.Some? &&
    forall out :: 0 <= out < DOF ==> cfg.minimum[out] <= Remapped(cfg, st, out) <= cfg.maximum[out]
  }

  /**
   * One frame: the unclamped command is the remapped pose plus sign times the leader's motion, and afterwards the same
   * leader pose maps exactly to the clamped command.
   */
  lemma ClutchReanchors(cfg: Config, st: ArmState, leader: Pose, f: Frame, out: int)
    requires Unassisted(cfg) && Inv(cfg, st) && Open(st) && 0 <= out < DOF
    ensures var shaped := ShapedCommand(cfg, st, leader, f);
      && shaped.desired[out] ==
           Moved(Remapped(cfg, st, out), cfg.signs[out], FrameDelta(leader, st.leaderPrev)[cfg.order[out]])
      && Remapped(cfg, Clutched(cfg, st, leader, f), out) == HardClamp(cfg, shaped.desired)[out]
  {
    var src := cfg.order[out];
    var motion := FrameDelta(leader, st.leaderPrev)[src];
    var ref, contRef := st.gentoRef.value, st.leaderContRef;
    RelativeClosedForm(leader, st.leaderPrev, st.leaderContinuous, contRef, ref, cfg.order, cfg.signs, out);
    FollowAdds(ref[out], cfg.signs[out], st.leaderContinuous[src], contRef[src], motion);
    ContinuousClosedForm(leader, st.leaderPrev, st.leaderContinuous, cfg.order, src);
    var desired := ShapedCommand(cfg, st, leader, f).desired;
    var clamped := HardClamp(cfg, desired);
    assert Saturated(DOF, desired, clamped, cfg.order, src) <==> desired[out] != clamped[out];
    var cont := Continued(cfg, st, leader);
    FollowAdds(clamped[out], cfg.signs[out], cont[src], cont[src], 0.0);
  }

  lemma ClutchedRemapsInside(cfg: Config, st: ArmState, leader: Pose, f: Frame, out: int)
    requires Unassisted(cfg) && Inv(cfg, st) && Open(st) && 0 <= out < DOF
    ensures cfg.minimum[out] <= Remapped(cfg, Clutched(cfg, st, leader, f), out) <= cfg.maximum[out]
  {
    ClutchReanchors(cfg, st, leader, f, out);
  }

  lemma FrameRemapsInside(cfg: Config, r: ArmRun, i: nat)
    requires IsRun(cfg, r) && Unassisted(cfg) && i < |r.events| && Tracked(r, i)
    ensures RemapsInside(cfg, r.states[i + 1])
  {
    var st, f := Before(cfg, r, i), r.events[i].frame;
    SessionStep(cfg, r, i);
    TargetsAreTracked(cfg, r, i);
    forall out | 0 <= out < DOF
      ensures cfg.minimum[out] <= Remapped(cfg, r.states[i + 1], out) <= cfg.maximum[out]
    {
      ClutchedRemapsInside(cfg, st, Values(f.positions), f, out);
      SameRemap(cfg, Clutched(cfg, st, Values(f.positions), f), r.states[i + 1], out);
    }
  }

  /** A session's last leader pose always maps inside the limits, however far the leader was pushed past them. */
  lemma ClutchKeepsLimits(cfg: Config, r: ArmRun, n: nat)
    requires IsRun(cfg, r) && Unassisted(cfg) && n <= |r.events|
    ensures r.states[n].streaming ==> RemapsInside(cfg, r.states[n])
  {
    forall i: nat | i < n && Tracked(r, i)
      ensures RemapsInside(cfg, r.states[i + 1])
    {
      FrameRemapsInside(cfg, r, i);
    }
    StreamingInduction(cfg, r, n, st => RemapsInside(cfg, st));
  }

  lemma SameRemap(cfg: Config, x: ArmState, y: ArmState, out: int)
    requires SameRefs(x, y) && x.gentoRef.Some? && 0 <= out < DOF
    ensures Remapped(cfg, x, out) == Remapped(cfg, y, out)
  {
  }

  /**
   * Any later reversal leaves the limit at once: a frame in a running session asks for the in-limits remapped pose plus
   * sign times the reversal, so a motion back inside is followed in full.
   */
  lemma ReversalMovesAtOnce(cfg: Config, r: ArmRun, i: nat, out: int)
    requires IsRun(cfg, r) && Unassisted(cfg) && i < |r.events| && Tracked(r, i) && !r.outs[i].seeded && 0 <= out < DOF
    ensures RemapsInside(cfg, r.states[i]) && RemapsInside(cfg, r.states[i + 1])
    ensures var st, leader := r.states[i], Values(r.events[i].frame.positions);
      Remapped(cfg, r.states[i + 1], out) ==
      Clamp(Moved(Remapped(cfg, st, out), cfg.signs[out], FrameDelta(leader, st.leaderPrev)[cfg.order[out]]),
            cfg.minimum[out], cfg.maximum[out])
  {
    var st, f := r.states[i], r.events[i].frame;
    SessionStep(cfg, r, i);
    TargetsAreTracked(cfg, r, i);
    ClutchKeepsLimits(cfg, r, i);
    FrameRemapsInside(cfg, r, i);
    ClutchReanchors(cfg, st, Values(f.positions), f, out);
    SameRemap(cfg, r.states[i + 1], Clutched(cfg, st, Values(f.positions), f), out);
  }

  /** A frame's target is its clamped command after the slew limit. */
  lemma TrackTarget(cfg: Config, st: ArmState, leader: Pose, f: Frame, seeded: bool, out: int)
    requires Unassisted(cfg) && Inv(cfg, st) && Open(st) && 0 <= out < DOF
    ensures Track(cfg, st, leader, f, seeded).target.Some?
    ensures Track(cfg, st, leader, f, seeded).target.value[out]
      == LimitDelta(Remapped(cfg, Clutched(cfg, st, leader, f), out), st.lastCommand.value[out], cfg.maxDelta)
  {
    ClutchReanchors(cfg, st, leader, f, out);
    ClampAfterSlewIsIdentity(HardClamp(cfg, ShapedCommand(cfg, st, leader, f).desired), st.lastCommand.value,
                             cfg.minimum, cfg.maximum, cfg.maxDelta);
  }

  lemma RunningTarget(cfg: Config, st: ArmState, f: Frame, out: int)
    requires Unassisted(cfg) && Inv(cfg, st) && st.streaming && RelativeFrame(cfg, st, f).target.Some? && 0 <= out < DOF
    ensures var o := RelativeFrame(cfg, st, f);
      && o.state.gentoRef.Some?
      && o.target.value[out] == LimitDelta(Remapped(cfg, o.state, out), st.lastCommand.value[out], cfg.maxDelta)
  {
    var leader := Values(f.positions);
    TrackedOutcome(cfg, st, f);
    TrackTarget(cfg, st, leader, f, false, out);
    TrackRefs(cfg, st, leader, f, false);
    SameRemap(cfg, Clutched(cfg, st, leader, f), Track(cfg, st, leader, f, false).state, out);
  }

  lemma LimitDeltaExact(goal: real, last: real, maxDelta: real)
    requires maxDelta > 0.0
    ensures LimitDelta(goal, last, maxDelta) == goal <==> Abs(goal - last) <= maxDelta
  {
  }

  lemma ClampIsCloser(x: real, last: real, lo: real, hi: real)
    requires lo <= last <= hi
    ensures Abs(Clamp(x, lo, hi) - last) <= Abs(x - last)
  {
  }

  /** What is sent: the remapped pose, after the slew limit; exactly that pose when the last command is near enough. */
  lemma ReversalIsSent(cfg: Config, r: ArmRun, i: nat, out: int)
    requires IsRun(cfg, r) && Unassisted(cfg) && i < |r.events| && Tracked(r, i) && !r.outs[i].seeded && 0 <= out < DOF
    ensures Open(r.states[i]) && r.states[i + 1].gentoRef.Some?
    ensures var last, goal := r.states[i].lastCommand.value[out], Remapped(cfg, r.states[i + 1], out);
      && r.outs[i].target.value[out] == LimitDelta(goal, last, cfg.maxDelta)
      && (r.outs[i].target.value[out] == goal <==> Abs(goal - last) <= cfg.maxDelta)
  {
    StepAt(cfg, r, i);
    TargetsAreTracked(cfg, r, i);
    RunningTarget(cfg, r.states[i], r.events[i].frame, out);
    LimitDeltaExact(Remapped(cfg, r.states[i + 1], out), r.states[i].lastCommand.value[out], cfg.maxDelta);
  }

  /**
   * Once the last command has caught up with the leader, a motion of at most the slew limit is sent in full: off the
   * limit, however far the leader was pushed past it, or up to it.
   */
  lemma ReversalIsSentInFull(cfg: Config, r: ArmRun, i: nat, out: int)
    requires IsRun(cfg, r) && Unassisted(cfg) && i < |r.events| && Tracked(r, i) && !r.outs[i].seeded && 0 <= out < DOF
    requires Open(r.states[i]) && r.states[i].lastCommand.value[out] == Remapped(cfg, r.states[i], out)
    ensures var st, leader := r.states[i], Values(r.events[i].frame.positions);
      var last := st.lastCommand.value[out];
      var goal := Moved(last, cfg.signs[out], FrameDelta(leader, st.leaderPrev)[cfg.order[out]]);
      Abs(goal - last) <= cfg.maxDelta ==>
        r.outs[i].target.value[out] == Clamp(goal, cfg.minimum[out], cfg.maximum[out])
  {
    var st, leader := r.states[i], Values(r.events[i].frame.positions);
    var last := st.lastCommand.value[out];
    ReversalMovesAtOnce(cfg, r, i, out);
    ReversalIsSent(cfg, r, i, out);
    ClampIsCloser(Moved(last, cfg.signs[out], FrameDelta(leader, st.leaderPrev)[cfg.order[out]]), last, cfg.minimum[out],
                  cfg.maximum[out]);
  }
}
