/** The driver's per-joint command arithmetic as functions on poses. */
module JointMath {
  import opened Prelude

  /** Correct a frame-to-frame difference for a jump of the reported angle by a full turn. */
  function Unwrap(d: real): real {
    if d > PI then d - 2.0 * PI
    else if d < -PI then d + 2.0 * PI
    else d
  }

  function ClampToLimits(target: Pose, lo: Pose, hi: Pose): (clamped: Pose)
    ensures Within(lo, lo, hi) ==> Within(clamped, lo, hi)
    ensures Within(target, lo, hi) ==> clamped == target
  {
    seq(DOF, i requires 0 <= i < DOF => Clamp(target[i], lo[i], hi[i]))
  }

  /** One output of the absolute map. */
  function Map(leader: real, sign: real, offset: real): real {
    leader * sign + offset
  }

  /** A joint moved by sign times another joint's motion. */
  function Moved(start: real, sign: real, motion: real): real {
    start + sign * motion
  }

  /** One output of the relative map: the follower reference moved by the leader's travel. */
  function Follow(followerRef: real, sign: real, leader: real, leaderRef: real): real {
    Moved(followerRef, sign, leader - leaderRef)
  }

  function JointMapping(leader: Pose, order: Order, signs: Pose, offsets: Pose): Pose {
    seq(DOF, out requires 0 <= out < DOF => Map(leader[order[out]], signs[out], offsets[out]))
  }

  /** The continuous leader angles after the first `k` outputs of a frame have been processed. */
  function ContinuousAfter(k: nat, now: Pose, prev: Pose, cont: Pose, order: Order): Pose
    requires k <= DOF
  {
    if k == 0 then cont
    else
      var before := ContinuousAfter(k - 1, now, prev, cont, order);
      var src := order[k - 1];
      before[src := before[src] + Unwrap(now[src] - prev[src])]
  }

  function RelativeMapping(now: Pose, prev: Pose, cont: Pose, contRef: Pose,
                           followerRef: Pose, order: Order, signs: Pose): Pose
  {
    seq(DOF, out requires 0 <= out < DOF =>
      Follow(followerRef[out], signs[out], ContinuousAfter(out + 1, now, prev, cont, order)[order[out]],
             contRef[order[out]]))
  }

  /** The relative offset between follower and leader that a session carries on one joint. */
  function Offset(ref: real, sign: real, leaderRef: real): real {
    ref - sign * leaderRef
  }

  function OffsetAt(gentoRef: Pose, contRef: Pose, order: Order, signs: Pose, out: int): real
    requires 0 <= out < DOF
  {
    Offset(gentoRef[out], signs[out], contRef[order[out]])
  }

  /** The width of the soft zone at each limit; never zero. */
  function SoftZone(delta: real): (d: real)
    ensures d > 0.0 && d >= delta
  {
    Max(delta, 0.000000001)
  }

  /** The saturating curve (`tanh` is a parameter) on an excess `e` past a soft edge, scaled to a zone of width `d`. */
  function Bend(tanh: real -> real, e: real, d: real): real
    requires d > 0.0
  {
    Scale(tanh(e / d), d)
  }

  function Scale(x: real, d: real): real {
    d * x
  }

  function Compress(tanh: real -> real, raw: real, lo: real, hi: real, delta: real): real {
    var d := SoftZone(delta);
    var aHi := hi - d;
    var aLo := lo + d;
    if raw > aHi then aHi + Bend(tanh, raw - aHi, d)
    else if raw < aLo then aLo + Bend(tanh, raw - aLo, d)
    else raw
  }

  function SoftCompress(tanh: real -> real, raw: Pose, lo: Pose, hi: Pose, delta: real): Pose {
    seq(DOF, i requires 0 <= i < DOF => Compress(tanh, raw[i], lo[i], hi[i], delta))
  }

  /** A joint's raw target and follower reference while the leash acts on them. */
  datatype Leashed = Leashed(raw: real, ref: real, touched: bool)

  function LeashJoint(raw: real, ref: real, oEff: real, lo: real, hi: real, oCal: real,
                      slack: real, oMax: real): Leashed
  {
    var lam := Max(0.0, slack);
    var cap := Max(0.0, oMax);
    if lo - lam <= raw && raw <= hi + lam then Leashed(raw, ref, false)
    else
      var excess := if raw > hi + lam then raw - (hi + lam) else raw - (lo - lam);
      var oNew := oEff - excess;
      if Abs(oNew - oCal) > cap && Abs(oNew - oCal) > Abs(oEff - oCal) then
        Leashed(Clamp(raw, lo - lam, hi + lam), ref, true)
      else
        Leashed(raw - excess, ref - excess, true)
  }

  datatype LeashParams = LeashParams(order: Order, signs: Pose, lo: Pose, hi: Pose, oCal: Pose,
                                     slack: real, oMax: real)

  function LeashAt(p: LeashParams, raw: Pose, gentoRef: Pose, contRef: Pose, out: int): Leashed
    requires 0 <= out < DOF
  {
    LeashJoint(raw[out], gentoRef[out], OffsetAt(gentoRef, contRef, p.order, p.signs, out),
               p.lo[out], p.hi[out], p.oCal[out], p.slack, p.oMax)
  }

  function LeashAll(p: LeashParams, raw: Pose, gentoRef: Pose, contRef: Pose): (all: seq<Leashed>)
    ensures |all| == DOF
  {
    seq(DOF, out requires 0 <= out < DOF => LeashAt(p, raw, gentoRef, contRef, out))
  }

  function RawOf(all: seq<Leashed>): Pose
    requires |all| == DOF
  {
    seq(DOF, out requires 0 <= out < DOF => all[out].raw)
  }

  function RefOf(all: seq<Leashed>): Pose
    requires |all| == DOF
  {
    seq(DOF, out requires 0 <= out < DOF => all[out].ref)
  }

  /** How far `q` reaches into the soft zones of its limits. */
  function Compression(q: real, lo: real, hi: real, d: real): real {
    Max(0.0, Max(q - (hi - d), lo + d - q))
  }

  const ADMISSION_SLACK: real := 0.000000000001

  /** The nudge applied to one joint's follower reference; zero when it is not admitted. */
  function ResyncStep(oEff: real, oCal: real, q: real, lo: real, hi: real, rateLimit: real, softDelta: real): real {
    var d := Max(softDelta, 0.0);
    var err := oCal - oEff;
    var lim := Max(0.0, rateLimit);
    if err == 0.0 || lim <= 0.0 then 0.0
    else
      var step := Clamp(err, -lim, lim);
      if Compression(q + step, lo, hi, d) > Compression(q, lo, hi, d) + ADMISSION_SLACK then 0.0
      else step
  }

  datatype ResyncParams = ResyncParams(order: Order, signs: Pose, oCal: Pose, lo: Pose, hi: Pose, softDelta: real)

  function ResyncAt(p: ResyncParams, gentoRef: Pose, contRef: Pose, q: Pose, rate: Pose, out: int): real
    requires 0 <= out < DOF
  {
    ResyncStep(OffsetAt(gentoRef, contRef, p.order, p.signs, out), p.oCal[out], q[out],
               p.lo[out], p.hi[out], rate[out], p.softDelta)
  }

  function ResyncSteps(p: ResyncParams, gentoRef: Pose, contRef: Pose, q: Pose, rate: Pose): Pose {
    seq(DOF, out requires 0 <= out < DOF => ResyncAt(p, gentoRef, contRef, q, rate, out))
  }

  function Shifted(p: Pose, shift: Pose): Pose {
    seq(DOF, out requires 0 <= out < DOF => p[out] + shift[out])
  }

  /** Leader joint `src` feeds one of the first `k` outputs whose command was clamped. */
  predicate Saturated(k: nat, desired: Pose, clamped: Pose, order: Order, src: int)
    requires k <= DOF
  {
    exists out :: 0 <= out < k && order[out] == src && desired[out] != clamped[out]
  }

  function ClutchContRef(k: nat, desired: Pose, clamped: Pose, cont: Pose, contRef: Pose, order: Order): Pose
    requires k <= DOF
  {
    seq(DOF, src requires 0 <= src < DOF => if Saturated(k, desired, clamped, order, src) then cont[src] else contRef[src])
  }

  function ClutchGentoRef(desired: Pose, clamped: Pose, gentoRef: Pose): Pose {
    seq(DOF, out requires 0 <= out < DOF => if desired[out] == clamped[out] then gentoRef[out] else clamped[out])
  }

  function LimitDelta(desired: real, previous: real, maxDelta: real): real {
    if desired - previous > maxDelta then previous + maxDelta
    else if desired - previous < -maxDelta then previous - maxDelta
    else desired
  }

  function LimitDeltas(desired: Pose, previous: Pose, maxDelta: real): Pose {
    seq(DOF, i requires 0 <= i < DOF => LimitDelta(desired[i], previous[i], maxDelta))
  }

  /** Per-joint leader motion of a frame, corrected for full-turn jumps. */
  function FrameDelta(now: Pose, prev: Pose): Pose {
    seq(DOF, i requires 0 <= i < DOF => Unwrap(now[i] - prev[i]))
  }

  function MaxAbsDifference(k: nat, a: Pose, b: Pose): real
    requires k <= DOF
  {
    if k == 0 then 0.0 else Max(MaxAbsDifference(k - 1, a, b), Abs(a[k - 1] - b[k - 1]))
  }
}
