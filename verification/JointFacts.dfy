/** Facts about single stages of the joint pipeline, one joint or one frame at a time. */
module JointFacts {
  import opened Prelude
  import opened JointMath

  // ---- Phase unwrap ----

  /** `k` full turns, 2 pi each. */
  function Turns(k: int): real {
    (k as real) * 6.28318530717958647692
  }

  ghost predicate FullTurns(x: real) {
    exists k: int :: x == Turns(k)
  }

  /** A sensor reading of a physical angle: reduced to (-pi, pi]. */
  ghost predicate Reads(reported: real, physical: real) {
    -PI < reported <= PI && FullTurns(reported - physical)
  }

  lemma TurnsDiffer(j: int, k: int)
    ensures Turns(j) - Turns(k) == Turns(j - k)
    ensures j - k >= 2 ==> Turns(j - k) >= 4.0 * PI
    ensures j - k <= -2 ==> Turns(j - k) <= -4.0 * PI
    ensures Turns(0) == 0.0 && Turns(1) == 2.0 * PI && Turns(-1) == -2.0 * PI
  {
  }

  /** Exactly when the corrected difference of two readings is the physical motion between them. */
  lemma UnwrapExact(r: real, r': real, p: real, p': real)
    requires Reads(r, p) && Reads(r', p')
    ensures Unwrap(r' - r) == p' - p <==> Abs(p' - p) < PI || (Abs(p' - p) == PI && r' - r == p' - p)
    ensures FullTurns(Unwrap(r' - r) - (p' - p))
  {
    var j: int :| r - p == Turns(j);
    var k: int :| r' - p' == Turns(k);
    TurnsDiffer(k, j);
    TurnsDiffer(k - j, 1);
    TurnsDiffer(k - j, -1);
    assert (r' - r) - (p' - p) == Turns(k - j);
    var m := if r' - r > PI then k - j - 1 else if r' - r < -PI then k - j + 1 else k - j;
    assert Unwrap(r' - r) - (p' - p) == Turns(m);
    TurnsDiffer(m, 0);
    if Abs(p' - p) < PI {
      assert m == 0;
    }
  }

  // ---- Relative map ----

  lemma FollowAdds(ref: real, sign: real, leader: real, leaderRef: real, motion: real)
    ensures Follow(ref, sign, leader + motion, leaderRef) == Moved(Follow(ref, sign, leader, leaderRef), sign, motion)
    ensures Follow(ref, sign, leaderRef, leaderRef) == ref
  {
  }

  /** What an offset means: how far the relative map is from the absolute map of the same leader, whatever its angle. */
  lemma OffsetIsDistance(ref: real, sign: real, leader: real, leaderRef: real, oCal: real)
    ensures Follow(ref, sign, leader, leaderRef) - Map(leader, sign, oCal) == Offset(ref, sign, leaderRef) - oCal
  {
  }

  /** Outputs not yet processed leave their leader joint alone; each processed one adds its motion once. */
  lemma {:induction false} ContinuousPrefix(k: nat, now: Pose, prev: Pose, cont: Pose, order: Order, j: int)
    requires k <= DOF && 0 <= j < DOF && Injective(order)
    ensures ContinuousAfter(k, now, prev, cont, order)[j] ==
      cont[j] + if exists out :: 0 <= out < k && order[out] == j then Unwrap(now[j] - prev[j]) else 0.0
  {
    if k > 0 {
      ContinuousPrefix(k - 1, now, prev, cont, order, j);
    }
  }

  /** With a permutation every leader joint advances by its own corrected motion. */
  lemma ContinuousClosedForm(now: Pose, prev: Pose, cont: Pose, order: Order, j: int)
    requires Injective(order) && 0 <= j < DOF
    ensures ContinuousAfter(DOF, now, prev, cont, order)[j] == cont[j] + FrameDelta(now, prev)[j]
  {
    ContinuousPrefix(DOF, now, prev, cont, order, j);
    var out := InjectiveIsOnto(order, j);
  }

  /** An output is mapped from its leader joint's final continuous angle. */
  lemma RelativeClosedForm(now: Pose, prev: Pose, cont: Pose, contRef: Pose, ref: Pose, order: Order, signs: Pose,
                           out: int)
    requires Injective(order) && 0 <= out < DOF
    ensures RelativeMapping(now, prev, cont, contRef, ref, order, signs)[out] ==
      Follow(ref[out], signs[out], cont[order[out]] + FrameDelta(now, prev)[order[out]], contRef[order[out]])
  {
    ContinuousPrefix(out + 1, now, prev, cont, order, order[out]);
  }

  /** A leader that did not move leaves the continuous angles as they are, in any order. */
  lemma {:induction false} StillLeader(k: nat, now: Pose, cont: Pose, order: Order)
    requires k <= DOF
    ensures ContinuousAfter(k, now, now, cont, order) == cont
  {
    if k > 0 {
      StillLeader(k - 1, now, cont, order);
    }
  }

  lemma StillLeaderMaps(now: Pose, cont: Pose, contRef: Pose, ref: Pose, order: Order, signs: Pose, out: int)
    requires 0 <= out < DOF
    ensures RelativeMapping(now, now, cont, contRef, ref, order, signs)[out] ==
      Follow(ref[out], signs[out], cont[order[out]], contRef[order[out]])
  {
    StillLeader(out + 1, now, cont, order);
  }

  // ---- Soft compression ----

  /** What the compression needs of its saturating curve: odd, increasing, bounded by one, 1-Lipschitz. */
  ghost predicate Sigmoid(f: real -> real) {
    && (forall x, y :: x + y == 0.0 ==> f(x) + f(y) == 0.0)
    && (forall x :: -1.0 < f(x) < 1.0)
    && (forall x, y :: x < y ==> f(x) < f(y) <= f(x) + (y - x))
  }

  function Ratio(x: real): real {
    x / (1.0 + Abs(x))
  }

  function Gap(p: real, q: real, x: real): real {
    p * q * x
  }

  lemma ScaledDown(m: real, x: real)
    requires 0.0 < m <= 1.0 && x > 0.0
    ensures 0.0 < m * x <= x
  {
    assert (1.0 - m) * x >= 0.0;
  }

  lemma ReciprocalPositive(a: real)
    requires a >= 1.0
    ensures 0.0 < 1.0 / a <= 1.0 && (1.0 / a) * a == 1.0
  {
  }

  lemma GapSmall(p: real, q: real, x: real)
    requires 0.0 < p <= 1.0 && 0.0 < q <= 1.0 && x > 0.0
    ensures 0.0 < Gap(p, q, x) <= x
  {
    ScaledDown(p, q);
    ScaledDown(p * q, x);
  }

  lemma GapOfInverses(p: real, q: real, a: real, b: real)
    requires p * a == 1.0 && q * b == 1.0
    ensures Gap(p, q, b - a) == p - q
  {
    assert p * (q * b) == p * q * b && q * (p * a) == p * q * a;
    assert p * q * (b - a) == p * q * b - p * q * a;
  }

  lemma InverseFalls(p: real, q: real, a: real, b: real)
    requires p * a == 1.0 && q * b == 1.0 && 0.0 < p <= 1.0 && 0.0 < q <= 1.0 && a < b
    ensures q < p && p - q <= b - a
  {
    GapOfInverses(p, q, a, b);
    GapSmall(p, q, b - a);
  }

  lemma ReciprocalFalls(a: real, b: real)
    requires 1.0 <= a < b
    ensures 0.0 < 1.0 / b < 1.0 / a <= 1.0 && 1.0 / a - 1.0 / b <= b - a
  {
    ReciprocalPositive(a);
    ReciprocalPositive(b);
    InverseFalls(1.0 / a, 1.0 / b, a, b);
  }

  lemma RatioOnPositive(x: real)
    requires x >= 0.0
    ensures Ratio(x) == 1.0 - 1.0 / (1.0 + x)
    ensures Ratio(0.0 - x) == 0.0 - Ratio(x)
  {
    assert (1.0 / (1.0 + x)) * (1.0 + x) == 1.0;
  }

  lemma RatioIncreases(x: real, y: real)
    requires x < y
    ensures Ratio(x) < Ratio(y) <= Ratio(x) + (y - x)
  {
    RatioOnPositive(Abs(x));
    RatioOnPositive(Abs(y));
    if x >= 0.0 {
      ReciprocalFalls(1.0 + x, 1.0 + y);
    } else if y <= 0.0 {
      ReciprocalFalls(1.0 - y, 1.0 - x);
    } else {
      ReciprocalFalls(1.0, 1.0 - x);
      ReciprocalFalls(1.0, 1.0 + y);
    }
  }

  lemma RatioBounded(x: real)
    ensures -1.0 < Ratio(x) < 1.0 && Ratio(0.0 - x) == 0.0 - Ratio(x)
  {
    RatioOnPositive(Abs(x));
    ReciprocalFalls(1.0 + Abs(x), 2.0 + Abs(x));
  }

  /** The requirement is met, for instance by x / (1 + |x|). */
  lemma SigmoidsExist()
    ensures Sigmoid(Ratio)
  {
    forall x
      ensures -1.0 < Ratio(x) < 1.0
    {
      RatioBounded(x);
    }
    forall x, y | x + y == 0.0
      ensures Ratio(x) + Ratio(y) == 0.0
    {
      RatioBounded(x);
    }
    forall x, y | x < y
      ensures Ratio(x) < Ratio(y) <= Ratio(x) + (y - x)
    {
      RatioIncreases(x, y);
    }
  }

  lemma ScaleAdds(x: real, y: real, d: real)
    ensures Scale(x + y, d) == Scale(x, d) + Scale(y, d)
    ensures Scale(0.0, d) == 0.0 && Scale(1.0, d) == d
  {
  }

  lemma ScalePositive(x: real, d: real)
    requires x > 0.0 && d > 0.0
    ensures Scale(x, d) > 0.0
  {
  }

  lemma ScaleBounds(s: real, u: real, d: real)
    requires 0.0 < s < 1.0 && s <= u && d > 0.0
    ensures 0.0 < Scale(s, d) && Scale(s, d) < d && Scale(s, d) <= Scale(u, d)
  {
    ScalePositive(s, d);
    ScalePositive(1.0 - s, d);
    ScaleAdds(s, 1.0 - s, d);
    ScaleAdds(s, u - s, d);
    if s < u {
      ScalePositive(u - s, d);
    }
  }

  lemma Divided(e: real, d: real)
    requires d > 0.0
    ensures Scale(e / d, d) == e && (e > 0.0 ==> e / d > 0.0)
  {
  }

  lemma BendBounds(f: real -> real, e: real, d: real)
    requires d > 0.0 && 0.0 < f(e / d) < 1.0 && f(e / d) <= e / d
    ensures 0.0 < Bend(f, e, d) < d && Bend(f, e, d) <= e
  {
    ScaleBounds(f(e / d), e / d, d);
    Divided(e, d);
  }

  lemma SigmoidAbove(f: real -> real, u: real)
    requires Sigmoid(f) && u > 0.0
    ensures 0.0 < f(u) < 1.0 && f(u) <= u
  {
    assert f(0.0) + f(0.0) == 0.0;
    assert f(0.0) < f(u) <= f(0.0) + (u - 0.0);
  }

  lemma CurveAbove(f: real -> real, e: real, d: real)
    requires Sigmoid(f) && d > 0.0 && e > 0.0
    ensures 0.0 < Bend(f, e, d) < d && Bend(f, e, d) <= e
  {
    Divided(e, d);
    SigmoidAbove(f, e / d);
    BendBounds(f, e, d);
  }

  lemma Opposite(f: real -> real, e: real, d: real)
    requires Sigmoid(f) && d > 0.0
    ensures Bend(f, e, d) == -Bend(f, 0.0 - e, d)
  {
    assert e / d + (0.0 - e) / d == 0.0;
    assert f(e / d) + f((0.0 - e) / d) == 0.0;
  }

  /** What the curve gives on an excess past a soft edge: less than the excess, and less than the zone. */
  lemma CurveOnExcess(f: real -> real, e: real, d: real)
    requires Sigmoid(f) && d > 0.0
    ensures e > 0.0 ==> 0.0 < Bend(f, e, d) < d && Bend(f, e, d) <= e
    ensures e < 0.0 ==> -d < Bend(f, e, d) < 0.0 && Bend(f, e, d) >= e
  {
    if e > 0.0 {
      CurveAbove(f, e, d);
    } else if e < 0.0 {
      CurveAbove(f, 0.0 - e, d);
      Opposite(f, e, d);
    }
  }

  /** Inside the soft edges the curve is the identity; beyond them it pulls back, by less than the zone's width. */
  lemma CompressMovesLittle(f: real -> real, raw: real, lo: real, hi: real, delta: real)
    requires Sigmoid(f) && lo <= raw <= hi && SoftZone(delta) <= hi - lo
    ensures var d := SoftZone(delta); var c := Compress(f, raw, lo, hi, delta);
      lo <= c <= hi && Abs(c - raw) <= d && (lo + d <= raw <= hi - d ==> c == raw)
  {
    var d := SoftZone(delta);
    CurveOnExcess(f, raw - (hi - d), d);
    CurveOnExcess(f, raw - (lo + d), d);
  }

  /** Wherever the raw target is, compression leads no further than a zone's width from its clamped value. */
  lemma CompressNearClamp(f: real -> real, raw: real, lo: real, hi: real, delta: real)
    requires Sigmoid(f) && SoftZone(delta) <= hi - lo
    ensures var c := Compress(f, raw, lo, hi, delta); lo <= c <= hi && Abs(c - Clamp(raw, lo, hi)) <= SoftZone(delta)
  {
    var d := SoftZone(delta);
    CurveOnExcess(f, raw - (hi - d), d);
    CurveOnExcess(f, raw - (lo + d), d);
  }

  /** Compression alone keeps every raw target inside the limits exactly when the zone fits between them. */
  lemma CompressStaysInside(f: real -> real, lo: real, hi: real, delta: real)
    requires Sigmoid(f) && lo <= hi
    ensures (forall raw :: lo <= Compress(f, raw, lo, hi, delta) <= hi) <==> SoftZone(delta) <= hi - lo
  {
    var d := SoftZone(delta);
    if d <= hi - lo {
      forall raw
        ensures lo <= Compress(f, raw, lo, hi, delta) <= hi
      {
        CurveOnExcess(f, raw - (hi - d), d);
        CurveOnExcess(f, raw - (lo + d), d);
      }
    } else {
      var raw := (hi - d + lo) / 2.0;
      CurveOnExcess(f, raw - (hi - d), d);
      assert Compress(f, raw, lo, hi, delta) < lo;
    }
  }

  /** The same for a whole pose. */
  lemma SoftStaysInside(f: real -> real, raw: Pose, lo: Pose, hi: Pose, delta: real)
    requires Sigmoid(f) && Within(lo, lo, hi)
    requires forall i :: 0 <= i < DOF ==> SoftZone(delta) <= hi[i] - lo[i]
    ensures Within(SoftCompress(f, raw, lo, hi, delta), lo, hi)
  {
    forall i | 0 <= i < DOF
      ensures lo[i] <= Compress(f, raw[i], lo[i], hi[i], delta) <= hi[i]
    {
      CompressStaysInside(f, lo[i], hi[i], delta);
    }
  }

  // ---- Leash ----

  /**
   * The leash ends inside its interval, moves target and reference together unless it freezes, and never carries an
   * offset beyond its cap that was not already further out.
   */
  lemma LeashBoundsOffset(raw: real, ref: real, oEff: real, lo: real, hi: real, oCal: real, slack: real, oMax: real)
    requires lo <= hi
    ensures var l := LeashJoint(raw, ref, oEff, lo, hi, oCal, slack, oMax); var lam := Max(0.0, slack);
      && lo - lam <= l.raw <= hi + lam
      && (l.ref == ref || l.ref - ref == l.raw - raw)
      && (lo - lam <= raw <= hi + lam ==> l == Leashed(raw, ref, false))
      && Abs(oEff + (l.ref - ref) - oCal) <= Max(Max(0.0, oMax), Abs(oEff - oCal))
  {
  }

  // ---- Resync ----

  predicate Admitted(oEff: real, oCal: real, q: real, lo: real, hi: real, rate: real, delta: real) {
    var step := Clamp(oCal - oEff, -Max(0.0, rate), Max(0.0, rate));
    Compression(q + step, lo, hi, Max(delta, 0.0)) <= Compression(q, lo, hi, Max(delta, 0.0)) + ADMISSION_SLACK
  }

  /** An admitted step cuts the distance to calibration by min(distance, rate) and never crosses it. */
  lemma ResyncApproaches(oEff: real, oCal: real, q: real, lo: real, hi: real, rate: real, delta: real)
    ensures var step := ResyncStep(oEff, oCal, q, lo, hi, rate, delta);
      && (Admitted(oEff, oCal, q, lo, hi, rate, delta) ==>
            Abs(oCal - (oEff + step)) == Abs(oCal - oEff) - Min(Abs(oCal - oEff), Max(0.0, rate)))
      && (!Admitted(oEff, oCal, q, lo, hi, rate, delta) ==> step == 0.0)
      && (oCal >= oEff ==> oEff <= oEff + step <= oCal)
      && (oCal <= oEff ==> oCal <= oEff + step <= oEff)
      && Compression(q + step, lo, hi, Max(delta, 0.0)) <= Compression(q, lo, hi, Max(delta, 0.0)) + ADMISSION_SLACK
  {
  }

  /** Exactly when a step is taken: off calibration, at a positive rate, and admitted. */
  lemma ResyncActsIff(oEff: real, oCal: real, q: real, lo: real, hi: real, rate: real, delta: real)
    ensures ResyncStep(oEff, oCal, q, lo, hi, rate, delta) != 0.0
      <==> oEff != oCal && rate > 0.0 && Admitted(oEff, oCal, q, lo, hi, rate, delta)
    ensures Abs(ResyncStep(oEff, oCal, q, lo, hi, rate, delta)) <= Max(0.0, rate)
  {
  }

  function Times(n: nat, rate: real): real {
    (n as real) * rate
  }

  lemma OneMore(n: nat, rate: real)
    ensures Times(n + 1, rate) == Times(n, rate) + rate && Times(0, rate) == 0.0
  {
  }

  // ---- Limits ----

  /** Between two poses inside the limits the slew limit already stays inside: clamping again changes nothing. */
  lemma ClampAfterSlewIsIdentity(desired: Pose, last: Pose, lo: Pose, hi: Pose, maxDelta: real)
    requires Within(desired, lo, hi) && Within(last, lo, hi) && maxDelta > 0.0
    ensures ClampToLimits(LimitDeltas(desired, last, maxDelta), lo, hi) == LimitDeltas(desired, last, maxDelta)
    ensures Near(LimitDeltas(desired, last, maxDelta), last, maxDelta)
    ensures Near(desired, last, maxDelta) ==> LimitDeltas(desired, last, maxDelta) == desired
  {
    assert Within(LimitDeltas(desired, last, maxDelta), lo, hi);
  }
}
