/** The assist's scalar pieces, said without their formulas: compression, admission, blocking, stillness and rates. */
module AssistShape {
  import opened Prelude
  import opened JointMath
  import opened JointFacts
  import opened ArmModel
  import opened ArmRuns
  import opened ArmTheorems
  import opened ResyncTheorems
  import opened AssistedCommand

  // ---- Compression ----

  lemma ScaleOrdered(g: real, u: real, d: real)
    requires d > 0.0 && 0.0 < g <= u
    ensures 0.0 < Scale(g, d) <= Scale(u, d)
  {
    ScalePositive(g, d);
    ScaleAdds(u - g, g, d);
    if u > g {
      ScalePositive(u - g, d);
    }
  }

  lemma ProductsOrdered(a: real, b: real, d: real)
    requires d > 0.0
    ensures a < b <==> a * d < b * d
  {
    if a < b {
      assert (b - a) * d > 0.0;
    } else {
      assert (a - b) * d >= 0.0;
    }
  }

  lemma QuotientsOrdered(e: real, e': real, d: real)
    requires d > 0.0 && e < e'
    ensures e / d < e' / d
  {
    assert e / d * d == e && e' / d * d == e';
    ProductsOrdered(e / d, e' / d, d);
  }

  /** The scaled curve grows, and no faster than its argument. */
  lemma BendGrows(f: real -> real, e: real, e': real, d: real)
    requires Sigmoid(f) && d > 0.0 && e < e'
    ensures Bend(f, e, d) < Bend(f, e', d) <= Bend(f, e, d) + (e' - e)
  {
    var x, x' := e / d, e' / d;
    QuotientsOrdered(e, e', d);
    Divided(e, d);
    Divided(e', d);
    ScaleAdds(x' - x, x, d);
    ScaleAdds(f(x') - f(x), f(x), d);
    ScaleOrdered(f(x') - f(x), x' - x, d);
  }

  lemma BendAtZero(f: real -> real, d: real)
    requires Sigmoid(f) && d > 0.0
    ensures Bend(f, 0.0, d) == 0.0
  {
    assert f(0.0) + f(0.0) == 0.0;
    assert 0.0 / d == 0.0;
    ScaleAdds(0.0, 0.0, d);
  }

  /** With room for both zones, compression is continuous and strictly increasing: it never amplifies a motion, and never
    * stops or reverses one. */
  lemma CompressGrows(f: real -> real, x: real, y: real, lo: real, hi: real, delta: real)
    requires Sigmoid(f) && 2.0 * SoftZone(delta) <= hi - lo && x < y
    ensures var c, c' := Compress(f, x, lo, hi, delta), Compress(f, y, lo, hi, delta); c < c' <= c + (y - x)
  {
    var d := SoftZone(delta);
    BendAtZero(f, d);
    if x < lo + d {
      BendGrows(f, x - (lo + d), if y < lo + d then y - (lo + d) else 0.0, d);
    }
    if y > hi - d {
      BendGrows(f, if x > hi - d then x - (hi - d) else 0.0, y - (hi - d), d);
    }
  }

  /** The curve is flatter than the identity, as tanh is. */
  ghost predicate Flattens(f: real -> real) {
    forall u :: u > 0.0 ==> f(u) < u
  }

  lemma FlatBend(f: real -> real, e: real, d: real)
    requires Sigmoid(f) && Flattens(f) && d > 0.0 && e > 0.0
    ensures Bend(f, e, d) < e
  {
    Divided(e, d);
    ScalePositive(e / d - f(e / d), d);
    ScaleAdds(e / d - f(e / d), f(e / d), d);
  }

  /** Overlapping zones: at the upper edge the compressed target jumps back. */
  lemma OverlapReverses(f: real -> real, lo: real, hi: real, delta: real) returns (x: real, y: real)
    requires Sigmoid(f) && Flattens(f) && SoftZone(delta) <= hi - lo < 2.0 * SoftZone(delta)
    ensures x < y && Compress(f, x, lo, hi, delta) > Compress(f, y, lo, hi, delta)
  {
    var d := SoftZone(delta);
    x := hi - d;
    FlatBend(f, (lo + d) - x, d);
    Opposite(f, x - (lo + d), d);
    y := (x + Compress(f, x, lo, hi, delta)) / 2.0;
    CurveOnExcess(f, y - x, d);
  }

  /** Exactly when compression never reverses a motion: the two zones do not overlap. */
  lemma CompressMonotoneIff(f: real -> real, lo: real, hi: real, delta: real)
    requires Sigmoid(f) && Flattens(f) && SoftZone(delta) <= hi - lo
    ensures (forall x, y :: x < y ==> Compress(f, x, lo, hi, delta) <= Compress(f, y, lo, hi, delta))
      <==> 2.0 * SoftZone(delta) <= hi - lo
  {
    if 2.0 * SoftZone(delta) <= hi - lo {
      forall x, y | x < y
        ensures Compress(f, x, lo, hi, delta) <= Compress(f, y, lo, hi, delta)
      {
        CompressGrows(f, x, y, lo, hi, delta);
      }
    } else {
      var x, y := OverlapReverses(f, lo, hi, delta);
    }
  }

  /** Both limits are treated alike. */
  lemma CompressIsSymmetric(f: real -> real, x: real, lo: real, hi: real, delta: real)
    requires Sigmoid(f) && 2.0 * SoftZone(delta) <= hi - lo
    ensures Compress(f, lo + hi - x, lo, hi, delta) == lo + hi - Compress(f, x, lo, hi, delta)
  {
    var d := SoftZone(delta);
    Opposite(f, x - (hi - d), d);
    Opposite(f, x - (lo + d), d);
    assert 0.0 - (x - (hi - d)) == (lo + hi - x) - (lo + d);
    assert 0.0 - (x - (lo + d)) == (lo + hi - x) - (hi - d);
  }

  /** The curve comes as near to one as asked, as tanh does. */
  ghost predicate Saturates(f: real -> real) {
    forall v :: v < 1.0 ==> Exceeds(f, v)
  }

  ghost predicate Exceeds(f: real -> real, v: real) {
    exists u :: u > 0.0 && f(u) > v
  }

  /** Both requirements are met, for instance by x / (1 + |x|). */
  lemma FlatSaturatingCurvesExist()
    ensures Flattens(Ratio) && Saturates(Ratio)
  {
    forall u | u > 0.0
      ensures Ratio(u) < u
    {
      RatioBelow(u);
    }
    forall v | v < 1.0
      ensures Exceeds(Ratio, v)
    {
      RatioPasses(v);
    }
  }

  lemma RatioBelow(u: real)
    requires u > 0.0
    ensures Ratio(u) < u
  {
    assert Ratio(u) * (1.0 + u) == u;
    assert u * u > 0.0;
    ProductsOrdered(Ratio(u), u, 1.0 + u);
  }

  lemma RatioPasses(v: real)
    requires v < 1.0
    ensures Exceeds(Ratio, v)
  {
    var u := 1.0 / (1.0 - v);
    assert u * (1.0 - v) == 1.0;
    ProductsOrdered(0.0, u, 1.0 - v);
    assert Ratio(u) * (1.0 + u) == u;
    assert v * (1.0 + u) == v + v * u && v * u == u - 1.0;
    ProductsOrdered(v, Ratio(u), 1.0 + u);
    assert u > 0.0 && Ratio(u) > v;
  }

  /** The whole zone is used: every target below the limit is passed by pushing far enough. */
  lemma CompressReachesLimit(f: real -> real, goal: real, lo: real, hi: real, delta: real)
    requires Sigmoid(f) && Saturates(f) && goal < hi
    ensures exists raw :: Compress(f, raw, lo, hi, delta) > goal
  {
    var d := SoftZone(delta);
    var v := 1.0 - (hi - goal) / d;
    QuotientsOrdered(0.0, hi - goal, d);
    assert 0.0 / d == 0.0;
    assert Exceeds(f, v);
    var u: real :| u > 0.0 && f(u) > v;
    var raw := (hi - d) + Scale(u, d);
    ScalePositive(u, d);
    assert Scale(u, d) / d == u;
    Divided(hi - goal, d);
    ScaleAdds(f(u) - v, v, d);
    ScalePositive(f(u) - v, d);
    ScaleAdds(v, (hi - goal) / d, d);
    assert Compress(f, raw, lo, hi, delta) > goal;
  }

  /** The zone is the configured width, down to a nanoradian. */
  lemma ZoneIsConfigured(delta: real)
    ensures delta >= 0.000000001 ==> SoftZone(delta) == delta
    ensures 0.0 < SoftZone(delta) && (delta < 0.000000001 ==> SoftZone(delta) == 0.000000001)
  {
  }

  // ---- Admission ----

  /** How far a pose reaches into the soft zones is its distance from the range between them. */
  lemma CompressionIsDistance(q: real, lo: real, hi: real, d: real)
    requires 2.0 * d <= hi - lo
    ensures Compression(q, lo, hi, d) == Abs(q - Clamp(q, lo + d, hi - d))
  {
  }

  /** No resync step takes a pose further into the soft zones than it is, up to a picoradian. */
  lemma StepsLeaveTheZones(oEff: real, oCal: real, q: real, lo: real, hi: real, rate: real, delta: real)
    requires delta >= 0.0 && 2.0 * delta <= hi - lo
    ensures var q' := q + ResyncStep(oEff, oCal, q, lo, hi, rate, delta);
      Abs(q' - Clamp(q', lo + delta, hi - delta)) <= Abs(q - Clamp(q, lo + delta, hi - delta)) + 0.000000000001
  {
    var q' := q + ResyncStep(oEff, oCal, q, lo, hi, rate, delta);
    ResyncApproaches(oEff, oCal, q, lo, hi, rate, delta);
    CompressionIsDistance(q, lo, hi, delta);
    CompressionIsDistance(q', lo, hi, delta);
  }

  // ---- Blocking, stillness, rates ----

  lemma {:induction false} MaxAbsExceeds(k: nat, a: Pose, b: Pose, bound: real)
    requires k <= DOF
    ensures MaxAbsDifference(k, a, b) > bound <==> bound < 0.0 || exists i :: 0 <= i < k && Abs(a[i] - b[i]) > bound
  {
    if k > 0 {
      MaxAbsExceeds(k - 1, a, b, bound);
    }
  }

  /** The assist is blocked exactly when some joint's measured position is off the last command by more than the threshold. */
  lemma BlockedIff(cfg: Config, st: ArmState, f: Frame)
    requires cfg.relative && cfg.assist && Open(st) && cfg.trackingFreeze >= 0.0
    ensures Blocked(cfg, st, f) <==>
      f.measured.Some? &&
      exists i :: 0 <= i < DOF && Abs(st.lastCommand.value[i] - f.measured.value[i]) > cfg.trackingFreeze
  {
    if f.measured.Some? {
      MaxAbsExceeds(DOF, st.lastCommand.value, f.measured.value, cfg.trackingFreeze);
    }
  }

  /** Stillness counts the time of frames in which every leader joint moves less than the threshold, and starts anew else. */
  lemma StillnessIff(cfg: Config, still: real, delta: Pose, dt: real)
    requires cfg.stillDisplacement > 0.0
    ensures StillAfter(cfg, still, delta, dt) ==
      if exists i :: 0 <= i < DOF && Abs(delta[i]) >= cfg.stillDisplacement then 0.0 else still + dt
  {
    StillnessBound(DOF, delta, cfg.stillDisplacement);
  }

  lemma {:induction false} StillnessBound(k: nat, delta: Pose, bound: real)
    requires k <= DOF && bound > 0.0
    ensures MaxAbsDifference(k, delta, ORIGIN) >= bound <==> exists i :: 0 <= i < k && Abs(delta[i]) >= bound
  {
    if k > 0 {
      StillnessBound(k - 1, delta, bound);
    }
  }

  /** What a tracked frame makes of the stillness: it counts only where the assist acts. */
  lemma StillnessAdvances(cfg: Config, r: ArmRun, i: nat)
    requires IsRun(cfg, r) && cfg.relative && i < |r.events| && Tracked(r, i)
    ensures Open(Before(cfg, r, i))
    ensures var st, f := Before(cfg, r, i), r.events[i].frame;
      r.states[i + 1].still ==
        if cfg.assist && !Blocked(cfg, st, f) then StillWith(cfg, st, Values(f.positions), f) else st.still
  {
    TrackedStep(cfg, r, i);
    StepAt(cfg, r, i);
  }

  /** The idle rate sets in after the configured time at rest and is full three tenths of a second later. */
  lemma IdleRamp(cfg: Config, still: real)
    ensures 0.0 <= IdleScale(cfg, still) <= 1.0
    ensures IdleScale(cfg, still) == 0.0 <==> still <= cfg.stillTime
    ensures IdleScale(cfg, still) == 1.0 <==> still >= cfg.stillTime + 0.3
    ensures cfg.stillTime <= still <= cfg.stillTime + 0.3 ==> IdleScale(cfg, still) * 0.3 == still - cfg.stillTime
  {
  }

  lemma Distribute(m: real, i: real, dt: real)
    ensures (m + i) * dt == m * dt + i * dt
  {
  }

  lemma MinTimes(a: real, b: real, dt: real)
    requires dt > 0.0
    ensures Min(a, b) * dt == Min(a * dt, b * dt)
  {
    ProductsOrdered(b, a, dt);
  }

  lemma TimesQuotient(a: real, x: real, dt: real)
    requires dt > 0.0
    ensures a * (x / dt) * dt == a * x
  {
    var q := x / dt;
    assert q * dt == x;
    assert a * q * dt == a * (q * dt);
  }

  /** A frame's rate limit as a distance: a share of its leader joint's own motion, up to the configured speed, and the idle
    * rate for the frame's time. */
  lemma RateIsShareOfMotion(cfg: Config, delta: real, dt: real, idle: real)
    requires dt > 0.0
    ensures RateLimit(cfg, delta, dt, idle)
      == Min(cfg.resyncAlpha * Abs(delta), cfg.resyncMotionMax * dt) + cfg.resyncIdle * idle * dt
  {
    var speed := cfg.resyncAlpha * (Abs(delta) / dt);
    Distribute(Min(speed, cfg.resyncMotionMax), cfg.resyncIdle * idle, dt);
    MinTimes(speed, cfg.resyncMotionMax, dt);
    TimesQuotient(cfg.resyncAlpha, Abs(delta), dt);
  }

  lemma ShareOfIdle(idle: real, scale: real, dt: real)
    requires idle >= 0.0 && 0.0 <= scale <= 1.0 && dt > 0.0
    ensures idle * scale * dt <= idle * dt
  {
    assert idle * (1.0 - scale) >= 0.0;
    assert idle * scale <= idle;
    assert (idle - idle * scale) * dt >= 0.0;
  }

  lemma RateIsCapped(cfg: Config, delta: real, dt: real, still: real)
    requires dt > 0.0 && cfg.resyncIdle >= 0.0
    ensures RateLimit(cfg, delta, dt, IdleScale(cfg, still)) <= cfg.resyncMotionMax * dt + cfg.resyncIdle * dt
  {
    IdleRamp(cfg, still);
    RateIsShareOfMotion(cfg, delta, dt, IdleScale(cfg, still));
    ShareOfIdle(cfg.resyncIdle, IdleScale(cfg, still), dt);
  }

  /** Whatever the leader does, a frame's rate limit is at most the two configured speeds times its cycle time. */
  lemma FrameRateIsCapped(cfg: Config, st: ArmState, leader: Pose, f: Frame, out: int)
    requires 0 <= out < DOF && cfg.resyncIdle >= 0.0
    ensures var dt := CycleTime(st, f.now);
      FrameRate(cfg, st, leader, f, out) <= cfg.resyncMotionMax * dt + cfg.resyncIdle * dt
  {
    RateIsCapped(cfg, FrameDelta(leader, st.leaderPrev)[cfg.order[out]], CycleTime(st, f.now), StillWith(cfg, st, leader, f));
  }

  /** And no joint is nudged further than its frame's rate limit. */
  lemma NudgeWithinRate(cfg: Config, st: ArmState, leader: Pose, f: Frame, out: int)
    requires Open(st) && 0 <= out < DOF
    ensures FrameNudge(cfg, st, leader, f, out) <= Max(0.0, FrameRate(cfg, st, leader, f, out))
  {
  }
}
