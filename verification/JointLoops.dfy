/** The driver's array routines, in place, each proved equal to its function on poses. */
module JointLoops {
  import opened Prelude
  import opened JointMath

  method ClampInto(target: Pose, lo: Pose, hi: Pose) returns (clamped: Pose)
    ensures clamped == ClampToLimits(target, lo, hi)
  {
    var a := new real[DOF](_ => 0.0);
    var i := 0;
    while i < DOF
      invariant 0 <= i <= DOF
      invariant forall k :: 0 <= k < i ==> a[k] == Clamp(target[k], lo[k], hi[k])
    {
      a[i] := Clamp(target[i], lo[i], hi[i]);
      i := i + 1;
    }
    clamped := a[..];
  }

  method ApplyJointMapping(leader: Pose, order: Order, signs: Pose, offsets: Pose) returns (mapped: Pose)
    ensures mapped == JointMapping(leader, order, signs, offsets)
  {
    var a := new real[DOF](_ => 0.0);
    ghost var spec := JointMapping(leader, order, signs, offsets);
    var out := 0;
    while out < DOF
      invariant 0 <= out <= DOF
      invariant a[..out] == spec[..out]
    {
      a[out] := Map(leader[order[out]], signs[out], offsets[out]);
      assert a[out] == spec[out];
      assert a[..out + 1] == a[..out] + [a[out]];
      out := out + 1;
    }
    mapped := a[..];
  }

  /** Advances `cont` in place, one output at a time, and maps the frame relative to the references. */
  method ApplyRelativeMapping(now: Pose, prev: Pose, cont: array<real>, contRef: array<real>,
                              followerRef: array<real>, order: Order, signs: Pose)
    returns (mapped: Pose)
    requires cont.Length == contRef.Length == followerRef.Length == DOF
    requires cont != contRef && cont != followerRef
    modifies cont
    ensures cont[..] == ContinuousAfter(DOF, now, prev, old(cont[..]), order)
    ensures mapped == RelativeMapping(now, prev, old(cont[..]), contRef[..], followerRef[..], order, signs)
  {
    var a := new real[DOF](_ => 0.0);
    ghost var start: Pose := cont[..];
    ghost var spec := RelativeMapping(now, prev, start, contRef[..], followerRef[..], order, signs);
    var out := 0;
    while out < DOF
      invariant 0 <= out <= DOF
      invariant contRef[..] == old(contRef[..]) && followerRef[..] == old(followerRef[..])
      invariant cont[..] == ContinuousAfter(out, now, prev, start, order)
      invariant a[..out] == spec[..out]
    {
      var src := order[out];
      var delta := now[src] - prev[src];
      if delta > PI {
        delta := delta - 2.0 * PI;
      } else if delta < -PI {
        delta := delta + 2.0 * PI;
      }
      ghost var before: Pose := cont[..];
      cont[src] := cont[src] + delta;
      assert cont[..] == before[src := before[src] + Unwrap(now[src] - prev[src])];
      assert cont[src] == ContinuousAfter(out + 1, now, prev, start, order)[src];
      a[out] := Follow(followerRef[out], signs[out], cont[src], contRef[src]);
      assert a[out] == spec[out];
      out := out + 1;
    }
    mapped := a[..];
  }

  method ApplySoftCompress(tanh: real -> real, raw: Pose, lo: Pose, hi: Pose, delta: real) returns (soft: Pose)
    ensures soft == SoftCompress(tanh, raw, lo, hi, delta)
  {
    var a := new real[DOF](_ => 0.0);
    var d := Max(delta, 0.000000001);
    var i := 0;
    while i < DOF
      invariant 0 <= i <= DOF
      invariant forall k :: 0 <= k < i ==> a[k] == Compress(tanh, raw[k], lo[k], hi[k], delta)
    {
      var aHi, aLo := hi[i] - d, lo[i] + d;
      if raw[i] > aHi {
        a[i] := aHi + Bend(tanh, raw[i] - aHi, d);
      } else if raw[i] < aLo {
        a[i] := aLo + Bend(tanh, raw[i] - aLo, d);
      } else {
        a[i] := raw[i];
      }
      i := i + 1;
    }
    soft := a[..];
  }

  /** Drags raw targets and follower references back to the leash, or freezes a joint at its offset cap. */
  method ApplyBoundedLeash(raw: array<real>, gentoRef: array<real>, contRef: Pose, p: LeashParams)
    returns (touched: bool)
    requires raw.Length == gentoRef.Length == DOF && raw != gentoRef
    modifies raw, gentoRef
    ensures var all := LeashAll(p, old(raw[..]), old(gentoRef[..]), contRef);
      raw[..] == RawOf(all) && gentoRef[..] == RefOf(all)
      && (touched <==> exists out :: 0 <= out < DOF && all[out].touched)
  {
    ghost var raw0: Pose, ref0: Pose := raw[..], gentoRef[..];
    ghost var spec := LeashAll(p, raw0, ref0, contRef);
    touched := false;
    var out := 0;
    while out < DOF
      invariant 0 <= out <= DOF
      invariant forall k :: 0 <= k < out ==> raw[k] == spec[k].raw && gentoRef[k] == spec[k].ref
      invariant forall k :: out <= k < DOF ==> raw[k] == raw0[k] && gentoRef[k] == ref0[k]
      invariant touched <==> exists k :: 0 <= k < out && spec[k].touched
    {
      var oEff := Offset(gentoRef[out], p.signs[out], contRef[p.order[out]]);
      var leashed := LeashJoint(raw[out], gentoRef[out], oEff, p.lo[out], p.hi[out], p.oCal[out], p.slack, p.oMax);
      assert leashed == spec[out];
      raw[out], gentoRef[out] := leashed.raw, leashed.ref;
      touched := touched || leashed.touched;
      out := out + 1;
    }
  }

  /** Nudges follower references toward calibration where the admission test allows it. */
  method ApplyOffsetResync(gentoRef: array<real>, contRef: Pose, q: Pose, rate: Pose, p: ResyncParams)
    returns (moved: bool)
    requires gentoRef.Length == DOF
    modifies gentoRef
    ensures var steps := ResyncSteps(p, old(gentoRef[..]), contRef, q, rate);
      gentoRef[..] == Shifted(old(gentoRef[..]), steps)
      && (moved <==> exists out :: 0 <= out < DOF && steps[out] != 0.0)
  {
    ghost var ref0: Pose := gentoRef[..];
    ghost var spec := ResyncSteps(p, ref0, contRef, q, rate);
    moved := false;
    var out := 0;
    while out < DOF
      invariant 0 <= out <= DOF
      invariant forall k :: 0 <= k < out ==> gentoRef[k] == ref0[k] + spec[k]
      invariant forall k :: out <= k < DOF ==> gentoRef[k] == ref0[k]
      invariant moved <==> exists k :: 0 <= k < out && spec[k] != 0.0
    {
      var oEff := Offset(gentoRef[out], p.signs[out], contRef[p.order[out]]);
      var step := ResyncStep(oEff, p.oCal[out], q[out], p.lo[out], p.hi[out], rate[out], p.softDelta);
      assert step == spec[out];
      gentoRef[out] := gentoRef[out] + step;
      moved := moved || step != 0.0;
      out := out + 1;
    }
  }

  /** Absorbs the leader travel of every joint whose command was clamped. */
  method ClutchSaturatedJoints(desired: Pose, clamped: Pose, cont: Pose, contRef: array<real>,
                               gentoRef: array<real>, order: Order)
    returns (clutched: bool)
    requires contRef.Length == gentoRef.Length == DOF && contRef != gentoRef
    modifies contRef, gentoRef
    ensures contRef[..] == ClutchContRef(DOF, desired, clamped, cont, old(contRef[..]), order)
    ensures gentoRef[..] == ClutchGentoRef(desired, clamped, old(gentoRef[..]))
    ensures clutched <==> desired != clamped
  {
    ghost var contRef0: Pose, ref0: Pose := contRef[..], gentoRef[..];
    clutched := false;
    var out := 0;
    while out < DOF
      invariant 0 <= out <= DOF
      invariant forall s :: 0 <= s < DOF ==>
        contRef[s] == if Saturated(out, desired, clamped, order, s) then cont[s] else contRef0[s]
      invariant forall k :: 0 <= k < DOF ==>
        gentoRef[k] == if k < out && desired[k] != clamped[k] then clamped[k] else ref0[k]
      invariant clutched <==> exists k :: 0 <= k < out && desired[k] != clamped[k]
    {
      if desired[out] != clamped[out] {
        var src := order[out];
        contRef[src] := cont[src];
        gentoRef[out] := clamped[out];
        clutched := true;
      }
      out := out + 1;
    }
  }

  method ApplyLimitDelta(desired: Pose, previous: Pose, maxDelta: real) returns (limited: Pose)
    ensures limited == LimitDeltas(desired, previous, maxDelta)
  {
    var a := new real[DOF](_ => 0.0);
    var i := 0;
    while i < DOF
      invariant 0 <= i <= DOF
      invariant forall k :: 0 <= k < i ==> a[k] == LimitDelta(desired[k], previous[k], maxDelta)
    {
      var delta := desired[i] - previous[i];
      if delta > maxDelta {
        a[i] := previous[i] + maxDelta;
      } else if delta < -maxDelta {
        a[i] := previous[i] - maxDelta;
      } else {
        a[i] := desired[i];
      }
      i := i + 1;
    }
    limited := a[..];
  }

  method MaxDifference(a: Pose, b: Pose) returns (m: real)
    ensures m == MaxAbsDifference(DOF, a, b)
  {
    m := 0.0;
    for i := 0 to DOF
      invariant m == MaxAbsDifference(i, a, b)
    {
      m := Max(m, Abs(a[i] - b[i]));
    }
  }

  method CopyInto(dst: array<real>, src: Pose)
    requires dst.Length == DOF
    modifies dst
    ensures dst[..] == src
  {
    for i := 0 to DOF
      invariant forall k :: 0 <= k < i ==> dst[k] == src[k]
    {
      dst[i] := src[i];
    }
  }
}
