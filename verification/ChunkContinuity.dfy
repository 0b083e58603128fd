/** Joining a policy chunk to the measured pose, and deciding whether a chunk is fresh. */
module ChunkContinuity {
  import opened Prelude

  function JumpAfter(k: nat, left: seq<real>, right: seq<real>, leftPose: Pose, rightPose: Pose): real
    requires k <= DOF <= |left| && DOF <= |right|
  {
    if k == 0 then 0.0
    else
      Max(Max(JumpAfter(k - 1, left, right, leftPose, rightPose), Abs(left[k - 1] - leftPose[k - 1])),
          Abs(right[k - 1] - rightPose[k - 1]))
  }

  /** The largest first-step error over both arms; infinite (`None`) when a chunk is too short to have a step. */
  method MaxStep0Jump(left: seq<real>, right: seq<real>, leftPose: Pose, rightPose: Pose) returns (jump: Option<real>)
    ensures jump == Step0Jump(left, right, leftPose, rightPose)
  {
    if |left| < DOF || |right| < DOF {
      return None;
    }
    var err := 0.0;
    for i := 0 to DOF
      invariant err == JumpAfter(i, left, right, leftPose, rightPose)
    {
      err := Max(err, Abs(left[i] - leftPose[i]));
      err := Max(err, Abs(right[i] - rightPose[i]));
    }
    jump := Some(err);
  }

  function Step0Jump(left: seq<real>, right: seq<real>, leftPose: Pose, rightPose: Pose): Option<real> {
    if |left| < DOF || |right| < DOF then None else Some(JumpAfter(DOF, left, right, leftPose, rightPose))
  }

  /** The jump is a bound on all fourteen joints, and the least one. */
  lemma {:induction false} JumpIsLeastBound(k: nat, left: seq<real>, right: seq<real>, lp: Pose, rp: Pose, bound: real)
    requires k <= DOF <= |left| && DOF <= |right| && bound >= 0.0
    ensures JumpAfter(k, left, right, lp, rp) <= bound <==>
      forall i :: 0 <= i < k ==> Abs(left[i] - lp[i]) <= bound && Abs(right[i] - rp[i]) <= bound
  {
    if k > 0 {
      JumpIsLeastBound(k - 1, left, right, lp, rp, bound);
    }
  }

  /** Flat joint arrays of `steps` steps that the rebase can index; anything else raises. */
  predicate Rebasable(joints: seq<real>, steps: int) {
    |joints| == steps * DOF && |joints| >= DOF
  }

  function RebasedAt(joints: seq<real>, pose: Pose, k: nat): real
    requires k < |joints| && |joints| >= DOF
  {
    joints[k] + (pose[k % DOF] - joints[k % DOF])
  }

  function Rebased(joints: seq<real>, pose: Pose, steps: int): (r: Option<seq<real>>)
    ensures r.Some? <==> Rebasable(joints, steps)
    ensures r.Some? ==> |r.value| == |joints|
  {
    if Rebasable(joints, steps) then
      Some(seq(|joints|, k requires 0 <= k < |joints| => RebasedAt(joints, pose, k)))
    else None
  }

  method RebaseArmJointsToPose(joints: seq<real>, pose: Pose, steps: nat) returns (r: Option<seq<real>>)
    ensures r == Rebased(joints, pose, steps)
  {
    var n := steps * DOF;
    if |joints| != n || n < DOF {
      return None;
    }
    var delta := new real[DOF](i requires 0 <= i < DOF => pose[i] - joints[i]);
    var out := new real[n](_ => 0.0);
    var step := 0;
    while step < steps
      invariant 0 <= step <= steps
      invariant forall i :: 0 <= i < DOF ==> delta[i] == pose[i] - joints[i]
      invariant forall k :: 0 <= k < step * DOF ==> out[k] == RebasedAt(joints, pose, k)
    {
      var base := step * DOF;
      assert base + DOF <= n by {
        assert (step + 1) * DOF <= steps * DOF;
      }
      for i := 0 to DOF
        invariant forall j :: 0 <= j < DOF ==> delta[j] == pose[j] - joints[j]
        invariant forall k :: 0 <= k < base + i ==> out[k] == RebasedAt(joints, pose, k)
      {
        out[base + i] := joints[base + i] + delta[i];
        assert (base + i) % DOF == i;
      }
      step := step + 1;
    }
    assert out[..] == Rebased(joints, pose, steps).value;
    r := Some(out[..]);
  }

  /** Rebasing puts the first step on the pose and keeps every step-to-step difference. */
  lemma RebaseShiftsWhole(joints: seq<real>, pose: Pose, steps: int, k: nat)
    requires Rebasable(joints, steps) && k < |joints|
    ensures var r := Rebased(joints, pose, steps).value;
      && (k < DOF ==> r[k] == pose[k])
      && (k + DOF < |joints| ==> r[k + DOF] - r[k] == joints[k + DOF] - joints[k])
  {
    assert (k + DOF) % DOF == k % DOF;
  }

  /** A chunk after a return is fresh by its stamp, or unstamped and received since, or once the fallback time is over. */
  predicate ChunkIsFresh(stamp: real, returnTime: Option<real>, received: real, returnWall: Option<real>, now: real,
                         fallback: real)
  {
    if returnTime.None? then true
    else if stamp > 0.0 && stamp >= returnTime.value then true
    else if stamp == 0.0 then returnWall.None? || received >= returnWall.value
    else returnWall.Some? && now - returnWall.value >= fallback
  }
}
