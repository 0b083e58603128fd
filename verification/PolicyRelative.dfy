/** Policy targets replayed through the driver's relative path: a virtual leader in lockstep with the driver. */
module PolicyRelative {
  import opened Prelude
  import opened JointMath

  /** The unwrap state that the session and the driver each keep. */
  datatype Refs = Refs(gentoRef: Pose, leaderPrev: Pose, leaderContinuous: Pose, leaderContRef: Pose)

  /** Required continuous leader angles after the first `k` outputs wrote theirs. */
  function RequiredAfter(k: nat, target: Pose, v: Refs, signs: Pose, order: Order): Pose
    requires k <= DOF
  {
    if k == 0 then ORIGIN
    else
      RequiredAfter(k - 1, target, v, signs, order)
      [order[k - 1] := Moved(v.leaderContRef[order[k - 1]], signs[k - 1], target[k - 1] - v.gentoRef[k - 1])]
  }

  /** The raw leader command for a follower target. */
  function LeaderFor(target: Pose, v: Refs, signs: Pose, order: Order): Pose {
    var required := RequiredAfter(DOF, target, v, signs, order);
    seq(DOF, j requires 0 <= j < DOF => v.leaderPrev[j] + (required[j] - v.leaderContinuous[j]))
  }

  /** The session's state after a published command. */
  function Committed(v: Refs, leader: Pose): Refs {
    v.(leaderContinuous := Shifted(v.leaderContinuous, FrameDelta(leader, v.leaderPrev)), leaderPrev := leader)
  }

  function Began(pose: Pose): Refs {
    Refs(pose, pose, pose, pose)
  }

  class Session {
    const signs: Pose
    const order: Order
    const gentoRef: array<real>
    const leaderPrev: array<real>
    const leaderContinuous: array<real>
    const leaderContRef: array<real>
    var active: bool

    ghost predicate Valid() {
      && gentoRef.Length == leaderPrev.Length == leaderContinuous.Length == leaderContRef.Length == DOF
      && gentoRef != leaderPrev && gentoRef != leaderContinuous && gentoRef != leaderContRef
      && leaderPrev != leaderContinuous && leaderPrev != leaderContRef && leaderContinuous != leaderContRef
    }

    ghost function State(): Refs
      requires Valid()
      reads this, gentoRef, leaderPrev, leaderContinuous, leaderContRef
    {
      Refs(gentoRef[..], leaderPrev[..], leaderContinuous[..], leaderContRef[..])
    }

    constructor (signs: Pose, order: Order)
      ensures Valid() && this.signs == signs && this.order == order && !active
      ensures fresh(gentoRef) && fresh(leaderPrev) && fresh(leaderContinuous) && fresh(leaderContRef)
    {
      this.signs, this.order, active := signs, order, false;
      gentoRef := new real[DOF](_ => 0.0);
      leaderPrev := new real[DOF](_ => 0.0);
      leaderContinuous := new real[DOF](_ => 0.0);
      leaderContRef := new real[DOF](_ => 0.0);
    }

    method Begin(pose: Pose)
      requires Valid()
      modifies this, gentoRef, leaderPrev, leaderContinuous, leaderContRef
      ensures active && State() == Began(pose)
    {
      for i := 0 to DOF
        invariant forall k :: 0 <= k < i ==>
          gentoRef[k] == leaderPrev[k] == leaderContinuous[k] == leaderContRef[k] == pose[k]
      {
        gentoRef[i], leaderPrev[i], leaderContinuous[i], leaderContRef[i] := pose[i], pose[i], pose[i], pose[i];
      }
      active := true;
    }

    method Invalidate()
      modifies this
      ensures !active
    {
      active := false;
    }

    method FollowerTargetToLeader(target: Pose) returns (leader: Pose)
      requires Valid()
      ensures leader == LeaderFor(target, State(), signs, order)
    {
      var required := new real[DOF](_ => 0.0);
      assert required[..] == ORIGIN;
      for out := 0 to DOF
        invariant required[..] == RequiredAfter(out, target, State(), signs, order)
        invariant State() == old(State())
      {
        required[order[out]] := Moved(leaderContRef[order[out]], signs[out], target[out] - gentoRef[out]);
      }
      var now := new real[DOF](_ => 0.0);
      for j := 0 to DOF
        invariant required[..] == RequiredAfter(DOF, target, State(), signs, order)
        invariant State() == old(State())
        invariant forall k :: 0 <= k < j ==> now[k] == leaderPrev[k] + (required[k] - leaderContinuous[k])
      {
        now[j] := leaderPrev[j] + (required[j] - leaderContinuous[j]);
      }
      leader := now[..];
    }

    method CommitPublished(leader: Pose)
      requires Valid()
      modifies leaderPrev, leaderContinuous
      ensures State() == Committed(old(State()), leader)
    {
      for j := 0 to DOF
        invariant forall k :: 0 <= k < j ==>
          leaderContinuous[k] == old(leaderContinuous[k]) + Unwrap(leader[k] - old(leaderPrev[k]))
        invariant forall k :: j <= k < DOF ==> leaderContinuous[k] == old(leaderContinuous[k])
        invariant leaderPrev[..] == old(leaderPrev[..])
      {
        leaderContinuous[j] := leaderContinuous[j] + Unwrap(leader[j] - leaderPrev[j]);
      }
      for j := 0 to DOF
        invariant forall k :: 0 <= k < j ==> leaderPrev[k] == leader[k]
        invariant leaderContinuous[..] == Committed(old(State()), leader).leaderContinuous
      {
        leaderPrev[j] := leader[j];
      }
    }
  }
}
