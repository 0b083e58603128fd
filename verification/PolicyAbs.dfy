/** Follower-space targets as absolute leader commands, proved against the driver's own map. */
module PolicyAbs {
  import opened Prelude
  import opened JointMath

  /** The leader value that the driver maps to `follower`. */
  function Unmap(follower: real, sign: real, offset: real): real
    requires sign != 0.0
  {
    (follower - offset) / sign
  }

  lemma UnmapInverts(follower: real, sign: real, offset: real)
    requires sign != 0.0
    ensures Map(Unmap(follower, sign, offset), sign, offset) == follower
  {
  }

  /** Parameters as they arrive: nothing is known of lengths, ranges or signs. */
  datatype Mapping = Mapping(signs: seq<real>, order: seq<int>, offsets: seq<real>) {
    predicate Sized() {
      |signs| == DOF && |order| == DOF && |offsets| == DOF
    }

    /** Exactly the parameters for which the conversion raises no error on a seven-joint pose. */
    predicate Usable() {
      Sized() && forall i :: 0 <= i < DOF ==> 0 <= order[i] < DOF && signs[i] != 0.0
    }
  }

  /** The leader slots after the first `k` outputs wrote theirs. */
  function LeaderAfter(k: nat, follower: Pose, m: Mapping): Pose
    requires m.Usable() && k <= DOF
  {
    if k == 0 then ORIGIN
    else
      LeaderAfter(k - 1, follower, m)[m.order[k - 1] := Unmap(follower[k - 1], m.signs[k - 1], m.offsets[k - 1])]
  }

  function LeaderCommand(follower: seq<real>, m: Mapping): Option<Pose> {
    if |follower| == DOF && m.Usable() then Some(LeaderAfter(DOF, follower, m)) else None
  }

  method FollowerPoseToLeaderAbs(follower: seq<real>, m: Mapping) returns (r: Option<Pose>)
    ensures r == LeaderCommand(follower, m)
  {
    if |follower| != DOF || !m.Sized() {
      return None;
    }
    var leader := new real[DOF](_ => 0.0);
    assert leader[..] == ORIGIN;
    var i := 0;
    while i < DOF
      invariant 0 <= i <= DOF
      invariant forall k :: 0 <= k < i ==> 0 <= m.order[k] < DOF && m.signs[k] != 0.0
      invariant m.Usable() ==> leader[..] == LeaderAfter(i, follower, m)
    {
      var src := m.order[i];
      if src < 0 || src >= DOF || m.signs[i] == 0.0 {
        return None;
      }
      leader[src] := Unmap(follower[i], m.signs[i], m.offsets[i]);
      i := i + 1;
    }
    r := Some(leader[..]);
  }

  lemma {:induction false} SlotKeepsLastWriter(k: nat, follower: Pose, m: Mapping, out: int)
    requires m.Usable() && 0 <= out < k <= DOF
    requires forall j :: out < j < k ==> m.order[j] != m.order[out]
    ensures LeaderAfter(k, follower, m)[m.order[out]] == Unmap(follower[out], m.signs[out], m.offsets[out])
  {
    if out < k - 1 {
      SlotKeepsLastWriter(k - 1, follower, m, out);
    }
  }

  /** The driver's map takes every converted pose back to the pose, when the order is a permutation. */
  lemma DriverInvertsConversion(follower: Pose, m: Mapping)
    requires m.Usable() && Injective(m.order)
    ensures LeaderCommand(follower, m).Some?
    ensures JointMapping(LeaderCommand(follower, m).value, m.order, m.signs, m.offsets) == follower
  {
    var leader := LeaderAfter(DOF, follower, m);
    forall out | 0 <= out < DOF
      ensures JointMapping(leader, m.order, m.signs, m.offsets)[out] == follower[out]
    {
      assert forall j :: out < j < DOF ==> m.order[j] != m.order[out];
      SlotKeepsLastWriter(DOF, follower, m, out);
      UnmapInverts(follower[out], m.signs[out], m.offsets[out]);
    }
  }

  /** A pose that a repeated index makes unreachable: two outputs want different values of one leader joint. */
  lemma RepeatedIndexLoses(m: Mapping, i: int, j: int) returns (follower: Pose)
    requires m.Usable() && 0 <= i < j < DOF && m.order[i] == m.order[j]
    ensures JointMapping(LeaderAfter(DOF, follower, m), m.order, m.signs, m.offsets) != follower
  {
    follower := ORIGIN;
    var mapped := JointMapping(LeaderAfter(DOF, follower, m), m.order, m.signs, m.offsets);
    if mapped == follower {
      // Moving output i alone by one changes nothing that the last writer of its slot computes.
      var moved: Pose := follower[i := follower[i] + 1.0];
      SlotUnaffected(DOF, follower, moved, m, i, j);
      var leader, leader' := LeaderAfter(DOF, follower, m), LeaderAfter(DOF, moved, m);
      assert JointMapping(leader', m.order, m.signs, m.offsets)[i] == mapped[i];
      follower := moved;
    }
  }

  lemma {:induction false} SlotUnaffected(k: nat, follower: Pose, moved: Pose, m: Mapping, i: int, j: int)
    requires m.Usable() && 0 <= i < j < DOF && m.order[i] == m.order[j] && k <= DOF
    requires forall n :: 0 <= n < DOF && n != i ==> moved[n] == follower[n]
    ensures j < k ==> LeaderAfter(k, moved, m)[m.order[i]] == LeaderAfter(k, follower, m)[m.order[i]]
  {
    if j < k - 1 {
      SlotUnaffected(k - 1, follower, moved, m, i, j);
    }
  }

  /** Exactly when the conversion is a right inverse of the driver's map: the order repeats no index. */
  lemma InvertibleIffPermutation(m: Mapping)
    requires m.Usable()
    ensures (forall follower: Pose :: JointMapping(LeaderAfter(DOF, follower, m), m.order, m.signs, m.offsets) == follower)
      <==> Injective(m.order)
  {
    if Injective(m.order) {
      forall follower: Pose
        ensures JointMapping(LeaderAfter(DOF, follower, m), m.order, m.signs, m.offsets) == follower
      {
        DriverInvertsConversion(follower, m);
      }
    } else {
      var i, j :| 0 <= i < j < DOF && m.order[i] == m.order[j];
      var follower := RepeatedIndexLoses(m, i, j);
    }
  }
}
