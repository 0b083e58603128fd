/** Shared vocabulary: options, possibly non-finite inputs, real helpers and the seven-joint pose. */
module Prelude {

  datatype Option<+T> = None | Some(value: T)

  /** One incoming floating-point field: a finite value, or a NaN or infinity. */
  datatype Double = Fin(v: real) | NonFinite

  /** The driver's and the policy package's value of pi. */
  const PI: real := 3.14159265358979323846

  const DOF: nat := 7

  type Pose = s: seq<real> | |s| == DOF witness [0.0, 0.0, 0.0, 0.0, 0.0, 0.0, 0.0]

  const ORIGIN: Pose := [0.0, 0.0, 0.0, 0.0, 0.0, 0.0, 0.0]

  /** Joint order as the driver accepts it: seven indices in range, not necessarily distinct. */
  type Order = s: seq<int> | |s| == DOF && forall i :: 0 <= i < DOF ==> 0 <= s[i] < DOF
    witness [0, 1, 2, 3, 4, 5, 6]

  function Abs(x: real): real {
    if x < 0.0 then -x else x
  }

  function Max(x: real, y: real): real {
    if x < y then y else x
  }

  function Min(x: real, y: real): real {
    if y < x then y else x
  }

  function Clamp(x: real, lo: real, hi: real): real {
    if x < lo then lo else if hi < x then hi else x
  }

  predicate Injective(order: Order) {
    forall i, j :: 0 <= i < j < DOF ==> order[i] != order[j]
  }

  predicate Within(p: Pose, lo: Pose, hi: Pose) {
    forall i :: 0 <= i < DOF ==> lo[i] <= p[i] <= hi[i]
  }

  predicate Near(p: Pose, q: Pose, bound: real) {
    forall i :: 0 <= i < DOF ==> Abs(p[i] - q[i]) <= bound
  }

  ghost function ToSet(s: seq<int>): set<int> {
    set i | 0 <= i < |s| :: s[i]
  }

  lemma {:induction false} DistinctCount(s: seq<int>)
    requires forall i, j :: 0 <= i < j < |s| ==> s[i] != s[j]
    ensures |ToSet(s)| == |s|
  {
    if s == [] {
      assert ToSet(s) == {};
    } else {
      var front, last := s[..|s| - 1], s[|s| - 1];
      DistinctCount(front);
      assert ToSet(s) == ToSet(front) + {last};
    }
  }

  lemma SubsetOfSameSize(a: set<int>, b: set<int>)
    requires a <= b && |a| == |b|
    ensures a == b
  {
    assert b == a + (b - a);
  }

  /** Seven distinct indices in range cover every joint: a permutation. */
  lemma InjectiveIsOnto(order: Order, j: int) returns (out: int)
    requires Injective(order) && 0 <= j < DOF
    ensures 0 <= out < DOF && order[out] == j
  {
    DistinctCount(order);
    var all := {0, 1, 2, 3, 4, 5, 6};
    assert ToSet(order) <= all;
    SubsetOfSameSize(ToSet(order), all);
    assert j in ToSet(order);
    out :| 0 <= out < DOF && order[out] == j;
  }
}
