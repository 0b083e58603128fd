/** Playback of a policy action chunk: which step a clock reading selects, and when the tail is being held. */
module ChunkPlayer {
  import opened Prelude

  const STEPS: nat := 16

  datatype Chunk = Chunk(t0: real, dt: real, steps: nat, stepT0s: seq<real>, endT: real,
                         left: seq<real>, right: seq<real>, leftGripper: seq<real>, rightGripper: seq<real>)
  {
    /** What every loaded chunk satisfies. */
    ghost predicate Valid() {
      && steps == STEPS && dt > 0.0
      && |stepT0s| == STEPS && (forall i :: 0 <= i < STEPS ==> stepT0s[i] == StepStart(t0, dt, i))
      && endT == StepStart(t0, dt, STEPS)
      && |left| == |right| == STEPS * DOF
      && |leftGripper| == |rightGripper| == STEPS
    }
  }

  datatype Sample = Sampled(left: Pose, right: Pose, leftGripper: real, rightGripper: real, holdingTail: bool)

  function StepStart(t0: real, dt: real, i: nat): real {
    t0 + (i as real) * dt
  }

  function StepStarts(t0: real, dt: real): (starts: seq<real>)
    ensures |starts| == STEPS && forall i :: 0 <= i < STEPS ==> starts[i] == StepStart(t0, dt, i)
  {
    seq(STEPS, i requires 0 <= i < STEPS => StepStart(t0, dt, i))
  }

  /** Clock tolerance around the end of a chunk. */
  function Epsilon(dt: real): real {
    Max(0.000000000001, Abs(dt) * 0.000000001)
  }

  predicate Holding(c: Chunk, t: real) {
    t > c.t0 && t + Epsilon(c.dt) >= c.endT
  }

  /** The scan over step start times, from step `i` on. */
  function Scan(c: Chunk, t: real, i: nat): (idx: nat)
    requires |c.stepT0s| == STEPS && 1 <= i <= STEPS
    ensures i - 1 <= idx < STEPS
    decreases STEPS - i
  {
    if i == STEPS || t < c.stepT0s[i] then i - 1 else Scan(c, t, i + 1)
  }

  function StepAt(c: Chunk, t: real): (idx: nat)
    requires |c.stepT0s| == STEPS
    ensures idx < STEPS
  {
    if t <= c.t0 then 0
    else if Holding(c, t) then STEPS - 1
    else Scan(c, t, 1)
  }

  function SampleAt(c: Chunk, t: real): Sample
    requires |c.stepT0s| == STEPS && |c.left| == |c.right| == STEPS * DOF
    requires |c.leftGripper| == |c.rightGripper| == STEPS
  {
    var k := StepAt(c, t);
    Sampled(c.left[k * DOF..k * DOF + DOF], c.right[k * DOF..k * DOF + DOF], c.leftGripper[k], c.rightGripper[k],
           Holding(c, t))
  }

  /** The step by arithmetic instead of a scan. */
  function ClosedForm(c: Chunk, t: real): int
    requires c.dt > 0.0
  {
    if t <= c.t0 then 0
    else
      var k := ((t - c.t0) / c.dt).Floor;
      if k < STEPS then k else STEPS - 1
  }

  lemma FloorIsCount(x: real, dt: real, k: int)
    requires dt > 0.0
    ensures k <= (x / dt).Floor <==> (k as real) * dt <= x
  {
    var q := x / dt;
    assert q * dt == x;
    if (k as real) <= q {
      assert (k as real) * dt <= q * dt;
    } else {
      assert (k as real) * dt > q * dt;
    }
  }

  lemma {:induction false} ScanIsFloor(c: Chunk, t: real, i: nat)
    requires c.Valid() && t > c.t0 && 1 <= i <= STEPS && t >= StepStart(c.t0, c.dt, i - 1)
    ensures Scan(c, t, i) == ClosedForm(c, t)
    decreases STEPS - i
  {
    FloorIsCount(t - c.t0, c.dt, i - 1);
    FloorIsCount(t - c.t0, c.dt, i);
    if i < STEPS && t >= c.stepT0s[i] {
      ScanIsFloor(c, t, i + 1);
    }
  }

  lemma StartsOrdered(t0: real, dt: real)
    requires dt > 0.0
    ensures StepStart(t0, dt, 0) == t0
    ensures StepStart(t0, dt, STEPS) == StepStart(t0, dt, STEPS - 1) + dt
    ensures StepStart(t0, dt, STEPS - 1) == t0 + 15.0 * dt
  {
  }

  lemma ScanMatches(c: Chunk, t: real)
    requires c.Valid() && c.dt >= 0.000000000001
    ensures StepAt(c, t) == ClosedForm(c, t)
  {
    if t > c.t0 {
      StartsOrdered(c.t0, c.dt);
      ScanIsFloor(c, t, 1);
      FloorIsCount(t - c.t0, c.dt, STEPS - 1);
      assert Epsilon(c.dt) <= c.dt;
    }
  }

  lemma ShortStepsSkip(c: Chunk) returns (t: real)
    requires c.Valid() && c.dt < 0.000000000001
    ensures StepAt(c, t) != ClosedForm(c, t)
  {
    StartsOrdered(c.t0, c.dt);
    t := c.t0 + Max(c.dt, 16.0 * c.dt - 0.000000000001);
    FloorIsCount(t - c.t0, c.dt, STEPS - 1);
    assert Holding(c, t) && StepAt(c, t) == STEPS - 1;
  }

  /** The scan is the clamped floor of elapsed time over dt for every clock reading, exactly when dt is at least 1e-12. */
  lemma ScanIsClosedForm(c: Chunk)
    requires c.Valid()
    ensures (forall t :: StepAt(c, t) == ClosedForm(c, t)) <==> c.dt >= 0.000000000001
  {
    if c.dt >= 0.000000000001 {
      forall t
        ensures StepAt(c, t) == ClosedForm(c, t)
      {
        ScanMatches(c, t);
      }
    } else {
      var t := ShortStepsSkip(c);
    }
  }

  lemma {:induction false} ScanGrows(c: Chunk, t: real, t': real, i: nat)
    requires |c.stepT0s| == STEPS && t <= t' && 1 <= i <= STEPS
    ensures Scan(c, t, i) <= Scan(c, t', i)
    decreases STEPS - i
  {
    if i < STEPS && t >= c.stepT0s[i] {
      ScanGrows(c, t, t', i + 1);
    }
  }

  /** Playback never goes back, and once the tail is held it stays held, on the last step. */
  lemma PlaybackIsMonotone(c: Chunk, t: real, t': real)
    requires c.Valid() && t <= t'
    ensures StepAt(c, t) <= StepAt(c, t')
    ensures Holding(c, t) ==> Holding(c, t') && StepAt(c, t) == STEPS - 1
  {
    ScanGrows(c, t, t', 1);
  }

  /** The tail is held from the chunk's end on, and at most a tolerance before it. */
  lemma TailStartsAtTheEnd(c: Chunk, t: real)
    requires c.Valid()
    ensures t >= c.t0 + 16.0 * c.dt ==> Holding(c, t)
    ensures Holding(c, t) ==> t > c.t0 && t >= c.t0 + 16.0 * c.dt - Max(0.000000000001, c.dt * 0.000000001)
  {
    StartsOrdered(c.t0, c.dt);
  }

  /** What `load` accepts, and the chunk it stores. */
  predicate Loadable(size: int, dt: Double, t0: Double, left: seq<real>, right: seq<real>, lg: seq<real>, rg: seq<real>) {
    size == STEPS && dt.Fin? && dt.v > 0.0 && t0.Fin? && |left| == |right| == STEPS * DOF && |lg| == |rg| == STEPS
  }

  function MakeChunk(dt: real, t0: real, left: seq<real>, right: seq<real>, lg: seq<real>, rg: seq<real>): (c: Chunk)
    ensures dt > 0.0 && |left| == |right| == STEPS * DOF && |lg| == |rg| == STEPS ==> c.Valid()
  {
    Chunk(t0, dt, STEPS, StepStarts(t0, dt), StepStart(t0, dt, STEPS), left, right, lg, rg)
  }

  class Player {
    var chunk: Option<Chunk>

    ghost predicate Valid()
      reads this
    {
      chunk.Some? ==> chunk.value.Valid()
    }

    constructor ()
      ensures Valid() && chunk == None
    {
      chunk := None;
    }

    /** Replace the active chunk, or reject the new one and keep playing the old. */
    method Load(size: int, dt: Double, t0: Double, left: seq<real>, right: seq<real>, lg: seq<real>, rg: seq<real>)
      returns (ok: bool)
      requires Valid()
      modifies this
      ensures Valid()
      ensures ok == Loadable(size, dt, t0, left, right, lg, rg)
      ensures chunk == if ok then Some(MakeChunk(dt.v, t0.v, left, right, lg, rg)) else old(chunk)
    {
      if size != STEPS || dt.NonFinite? || dt.v <= 0.0 || t0.NonFinite? {
        return false;
      }
      if |left| != size * DOF || |right| != size * DOF || |lg| != size || |rg| != size {
        return false;
      }
      var starts := new real[STEPS](_ => 0.0);
      for i := 0 to STEPS
        invariant forall k :: 0 <= k < i ==> starts[k] == StepStart(t0.v, dt.v, k)
      {
        starts[i] := StepStart(t0.v, dt.v, i);
      }
      assert starts[..] == StepStarts(t0.v, dt.v);
      chunk := Some(Chunk(t0.v, dt.v, STEPS, starts[..], StepStart(t0.v, dt.v, STEPS), left, right, lg, rg));
      return true;
    }

    method Clear()
      modifies this
      ensures Valid() && chunk == None
    {
      chunk := None;
    }

    method Sample(t: real) returns (s: Option<Sample>)
      requires Valid()
      ensures s == if chunk.None? then None else Some(SampleAt(chunk.value, t))
    {
      if chunk.None? {
        return None;
      }
      var c := chunk.value;
      var idx: nat, holding := 0, false;
      assert c.stepT0s[0] == StepStart(c.t0, c.dt, 0) == c.t0;
      if t > c.stepT0s[0] {
        holding := t + Epsilon(c.dt) >= c.endT;
        var i := 1;
        while i < c.steps
          invariant 1 <= i <= STEPS && idx == i - 1
          invariant Scan(c, t, 1) == Scan(c, t, i)
        {
          if t >= c.stepT0s[i] {
            idx := i;
          } else {
            break;
          }
          i := i + 1;
        }
        if holding {
          idx := c.steps - 1;
        }
      }
      var base := idx * DOF;
      s := Some(Sampled(c.left[base..base + DOF], c.right[base..base + DOF], c.leftGripper[idx],
                        c.rightGripper[idx], holding));
    }
  }
}
