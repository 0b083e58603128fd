/** Runs of the arbiter from its initial state, and what every reachable state satisfies. */
module ArbiterRuns {
  import opened Prelude
  import opened ControlMode
  import opened TeleopSync
  import opened ChunkPlayer
  import opened Arbiter

  /** A finite history: the events, the state before each of them and at the end, and what each step published. */
  datatype History = History(events: seq<ArbEvent>, states: seq<ArbState>, outs: seq<seq<Publication>>)

  type Run = r: History | |r.states| == |r.events| + 1 && |r.outs| == |r.events|
    witness History([], [INITIAL], [])

  predicate Linked(cfg: ArbConfig, r: Run, i: int) {
    0 <= i < |r.events| && ArbStep(cfg, r.states[i], r.events[i]) == ArbOutcome(r.states[i + 1], r.outs[i])
  }

  predicate IsRun(cfg: ArbConfig, r: Run) {
    r.states[0] == INITIAL && forall i :: 0 <= i < |r.events| ==> Linked(cfg, r, i)
  }

  function Extended(cfg: ArbConfig, r: Run, ev: ArbEvent): Run {
    var o := ArbStep(cfg, r.states[|r.events|], ev);
    History(r.events + [ev], r.states + [o.state], r.outs + [o.out])
  }

  lemma ExtendedRuns(cfg: ArbConfig, r: Run, ev: ArbEvent)
    requires IsRun(cfg, r)
    ensures IsRun(cfg, Extended(cfg, r, ev))
  {
    var x := Extended(cfg, r, ev);
    forall i | 0 <= i < |x.events|
      ensures Linked(cfg, x, i)
    {
      assert i < |r.events| ==> Linked(cfg, r, i);
    }
  }

  lemma {:induction false} EveryInputRuns(cfg: ArbConfig, evs: seq<ArbEvent>)
    ensures exists r: Run :: IsRun(cfg, r) && r.events == evs
  {
    if evs == [] {
      assert IsRun(cfg, History([], [INITIAL], []));
    } else {
      EveryInputRuns(cfg, evs[..|evs| - 1]);
      var base: Run :| IsRun(cfg, base) && base.events == evs[..|evs| - 1];
      ExtendedRuns(cfg, base, evs[|evs| - 1]);
      assert Extended(cfg, base, evs[|evs| - 1]).events == evs;
    }
  }

  function WallOf(ev: ArbEvent): real {
    match ev
    case Policy(_, _, wall) => wall
    case Intervention(_, _, wall, _) => wall
    case JointStates(_, wall) => wall
    case TeleopState(_, wall) => wall
    case SyncTimer(wall) => wall
    case _ => 0.0
  }

  // ---- Accepted commands ----

  predicate Takeover(st: ArbState, ev: ArbEvent) {
    ev.Intervention? && ev.command == TAKEOVER && st.logic.CanTakeover()
  }

  predicate EnterTeleop(st: ArbState, ev: ArbEvent) {
    ev.Intervention? && ev.command == ENTER_TELEOP && st.logic.CanEnterTeleop()
  }

  predicate Return(st: ArbState, ev: ArbEvent) {
    ev.Intervention? && ev.command == RETURN && st.logic.CanReturn()
  }

  predicate NewChunk(cfg: ArbConfig, st: ArbState, ev: ArbEvent) {
    ev.Policy? && Admitted(cfg, st, ev.msg, ev.now, ev.wall).Some?
  }

  predicate TookOver(r: Run, i: int) {
    0 <= i < |r.events| && Takeover(r.states[i], r.events[i])
  }

  predicate AskedToEnter(r: Run, i: int) {
    0 <= i < |r.events| && EnterTeleop(r.states[i], r.events[i])
  }

  predicate Returned(r: Run, i: int) {
    0 <= i < |r.events| && Return(r.states[i], r.events[i])
  }

  predicate ChunkAccepted(cfg: ArbConfig, r: Run, i: int) {
    0 <= i < |r.events| && NewChunk(cfg, r.states[i], r.events[i])
  }

  // ---- What every step keeps ----

  predicate HoldsPose(target: Option<Sample>, pose: Option<Followers>) {
    target.Some? ==> pose.Some? && target.value.left == pose.value.left && target.value.right == pose.value.right
  }

  /** The facts that tie the arbiter's separately kept fields together. */
  predicate Coherent(st: ArbState) {
    && st.logic.Valid()
    && (st.absHold <==> st.logic.requested)
    && (st.hs.phase == PhaseIdle <==> st.logic.mode != HandoverSync)
    && (st.hs.phase == WaitTeleop ==> st.logic.requested)
    && (st.logic.mode != Autonomous || st.returnTime.Some? ==> st.chunk.None?)
    && (st.returnTime.Some? <==> st.returnWall.Some?)
    && (st.feedback.Some? <==> st.feedbackAt.Some?)
    && (st.logic.mode == Autonomous && st.returnTime.Some? ==>
          st.holdTarget == st.lastTarget && HoldsPose(st.holdTarget, st.feedback))
  }

  lemma StepKeepsCoherence(cfg: ArbConfig, st: ArbState, ev: ArbEvent)
    requires Coherent(st)
    ensures Coherent(ArbStep(cfg, st, ev).state)
  {
  }

  lemma {:induction false} AlwaysCoherent(cfg: ArbConfig, r: Run, n: nat)
    requires IsRun(cfg, r) && n <= |r.events|
    ensures Coherent(r.states[n])
  {
    if n > 0 {
      assert Linked(cfg, r, n - 1);
      AlwaysCoherent(cfg, r, n - 1);
      StepKeepsCoherence(cfg, r.states[n - 1], r.events[n - 1]);
    }
  }

  // ---- Outputs never interleave ----

  /** Between an accepted enter_teleop and the next return. */
  predicate Released(st: ArbState) {
    st.logic.mode == Human || st.logic.requested
  }

  predicate FromPolicy(p: Publication) {
    p.AbsCommand? || p.GripperCommand?
  }

  predicate FromTeleop(p: Publication) {
    p.RelCommand? || p.GripperForward?
  }

  lemma StepReleases(cfg: ArbConfig, st: ArbState, ev: ArbEvent)
    requires Coherent(st)
    ensures var next := ArbStep(cfg, st, ev).state;
      && (!Released(st) && Released(next) <==> EnterTeleop(st, ev))
      && (Released(st) && !Released(next) ==> Return(st, ev))
  {
  }

  lemma StepOutputs(cfg: ArbConfig, st: ArbState, ev: ArbEvent, p: Publication)
    requires Coherent(st) && p in ArbStep(cfg, st, ev).out
    ensures FromPolicy(p) ==> !Released(st) && (ev.JointTimer? || ev.GripperTimer?)
    ensures FromTeleop(p) ==> st.logic.mode == Human
    ensures p == HoldRequest ==> EnterTeleop(st, ev) && ev.holdAvailable
  {
  }

  lemma {:induction false} ReleaseIsRequested(cfg: ArbConfig, r: Run, i: nat, j: nat)
    requires IsRun(cfg, r) && i <= j <= |r.events| && !Released(r.states[i]) && Released(r.states[j])
    ensures exists e :: i <= e < j && AskedToEnter(r, e)
  {
    assert Linked(cfg, r, j - 1);
    AlwaysCoherent(cfg, r, j - 1);
    StepReleases(cfg, r.states[j - 1], r.events[j - 1]);
    if Released(r.states[j - 1]) {
      ReleaseIsRequested(cfg, r, i, j - 1);
    } else {
      assert AskedToEnter(r, j - 1);
    }
  }

  lemma {:induction false} ReleaseEndsByReturn(cfg: ArbConfig, r: Run, i: nat, j: nat)
    requires IsRun(cfg, r) && i <= j <= |r.events| && Released(r.states[i]) && !Released(r.states[j])
    ensures exists b :: i <= b < j && Returned(r, b)
  {
    assert Linked(cfg, r, j - 1);
    AlwaysCoherent(cfg, r, j - 1);
    StepReleases(cfg, r.states[j - 1], r.events[j - 1]);
    if Released(r.states[j - 1]) {
      assert Returned(r, j - 1);
    } else {
      ReleaseEndsByReturn(cfg, r, i, j - 1);
    }
  }

  predicate PolicyAt(r: Run, i: int) {
    0 <= i < |r.events| && exists p :: p in r.outs[i] && FromPolicy(p)
  }

  predicate TeleopAt(r: Run, i: int) {
    0 <= i < |r.events| && exists p :: p in r.outs[i] && FromTeleop(p)
  }

  predicate HoldRequestedAt(r: Run, i: int) {
    0 <= i < |r.events| && HoldRequest in r.outs[i]
  }

  /** Policy outputs appear only while the arms are not released to teleoperation, teleop outputs only in HUMAN. */
  lemma OutputsFollowOwnership(cfg: ArbConfig, r: Run, i: nat)
    requires IsRun(cfg, r) && i < |r.events|
    ensures PolicyAt(r, i) ==> !Released(r.states[i]) && !Released(r.states[i + 1])
    ensures TeleopAt(r, i) ==> r.states[i].logic.mode == Human
    ensures HoldRequestedAt(r, i) <==> AskedToEnter(r, i) && r.events[i].holdAvailable
  {
    var st := r.states[i];
    assert Linked(cfg, r, i);
    AlwaysCoherent(cfg, r, i);
    forall p | p in r.outs[i]
      ensures FromPolicy(p) ==> !Released(st) && (r.events[i].JointTimer? || r.events[i].GripperTimer?)
      ensures FromTeleop(p) ==> st.logic.mode == Human
      ensures p == HoldRequest ==> EnterTeleop(st, r.events[i]) && r.events[i].holdAvailable
    {
      StepOutputs(cfg, st, r.events[i], p);
    }
    StepReleases(cfg, st, r.events[i]);
    if AskedToEnter(r, i) && r.events[i].holdAvailable {
      assert r.outs[i][0] == HoldRequest;
    }
  }

  /** Between a policy output and a later teleop output lies an accepted enter_teleop; between a teleop output and a
    * later policy output, or an accepted enter_teleop and a later policy output, lies an accepted return. */
  lemma OutputsNeverInterleave(cfg: ArbConfig, r: Run, i: nat, j: nat)
    requires IsRun(cfg, r) && i < j < |r.events|
    ensures PolicyAt(r, i) && TeleopAt(r, j) ==> exists e :: i < e < j && AskedToEnter(r, e)
    ensures (TeleopAt(r, i) || AskedToEnter(r, i)) && PolicyAt(r, j) ==>
      exists b :: i < b < j && Returned(r, b)
  {
    OutputsFollowOwnership(cfg, r, i);
    OutputsFollowOwnership(cfg, r, j);
    AlwaysCoherent(cfg, r, i);
    if PolicyAt(r, i) && TeleopAt(r, j) {
      ReleaseIsRequested(cfg, r, i + 1, j);
    }
    if (TeleopAt(r, i) || AskedToEnter(r, i)) && PolicyAt(r, j) {
      assert Linked(cfg, r, i);
      StepReleases(cfg, r.states[i], r.events[i]);
      if TeleopAt(r, i) {
        TeleopKeepsState(cfg, r, i);
      }
      ReleaseEndsByReturn(cfg, r, i + 1, j);
    }
  }

  lemma TeleopKeepsState(cfg: ArbConfig, r: Run, i: nat)
    requires IsRun(cfg, r) && i < |r.events| && TeleopAt(r, i)
    ensures r.states[i + 1] == r.states[i]
  {
    assert Linked(cfg, r, i);
    AlwaysCoherent(cfg, r, i);
    forall p | p in r.outs[i] && FromTeleop(p)
      ensures r.states[i + 1] == r.states[i]
    {
      StepOutputs(cfg, r.states[i], r.events[i], p);
    }
  }

  /** Exactly when a hold is requested between a policy output and a later teleop output: some accepted enter_teleop
    * between them found the hold service. */
  lemma HoldBetweenOutputs(cfg: ArbConfig, r: Run, i: nat, j: nat)
    requires IsRun(cfg, r) && i < j < |r.events| && PolicyAt(r, i) && TeleopAt(r, j)
    ensures (exists h :: i < h < j && HoldRequestedAt(r, h))
      <==> (exists e :: i < e < j && AskedToEnter(r, e) && r.events[e].holdAvailable)
    ensures (forall e :: i < e < j && AskedToEnter(r, e) ==> r.events[e].holdAvailable) ==>
      exists h :: i < h < j && HoldRequestedAt(r, h)
  {
    OutputsNeverInterleave(cfg, r, i, j);
    forall k | i < k < j
      ensures HoldRequestedAt(r, k) <==> AskedToEnter(r, k) && r.events[k].holdAvailable
    {
      OutputsFollowOwnership(cfg, r, k);
    }
  }
}
