/** Safety of one arm over whole runs: ownership, limits, slew, and the meaning of a session. */
module ArmRuns {
  import opened Prelude
  import opened JointMath
  import opened JointFacts
  import opened ArmModel

  /** A finite history of a freshly started arm: the events, the state before each and at the end, and the outcomes. */
  datatype ArmHistory = ArmHistory(events: seq<ArmEvent>, states: seq<ArmState>, outs: seq<Outcome>)

  type ArmRun = r: ArmHistory | |r.states| == |r.events| + 1 && |r.outs| == |r.events|
    witness ArmHistory([], [INITIAL], [])

  ghost predicate Linked(cfg: Config, r: ArmRun, i: int)
    requires cfg.Valid()
  {
    0 <= i < |r.events| && r.outs[i].state == r.states[i + 1] &&
    (Inv(cfg, r.states[i]) ==> Step(cfg, r.states[i], r.events[i]) == r.outs[i])
  }

  ghost predicate IsRun(cfg: Config, r: ArmRun) {
    cfg.Valid() && r.states[0] == INITIAL && forall i :: 0 <= i < |r.events| ==> Linked(cfg, r, i)
  }

  function Last(r: ArmRun): ArmState {
    r.states[|r.events|]
  }

  lemma {:induction false} AlwaysInv(cfg: Config, r: ArmRun, n: nat)
    requires IsRun(cfg, r) && n <= |r.events|
    ensures Inv(cfg, r.states[n])
  {
    if n > 0 {
      AlwaysInv(cfg, r, n - 1);
      assert Linked(cfg, r, n - 1);
    }
  }

  /** Event `i` of a run is a step of the arm, from a state in which the arm's invariant holds. */
  lemma StepAt(cfg: Config, r: ArmRun, i: nat)
    requires IsRun(cfg, r) && i < |r.events|
    ensures Inv(cfg, r.states[i]) && Step(cfg, r.states[i], r.events[i]) == r.outs[i]
    ensures r.outs[i].state == r.states[i + 1]
  {
    AlwaysInv(cfg, r, i);
    assert Linked(cfg, r, i);
  }

  /** `x` begins with everything that happened in `r`. */
  predicate Prolongs(x: ArmRun, r: ArmRun) {
    r.events <= x.events && r.states <= x.states && r.outs <= x.outs
  }

  /** Every run goes on, whatever the next event is. */
  lemma OneMoreEvent(cfg: Config, r: ArmRun, ev: ArmEvent) returns (x: ArmRun)
    requires IsRun(cfg, r)
    ensures IsRun(cfg, x) && Prolongs(x, r) && x.events == r.events + [ev] && Inv(cfg, Last(r))
    ensures Last(x) == Step(cfg, Last(r), ev).state && x.outs[|r.events|] == Step(cfg, Last(r), ev)
  {
    AlwaysInv(cfg, r, |r.events|);
    var o := Step(cfg, Last(r), ev);
    x := ArmHistory(r.events + [ev], r.states + [o.state], r.outs + [o]);
    forall i | 0 <= i < |x.events|
      ensures Linked(cfg, x, i)
    {
      assert i < |r.events| ==> Linked(cfg, r, i);
    }
  }

  lemma {:induction false} EveryInputRuns(cfg: Config, evs: seq<ArmEvent>)
    requires cfg.Valid()
    ensures exists r: ArmRun :: IsRun(cfg, r) && r.events == evs
  {
    if evs == [] {
      assert IsRun(cfg, ArmHistory([], [INITIAL], []));
    } else {
      EveryInputRuns(cfg, evs[..|evs| - 1]);
      var base: ArmRun :| IsRun(cfg, base) && base.events == evs[..|evs| - 1];
      var x := OneMoreEvent(cfg, base, evs[|evs| - 1]);
      assert x.events == evs;
    }
  }

  /** One owner: in every reachable state at most one path streams, and it has what its next frame dereferences. */
  lemma OneOwner(cfg: Config, r: ArmRun, n: nat)
    requires IsRun(cfg, r) && n <= |r.events|
    ensures var st := r.states[n];
      && !(st.streaming && st.absStreaming)
      && (st.streaming ==> st.gentoRef.Some? && st.lastCommand.Some?)
      && (st.absStreaming ==> st.absLast.Some?)
  {
    AlwaysInv(cfg, r, n);
  }

  /** So a path that times out always requests a hold: the "other path is streaming" branch is never taken. */
  lemma TimeoutAlwaysHolds(cfg: Config, r: ArmRun, i: nat)
    requires IsRun(cfg, r) && i < |r.events| && r.events[i].Timeout?
    ensures var st := r.states[i]; var ev := r.events[i];
      && (PathStreaming(st, ev.absolute) ==> !PathActive(cfg, st, !ev.absolute, ev.now))
      && (r.outs[i].hold <==> PathStreaming(st, ev.absolute) && !PathActive(cfg, st, ev.absolute, ev.now))
      && (r.outs[i].hold ==> !PathStreaming(r.states[i + 1], ev.absolute))
  {
    StepAt(cfg, r, i);
    OneOwner(cfg, r, i);
  }

  // ---- Limits and slew ----

  predicate IsFrame(ev: ArmEvent, absolute: bool) {
    if absolute then ev.Absolute? else ev.Relative?
  }

  /** The latest target that the SDK core took on a path. */
  function LastSent(r: ArmRun, n: nat, absolute: bool): Option<Pose>
    requires n <= |r.events|
  {
    if n == 0 then None
    else if Sends(r.events[n - 1], r.outs[n - 1], absolute) then
      r.outs[n - 1].target
    else LastSent(r, n - 1, absolute)
  }

  predicate Sends(ev: ArmEvent, o: Outcome, absolute: bool) {
    IsFrame(ev, absolute) && ev.frame.accepted && o.target.Some?
  }

  lemma RelativeStepRemembers(cfg: Config, st: ArmState, f: Frame)
    requires cfg.Valid() && Inv(cfg, st)
    ensures var o := RelativeFrame(cfg, st, f); var sent := f.accepted && o.target.Some?;
      && (o.state.streaming && sent ==> o.state.lastCommand == o.target)
      && (o.state.streaming && !sent ==> st.streaming && o.state.lastCommand == st.lastCommand)
      && (o.state.absStreaming ==> st.absStreaming && o.state.absLast == st.absLast)
  {
  }

  lemma StepRemembers(cfg: Config, st: ArmState, ev: ArmEvent)
    requires cfg.Valid() && Inv(cfg, st)
    ensures var o := Step(cfg, st, ev);
      && (o.state.streaming ==>
            if Sends(ev, o, false) then o.state.lastCommand == o.target
            else st.streaming && o.state.lastCommand == st.lastCommand)
      && (o.state.absStreaming ==>
            if Sends(ev, o, true) then o.state.absLast == o.target
            else st.absStreaming && o.state.absLast == st.absLast)
  {
    if ev.Relative? {
      RelativeStepRemembers(cfg, st, ev.frame);
    }
  }

  lemma {:induction false} StreamingRemembersLastSent(cfg: Config, r: ArmRun, n: nat)
    requires IsRun(cfg, r) && n <= |r.events|
    ensures r.states[n].streaming ==> LastSent(r, n, false) == r.states[n].lastCommand
    ensures r.states[n].absStreaming ==> LastSent(r, n, true) == r.states[n].absLast
  {
    if n > 0 {
      StepAt(cfg, r, n - 1);
      StreamingRemembersLastSent(cfg, r, n - 1);
      StepRemembers(cfg, r.states[n - 1], r.events[n - 1]);
    }
  }

  /** Where a path's slew limit starts: its last command in a session, else the clamped measured pose. */
  function SlewBase(cfg: Config, session: Option<Pose>, streaming: bool, seed: Option<Pose>): Option<Pose>
    requires cfg.Valid()
  {
    if streaming then session else if seed.Some? then Some(HardClamp(cfg, seed.value)) else None
  }

  lemma TrackTargetIsNear(cfg: Config, st: ArmState, leader: Pose, f: Frame, seeded: bool)
    requires cfg.Valid() && Inv(cfg, st) && Open(st)
    ensures var o := Track(cfg, st, leader, f, seeded);
      o.target.Some? && o.seeded == seeded && Near(o.target.value, st.lastCommand.value, cfg.maxDelta)
  {
    ClampAfterSlewIsIdentity(HardClamp(cfg, ShapedCommand(cfg, st, leader, f).desired), st.lastCommand.value,
                             cfg.minimum, cfg.maximum, cfg.maxDelta);
  }

  /** A relative frame with a target is a frame of an open session, or of one that it opens. */
  lemma TrackedOutcome(cfg: Config, st: ArmState, f: Frame)
    requires cfg.Valid() && Inv(cfg, st) && RelativeFrame(cfg, st, f).target.Some?
    ensures |f.positions| == DOF && (st.streaming || f.seed.Some?)
    ensures var leader := Values(f.positions); var open := if st.streaming then st else Seed(cfg, st, leader, f.seed.value);
      RelativeFrame(cfg, st, f) == Track(cfg, open, leader, f, !st.streaming)
  {
  }

  lemma RelativeTargetIsSafe(cfg: Config, st: ArmState, f: Frame)
    requires cfg.Valid() && Inv(cfg, st) && RelativeFrame(cfg, st, f).target.Some?
    ensures var o, base := RelativeFrame(cfg, st, f), SlewBase(cfg, st.lastCommand, st.streaming, f.seed);
      base.Some? && Near(o.target.value, base.value, cfg.maxDelta) && o.seeded == !st.streaming
  {
    var leader := Values(f.positions);
    var open := if st.streaming then st else Seed(cfg, st, leader, f.seed.value);
    TrackedOutcome(cfg, st, f);
    TrackTargetIsNear(cfg, open, leader, f, !st.streaming);
  }

  lemma AbsoluteTargetIsSafe(cfg: Config, st: ArmState, f: Frame)
    requires cfg.Valid() && Inv(cfg, st) && AbsoluteFrame(cfg, st, f).target.Some?
    ensures var o, base := AbsoluteFrame(cfg, st, f), SlewBase(cfg, st.absLast, st.absStreaming, f.seed);
      base.Some? && Near(o.target.value, base.value, cfg.maxDelta) && o.seeded == !st.absStreaming
  {
    var last := if st.absStreaming then st.absLast.value else HardClamp(cfg, f.seed.value);
    var mapped := JointMapping(Values(f.positions), cfg.order, cfg.signs, cfg.offsets);
    ClampAfterSlewIsIdentity(HardClamp(cfg, mapped), last, cfg.minimum, cfg.maximum, cfg.maxDelta);
  }

  /**
   * Every target handed to the SDK lies in the joint limits. Within a session it moves each joint by at most the slew
   * limit from the latest target sent on its path; the first of a session, from the clamped measured pose.
   */
  lemma TargetsAreSafe(cfg: Config, r: ArmRun, i: nat, absolute: bool)
    requires IsRun(cfg, r) && i < |r.events| && IsFrame(r.events[i], absolute) && r.outs[i].target.Some?
    ensures var o, streaming := r.outs[i], PathStreaming(r.states[i], absolute);
      var base := SlewBase(cfg, LastSent(r, i, absolute), streaming, r.events[i].frame.seed);
      && Within(o.target.value, cfg.minimum, cfg.maximum) && o.seeded == !streaming
      && base.Some? && Near(o.target.value, base.value, cfg.maxDelta)
  {
    StepAt(cfg, r, i);
    StreamingRemembersLastSent(cfg, r, i);
    if absolute {
      AbsoluteTargetIsSafe(cfg, r.states[i], r.events[i].frame);
    } else {
      RelativeTargetIsSafe(cfg, r.states[i], r.events[i].frame);
    }
  }

  // ---- Sessions ----

  /** A relative frame that reaches the map, and so leads to a target. */
  predicate Tracked(r: ArmRun, i: int) {
    && 0 <= i < |r.events| && r.events[i].Relative? && |r.events[i].frame.positions| == DOF
    && r.outs[i].target.Some? && (r.outs[i].seeded ==> r.events[i].frame.seed.Some?)
  }

  predicate OpensSession(r: ArmRun, i: int) {
    Tracked(r, i) && r.outs[i].seeded
  }

  /** A relative session opened by event `a` that still streams after every event before `b`. */
  predicate Session(r: ArmRun, a: nat, b: nat) {
    a < b <= |r.events| && OpensSession(r, a) && forall k :: a < k <= b ==> r.states[k].streaming
  }

  /** The references a session starts from. */
  function Opening(cfg: Config, r: ArmRun, a: nat): ArmState
    requires OpensSession(r, a)
  {
    var f := r.events[a].frame;
    Seed(cfg, r.states[a], Values(f.positions), f.seed.value)
  }

  /** The state in which a tracked frame is processed. */
  function Before(cfg: Config, r: ArmRun, i: nat): ArmState
    requires Tracked(r, i)
  {
    if r.outs[i].seeded then Opening(cfg, r, i) else r.states[i]
  }

  predicate SameRefs(x: ArmState, y: ArmState) {
    x.gentoRef == y.gentoRef && x.leaderContRef == y.leaderContRef
    && x.leaderPrev == y.leaderPrev && x.leaderContinuous == y.leaderContinuous
  }

  lemma TrackRefs(cfg: Config, st: ArmState, leader: Pose, f: Frame, seeded: bool)
    requires cfg.Valid() && Inv(cfg, st) && Open(st)
    ensures SameRefs(Track(cfg, st, leader, f, seeded).state, Clutched(cfg, st, leader, f))
  {
  }

  lemma RelativeRefs(cfg: Config, st: ArmState, f: Frame)
    requires cfg.Valid() && Inv(cfg, st)
    ensures var o := RelativeFrame(cfg, st, f);
      && (o.target.Some? ==>
            |f.positions| == DOF && (st.streaming || f.seed.Some?) && o.seeded == !st.streaming &&
            var leader := Values(f.positions);
            var open := if st.streaming then st else Seed(cfg, st, leader, f.seed.value);
            SameRefs(o.state, Clutched(cfg, open, leader, f)))
      && (o.target.None? && o.state.streaming ==> st.streaming && SameRefs(o.state, st))
  {
    if !PathActive(cfg, st, true, f.now) && |f.positions| == DOF && (st.streaming || f.seed.Some?)
       && MapsFinite(cfg.order, f.positions) {
      var leader := Values(f.positions);
      var open := if st.streaming then st else Seed(cfg, st, leader, f.seed.value);
      TrackRefs(cfg, open, leader, f, !st.streaming);
    }
  }

  /** Exactly the relative frames with a target are tracked; they find an open session or open one. */
  lemma TargetsAreTracked(cfg: Config, r: ArmRun, i: nat)
    requires IsRun(cfg, r) && i < |r.events|
    ensures Tracked(r, i) <==> r.events[i].Relative? && r.outs[i].target.Some?
    ensures Tracked(r, i) ==> var st := Before(cfg, r, i);
      && r.outs[i].seeded == !r.states[i].streaming
      && Inv(cfg, st) && Open(st)
  {
    StepAt(cfg, r, i);
    if r.events[i].Relative? {
      RelativeRefs(cfg, r.states[i], r.events[i].frame);
    }
  }

  /** What a tracked frame does to the references, and what an event that leaves the session open does otherwise. */
  lemma SessionStep(cfg: Config, r: ArmRun, i: nat)
    requires IsRun(cfg, r) && i < |r.events|
    ensures Tracked(r, i) ==>
      var st, f := Before(cfg, r, i), r.events[i].frame;
      Open(st) && SameRefs(r.states[i + 1], Clutched(cfg, st, Values(f.positions), f))
    ensures !Tracked(r, i) && r.states[i + 1].streaming ==>
      r.states[i].streaming && SameRefs(r.states[i + 1], r.states[i])
  {
    StepAt(cfg, r, i);
    TargetsAreTracked(cfg, r, i);
    if r.events[i].Relative? {
      RelativeRefs(cfg, r.states[i], r.events[i].frame);
    }
  }

  /** The state that event `i` of a session works on. */
  function From(cfg: Config, r: ArmRun, i: nat): ArmState
    requires i < |r.events|
  {
    if Tracked(r, i) then Before(cfg, r, i) else r.states[i]
  }

  /** What holds of the opening references, and is kept by each event, holds throughout a session. */
  lemma {:induction false} SessionInduction(cfg: Config, r: ArmRun, a: nat, b: nat, p: (nat, ArmState) -> bool)
    requires IsRun(cfg, r) && Session(r, a, b)
    requires p(a, Opening(cfg, r, a))
    requires forall i: nat :: a <= i < b && p(i, From(cfg, r, i)) ==> p(i + 1, r.states[i + 1])
    ensures p(b, r.states[b])
    decreases b
  {
    var i: nat := b - 1;
    if a < i {
      SessionInduction(cfg, r, a, i, p);
      TargetsAreTracked(cfg, r, i);
    }
    assert p(i, From(cfg, r, i));
  }

  /** The same from a point `c` after the opening on. */
  lemma {:induction false} RunningInduction(cfg: Config, r: ArmRun, a: nat, c: nat, b: nat,
                                            p: (nat, ArmState) -> bool)
    requires IsRun(cfg, r) && Session(r, a, b) && a < c <= b
    requires p(c, r.states[c])
    requires forall i: nat :: c <= i < b && p(i, From(cfg, r, i)) ==> p(i + 1, r.states[i + 1])
    ensures p(b, r.states[b])
    decreases b
  {
    if c < b {
      var i: nat := b - 1;
      RunningInduction(cfg, r, a, c, i, p);
      TargetsAreTracked(cfg, r, i);
      assert p(i, From(cfg, r, i));
    }
  }

  /** What every tracked frame establishes, and other events keep, holds whenever the relative path streams. */
  lemma {:induction false} StreamingInduction(cfg: Config, r: ArmRun, n: nat, p: ArmState -> bool)
    requires IsRun(cfg, r) && n <= |r.events|
    requires forall i: nat :: i < n && Tracked(r, i) ==> p(r.states[i + 1])
    requires forall x, y :: p(x) && SameRefs(y, x) ==> p(y)
    ensures r.states[n].streaming ==> p(r.states[n])
  {
    if n > 0 && r.states[n].streaming {
      var i: nat := n - 1;
      SessionStep(cfg, r, i);
      if !Tracked(r, i) {
        StreamingInduction(cfg, r, i, p);
      }
    } else if n == 0 {
      assert r.states[0] == INITIAL;
    }
  }
}
