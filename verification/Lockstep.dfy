/** A policy session and the driver's relative path, frame by frame, from the same feedback pose. */
module Lockstep {
  import opened Prelude
  import opened JointMath
  import opened JointFacts
  import opened PolicyRelative
  import opened ArmModel
  import opened ArmRuns
  import opened ResumeTheorems
  import opened StreamTheorems

  predicate UnitSigns(signs: Pose) {
    forall i :: 0 <= i < DOF ==> signs[i] == 1.0 || signs[i] == -1.0
  }

  /** The driver's relative map on its own references. */
  function DriverMap(d: Refs, leader: Pose, signs: Pose, order: Order): Pose {
    RelativeMapping(leader, d.leaderPrev, d.leaderContinuous, d.leaderContRef, d.gentoRef, order, signs)
  }

  function DriverAfter(d: Refs, leader: Pose, order: Order): Refs {
    d.(leaderContinuous := ContinuousAfter(DOF, leader, d.leaderPrev, d.leaderContinuous, order), leaderPrev := leader)
  }

  /** A driver session opens on the first leader frame it sees. */
  function DriverOpens(feedback: Pose, leader: Pose): Refs {
    Refs(feedback, leader, leader, leader)
  }

  /** What the driver maps while the session publishes a command for each target. */
  function Outputs(p: Refs, d: Refs, targets: seq<Pose>, signs: Pose, order: Order): seq<Pose>
    decreases |targets|
  {
    if targets == [] then []
    else
      var leader := LeaderFor(targets[0], p, signs, order);
      [DriverMap(d, leader, signs, order)]
      + Outputs(Committed(p, leader), DriverAfter(d, leader, order), targets[1..], signs, order)
  }

  /** Both sides start from the same feedback pose. */
  function Replay(feedback: Pose, targets: seq<Pose>, signs: Pose, order: Order): seq<Pose> {
    if targets == [] then []
    else
      var p := Began(feedback);
      Outputs(p, DriverOpens(feedback, LeaderFor(targets[0], p, signs, order)), targets, signs, order)
  }

  /** No joint of the target sequence moves more than half a turn per frame, starting from `current`. */
  predicate Smooth(current: Pose, targets: seq<Pose>, bound: real)
    decreases |targets|
  {
    targets == [] || (Near(targets[0], current, bound) && Smooth(targets[0], targets[1..], bound))
  }

  lemma {:induction false} RequiredSlot(k: nat, target: Pose, v: Refs, signs: Pose, order: Order, out: int)
    requires Injective(order) && 0 <= out < k <= DOF
    ensures RequiredAfter(k, target, v, signs, order)[order[out]]
      == Moved(v.leaderContRef[order[out]], signs[out], target[out] - v.gentoRef[out])
  {
    if out < k - 1 {
      RequiredSlot(k - 1, target, v, signs, order, out);
    }
  }

  /** Both sides advance their unwrap state alike, whatever is published. */
  lemma SameAdvance(v: Refs, leader: Pose, order: Order)
    requires Injective(order)
    ensures Committed(v, leader) == DriverAfter(v, leader, order)
  {
    forall j | 0 <= j < DOF
      ensures Committed(v, leader).leaderContinuous[j] == DriverAfter(v, leader, order).leaderContinuous[j]
    {
      ContinuousClosedForm(leader, v.leaderPrev, v.leaderContinuous, order, j);
    }
    assert Committed(v, leader).leaderContinuous == DriverAfter(v, leader, order).leaderContinuous;
  }

  /** The virtual leader stands where the driver's map gives `current`. */
  ghost predicate StandsAt(v: Refs, signs: Pose, order: Order, current: Pose) {
    forall out :: 0 <= out < DOF ==>
      v.leaderContinuous[order[out]] == Moved(v.leaderContRef[order[out]], signs[out], current[out] - v.gentoRef[out])
  }

  lemma UnitFollow(ref: real, sign: real, leaderRef: real, goal: real, extra: real)
    requires sign == 1.0 || sign == -1.0
    ensures Follow(ref, sign, Moved(leaderRef, sign, goal - ref) + extra, leaderRef) == goal + sign * extra
    ensures Moved(leaderRef, sign, goal - ref) - Moved(leaderRef, sign, 0.0) == sign * (goal - ref)
  {
  }

  lemma UnitMotion(leaderRef: real, sign: real, ref: real, current: real, target: real)
    requires sign == 1.0 || sign == -1.0
    ensures Moved(leaderRef, sign, target - ref) - Moved(leaderRef, sign, current - ref) == sign * (target - current)
    ensures Abs(sign * (target - current)) == Abs(target - current)
  {
  }

  /** One joint of one frame: the map gives the target exactly when it moved at most half a turn. */
  lemma JointExact(v: Refs, signs: Pose, order: Order, current: Pose, target: Pose, out: int)
    requires Injective(order) && UnitSigns(signs) && StandsAt(v, signs, order, current) && 0 <= out < DOF
    ensures var leader := LeaderFor(target, v, signs, order); var s := order[out];
      && (DriverMap(v, leader, signs, order)[out] == target[out] <==> Abs(target[out] - current[out]) <= PI)
      && (Abs(target[out] - current[out]) <= PI ==>
            v.leaderContinuous[s] + FrameDelta(leader, v.leaderPrev)[s]
            == Moved(v.leaderContRef[s], signs[out], target[out] - v.gentoRef[out]))
  {
    var leader, s := LeaderFor(target, v, signs, order), order[out];
    var ref, sign, leaderRef := v.gentoRef[out], signs[out], v.leaderContRef[s];
    RequiredSlot(DOF, target, v, signs, order, out);
    RelativeClosedForm(leader, v.leaderPrev, v.leaderContinuous, v.leaderContRef, v.gentoRef, order, signs, out);
    UnitMotion(leaderRef, sign, ref, current[out], target[out]);
    var delta := sign * (target[out] - current[out]);
    assert leader[s] - v.leaderPrev[s] == delta;
    var lost := Unwrap(delta) - delta;
    assert v.leaderContinuous[s] + Unwrap(delta) == Moved(leaderRef, sign, target[out] - ref) + lost;
    UnitFollow(ref, sign, leaderRef, target[out], lost);
  }

  /** One frame: exact on all joints together, and then both sides stand at the target. */
  lemma FrameExact(v: Refs, signs: Pose, order: Order, current: Pose, target: Pose)
    requires Injective(order) && UnitSigns(signs) && StandsAt(v, signs, order, current)
    ensures var leader := LeaderFor(target, v, signs, order);
      && (DriverMap(v, leader, signs, order) == target <==> Near(target, current, PI))
      && (Near(target, current, PI) ==> StandsAt(DriverAfter(v, leader, order), signs, order, target))
  {
    var leader := LeaderFor(target, v, signs, order);
    var next := DriverAfter(v, leader, order);
    forall out | 0 <= out < DOF
      ensures DriverMap(v, leader, signs, order)[out] == target[out] <==> Abs(target[out] - current[out]) <= PI
      ensures Abs(target[out] - current[out]) <= PI ==>
        next.leaderContinuous[order[out]]
        == Moved(next.leaderContRef[order[out]], signs[out], target[out] - next.gentoRef[out])
    {
      JointExact(v, signs, order, current, target, out);
      ContinuousClosedForm(leader, v.leaderPrev, v.leaderContinuous, order, order[out]);
    }
    if Near(target, current, PI) {
      assert DriverMap(v, leader, signs, order) == target;
    }
  }

  lemma {:induction false} OutputsExact(v: Refs, signs: Pose, order: Order, current: Pose, targets: seq<Pose>)
    requires Injective(order) && UnitSigns(signs) && StandsAt(v, signs, order, current)
    ensures Outputs(v, v, targets, signs, order) == targets <==> Smooth(current, targets, PI)
    decreases |targets|
  {
    if targets != [] {
      var leader := LeaderFor(targets[0], v, signs, order);
      FrameExact(v, signs, order, current, targets[0]);
      SameAdvance(v, leader, order);
      var next := DriverAfter(v, leader, order);
      var rest := Outputs(next, next, targets[1..], signs, order);
      assert Outputs(v, v, targets, signs, order)[1..] == rest;
      assert Outputs(v, v, targets, signs, order)[0] == DriverMap(v, leader, signs, order);
      assert targets == [targets[0]] + targets[1..];
      if Near(targets[0], current, PI) {
        OutputsExact(next, signs, order, targets[0], targets[1..]);
      }
    }
  }

  lemma FirstCommandIsPose(feedback: Pose, signs: Pose, order: Order)
    requires Injective(order)
    ensures LeaderFor(feedback, Began(feedback), signs, order) == feedback
    ensures StandsAt(Began(feedback), signs, order, feedback)
  {
    forall j | 0 <= j < DOF
      ensures LeaderFor(feedback, Began(feedback), signs, order)[j] == feedback[j]
    {
      var out := InjectiveIsOnto(order, j);
      RequiredSlot(DOF, feedback, Began(feedback), signs, order, out);
    }
  }

  lemma FirstOutputIsFeedback(feedback: Pose, leader: Pose, signs: Pose, order: Order)
    ensures DriverMap(DriverOpens(feedback, leader), leader, signs, order) == feedback
  {
    forall out | 0 <= out < DOF
      ensures DriverMap(DriverOpens(feedback, leader), leader, signs, order)[out] == feedback[out]
    {
      StillLeaderMaps(leader, leader, leader, feedback, order, signs, out);
      FollowAdds(feedback[out], signs[out], leader[order[out]], leader[order[out]], 0.0);
    }
  }

  /**
   * The driver reproduces a policy's targets exactly if and only if the first is the common feedback pose and no joint
   * moves more than half a turn per frame.
   */
  lemma ReplayIsExact(feedback: Pose, targets: seq<Pose>, signs: Pose, order: Order)
    requires Injective(order) && UnitSigns(signs) && targets != []
    ensures Replay(feedback, targets, signs, order) == targets
      <==> targets[0] == feedback && Smooth(feedback, targets, PI)
  {
    var p := Began(feedback);
    var leader := LeaderFor(targets[0], p, signs, order);
    FirstOutputIsFeedback(feedback, leader, signs, order);
    assert Replay(feedback, targets, signs, order)[0] == feedback;
    if targets[0] == feedback {
      FirstCommandIsPose(feedback, signs, order);
      OutputsExact(p, signs, order, feedback, targets);
    }
  }

  // ---- Through the whole handler ----

  /** The virtual leader after publishing a command for each of the first `n` targets. */
  ghost function SessionAfter(feedback: Pose, targets: seq<Pose>, signs: Pose, order: Order, n: nat): Refs
    requires n <= |targets|
  {
    if n == 0 then Began(feedback)
    else
      var v := SessionAfter(feedback, targets, signs, order, n - 1);
      Committed(v, LeaderFor(targets[n - 1], v, signs, order))
  }

  /** A relative frame that carries `leader`, and the feedback if it is to open the session. */
  ghost predicate Publishes(ev: ArmEvent, leader: Pose, first: bool, feedback: Pose) {
    && ev.Relative? && ev.frame.accepted && (first ==> ev.frame.seed == Some(feedback))
    && |ev.frame.positions| == DOF && forall j :: 0 <= j < DOF ==> ev.frame.positions[j] == Fin(leader[j])
  }

  /** The relative frames among events `s` to `n`. */
  function Played(r: ArmRun, s: nat, n: nat): nat
    requires s <= n <= |r.events|
  {
    if s == n then 0 else Played(r, s, n - 1) + if r.events[n - 1].Relative? then 1 else 0
  }

  /** Event `i` carries the session's command for the next target, or leaves the arm as it is. */
  ghost predicate PlaysAt(cfg: Config, r: ArmRun, s: nat, i: nat, feedback: Pose, targets: seq<Pose>)
    requires s <= i < |r.events|
  {
    var k := Played(r, s, i);
    if r.events[i].Relative? then
      k < |targets| &&
      Publishes(r.events[i], LeaderFor(targets[k], SessionAfter(feedback, targets, cfg.signs, cfg.order, k), cfg.signs,
                                       cfg.order), k == 0, feedback)
    else r.outs[i] == Quiet(r.states[i])
  }

  /** From event `s` on, an arm that no path owns receives exactly what a policy session publishes for `targets`, between
    * timeout checks that do not fire and other events without effect. */
  ghost predicate PlayedTo(cfg: Config, r: ArmRun, s: nat, feedback: Pose, targets: seq<Pose>) {
    && s <= |r.events| && !r.states[s].streaming && !r.states[s].absStreaming
    && forall i :: s <= i < |r.events| ==> PlaysAt(cfg, r, s, i, feedback, targets)
  }

  /** Targets that the handler may pass through unchanged: in limits, from the feedback pose, slow enough. */
  ghost predicate Reachable(cfg: Config, feedback: Pose, targets: seq<Pose>) {
    && (forall k :: 0 <= k < |targets| ==> Within(targets[k], cfg.minimum, cfg.maximum))
    && (forall k :: 0 < k < |targets| ==> Near(targets[k], targets[k - 1], Min(PI, cfg.maxDelta)))
    && (targets != [] ==> targets[0] == feedback)
  }

  ghost predicate InStep(st: ArmState, v: Refs, last: Pose) {
    && st.streaming && !st.absStreaming && st.lastCommand == Some(last) && st.gentoRef == Some(v.gentoRef)
    && st.leaderPrev == v.leaderPrev && st.leaderContinuous == v.leaderContinuous && st.leaderContRef == v.leaderContRef
  }

  ghost predicate Plain(cfg: Config) {
    cfg.Valid() && cfg.relative && !cfg.assist && Injective(cfg.order) && UnitSigns(cfg.signs)
  }

  /** A frame whose mapped command is in limits and within the slew limit is sent as it is, and nothing is clutched. */
  lemma TrackPassesThrough(cfg: Config, st: ArmState, leader: Pose, f: Frame, target: Pose, seeded: bool)
    requires Plain(cfg) && Inv(cfg, st) && Open(st) && f.accepted
    requires Mapped(cfg, st, leader) == target && Within(target, cfg.minimum, cfg.maximum)
    requires Near(target, st.lastCommand.value, cfg.maxDelta)
    ensures var r := Track(cfg, st, leader, f, seeded);
      && r.target == Some(target)
      && r.state.streaming && !r.state.absStreaming && r.state.lastCommand == Some(target)
      && r.state.gentoRef == st.gentoRef && r.state.leaderContRef == st.leaderContRef
      && r.state.leaderPrev == leader && r.state.leaderContinuous == Continued(cfg, st, leader)
  {
    ClampAfterSlewIsIdentity(target, st.lastCommand.value, cfg.minimum, cfg.maximum, cfg.maxDelta);
    var cont := Continued(cfg, st, leader);
    assert ClutchContRef(DOF, target, target, cont, st.leaderContRef, cfg.order) == st.leaderContRef;
    assert ClutchGentoRef(target, target, st.gentoRef.value) == st.gentoRef.value;
  }

  lemma FrameInStep(cfg: Config, st: ArmState, v: Refs, current: Pose, target: Pose, ev: ArmEvent, feedback: Pose)
    requires Plain(cfg) && Inv(cfg, st) && InStep(st, v, current) && StandsAt(v, cfg.signs, cfg.order, current)
    requires Publishes(ev, LeaderFor(target, v, cfg.signs, cfg.order), false, feedback)
    requires Within(target, cfg.minimum, cfg.maximum) && Near(target, current, Min(PI, cfg.maxDelta))
    ensures var leader := LeaderFor(target, v, cfg.signs, cfg.order); var o := Step(cfg, st, ev);
      && o.target == Some(target) && InStep(o.state, Committed(v, leader), target)
      && StandsAt(Committed(v, leader), cfg.signs, cfg.order, target)
  {
    var leader := LeaderFor(target, v, cfg.signs, cfg.order);
    assert Values(ev.frame.positions) == leader;
    FrameExact(v, cfg.signs, cfg.order, current, target);
    SameAdvance(v, leader, cfg.order);
    TrackPassesThrough(cfg, st, leader, ev.frame, target, false);
  }

  lemma StandingStill(feedback: Pose, signs: Pose, order: Order)
    requires Injective(order) && UnitSigns(signs)
    ensures Committed(Began(feedback), feedback) == Began(feedback)
  {
    SameAdvance(Began(feedback), feedback, order);
    StillLeader(DOF, feedback, feedback, order);
  }

  lemma FirstFrameTracks(cfg: Config, st: ArmState, f: Frame, leader: Pose, feedback: Pose)
    requires cfg.Valid() && Inv(cfg, st) && !st.streaming && !st.absStreaming
    requires f.seed == Some(feedback) && |f.positions| == DOF && Values(f.positions) == leader
    requires forall j :: 0 <= j < DOF ==> f.positions[j].Fin?
    ensures Step(cfg, st, Relative(f)) == Track(cfg, Seed(cfg, st, leader, feedback), leader, f, true)
  {
  }

  lemma OpeningInStep(cfg: Config, st: ArmState, ev: ArmEvent, feedback: Pose)
    requires Plain(cfg) && Inv(cfg, st) && !st.streaming && !st.absStreaming
    requires Within(feedback, cfg.minimum, cfg.maximum) && Publishes(ev, feedback, true, feedback)
    ensures var o := Step(cfg, st, ev);
      o.target == Some(feedback) && InStep(o.state, Began(feedback), feedback)
  {
    assert Values(ev.frame.positions) == feedback;
    FirstFrameTracks(cfg, st, ev.frame, feedback, feedback);
    SeedMapsToFeedback(cfg, st, feedback, feedback);
    var open := Seed(cfg, st, feedback, feedback);
    assert HardClamp(cfg, feedback) == feedback;
    assert Near(feedback, feedback, cfg.maxDelta);
    TrackPassesThrough(cfg, open, feedback, ev.frame, feedback, true);
  }

  /** The arm after `k` published targets: idle before the first, afterwards in step with the virtual leader. */
  ghost predicate KeepsUp(cfg: Config, st: ArmState, feedback: Pose, targets: seq<Pose>, k: nat) {
    k <= |targets| &&
    if k == 0 then !st.streaming && !st.absStreaming
    else
      var v := SessionAfter(feedback, targets, cfg.signs, cfg.order, k);
      InStep(st, v, targets[k - 1]) && StandsAt(v, cfg.signs, cfg.order, targets[k - 1])
  }

  lemma FrameKeepsUp(cfg: Config, st: ArmState, ev: ArmEvent, feedback: Pose, targets: seq<Pose>, k: nat)
    requires Plain(cfg) && Inv(cfg, st) && Reachable(cfg, feedback, targets) && k < |targets|
    requires KeepsUp(cfg, st, feedback, targets, k)
    requires Publishes(ev, LeaderFor(targets[k], SessionAfter(feedback, targets, cfg.signs, cfg.order, k), cfg.signs,
                                     cfg.order), k == 0, feedback)
    ensures Step(cfg, st, ev).target == Some(targets[k])
    ensures KeepsUp(cfg, Step(cfg, st, ev).state, feedback, targets, k + 1)
  {
    if k == 0 {
      FirstCommandIsPose(feedback, cfg.signs, cfg.order);
      StandingStill(feedback, cfg.signs, cfg.order);
      OpeningInStep(cfg, st, ev, feedback);
    } else {
      var v := SessionAfter(feedback, targets, cfg.signs, cfg.order, k);
      FrameInStep(cfg, st, v, targets[k - 1], targets[k], ev, feedback);
    }
  }

  lemma {:induction false} StaysInStep(cfg: Config, r: ArmRun, s: nat, feedback: Pose, targets: seq<Pose>, n: nat)
    requires IsRun(cfg, r) && Plain(cfg) && Reachable(cfg, feedback, targets)
    requires PlayedTo(cfg, r, s, feedback, targets) && s <= n <= |r.events|
    ensures KeepsUp(cfg, r.states[n], feedback, targets, Played(r, s, n))
  {
    if s < n {
      var i: nat := n - 1;
      StaysInStep(cfg, r, s, feedback, targets, i);
      StepAt(cfg, r, i);
      assert PlaysAt(cfg, r, s, i, feedback, targets);
      if r.events[i].Relative? {
        FrameKeepsUp(cfg, r.states[i], r.events[i], feedback, targets, Played(r, s, i));
      }
    }
  }

  /** End to end: the driver sends the SDK exactly the policy's targets, frame by frame. */
  lemma PolicyReachesTheSdkExactly(cfg: Config, r: ArmRun, s: nat, feedback: Pose, targets: seq<Pose>, i: nat)
    requires IsRun(cfg, r) && Plain(cfg) && Reachable(cfg, feedback, targets)
    requires PlayedTo(cfg, r, s, feedback, targets) && s <= i < |r.events| && r.events[i].Relative?
    ensures Played(r, s, i) < |targets| && r.outs[i].target == Some(targets[Played(r, s, i)])
  {
    StaysInStep(cfg, r, s, feedback, targets, i);
    StepAt(cfg, r, i);
    assert PlaysAt(cfg, r, s, i, feedback, targets);
    FrameKeepsUp(cfg, r.states[i], r.events[i], feedback, targets, Played(r, s, i));
  }

  /** A timeout check that finds its path idle, or its latest command no older than the timeout, is such an event. */
  lemma TimelyChecksAreQuiet(cfg: Config, r: ArmRun, i: nat)
    requires IsRun(cfg, r) && i < |r.events| && r.events[i].Timeout?
    ensures var ev := r.events[i];
      r.outs[i] == Quiet(r.states[i]) <==>
      !PathStreaming(r.states[i], ev.absolute) || Recent(cfg, r, i, ev.absolute, ev.now)
  {
    CheckHoldsIff(cfg, r, i);
  }
}
