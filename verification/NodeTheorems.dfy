/** What holds of the whole driver node: silence after a stop, and every arm fact on every node run. */
module NodeTheorems {
  import opened Prelude
  import opened ArmModel
  import opened ArmRuns
  import opened ArmSession
  import opened Controller
  import opened DriverNode

  // ---- Silence after a stop ----

  /** A set_mode request that succeeds in entering a working mode. */
  predicate EntersMode(n: NodeState, ev: NodeEvent) {
    ev.SetMode? && ModeFromInt(ev.value).Some? && EntersWorkingMode(n.core, OpSwitch(ModeFromInt(ev.value).value, ev.replies))
  }

  /** Idle core, and no path of either arm owns it. */
  predicate AtRest(n: NodeState) {
    n.core.mode == Idle && !n.left.streaming && !n.left.absStreaming && !n.right.streaming && !n.right.absStreaming
  }

  lemma IdleTargetsAreSilent(core: CoreState, side: Side, target: Option<Pose>, sdkOk: bool)
    requires core.mode == Idle
    ensures CallsFor(core, side, target, sdkOk) == []
  {
  }

  lemma RefusedFramesOpenNothing(cfg: Config, st: ArmState, ev: ArmEvent)
    requires cfg.Valid() && Inv(cfg, st) && !st.streaming && !st.absStreaming
    requires (ev.Relative? || ev.Absolute?) ==> !ev.frame.accepted
    ensures var o := Step(cfg, st, ev); !o.state.streaming && !o.state.absStreaming && !o.hold
  {
  }

  lemma RestfulTimeout(cfg: NodeConfig, n: NodeState, side: Side, absolute: bool, now: real, h: HoldInput)
    requires cfg.Valid() && NodeInv(cfg, n) && AtRest(n)
    ensures TimeoutOn(cfg, n, side, absolute, now, h) == NodeOutcome(n, [])
  {
  }

  /** At rest, anything but a successful set_mode leaves the node at rest and sends no joint command. */
  lemma RestIsKept(cfg: NodeConfig, n: NodeState, ev: NodeEvent)
    requires cfg.Valid() && NodeInv(cfg, n) && AtRest(n) && !EntersMode(n, ev)
    ensures AtRest(NodeStep(cfg, n, ev).state) && Commandless(NodeStep(cfg, n, ev).calls)
  {
    match ev
    case Command(side, _, _, _, _, _, sdkOk) =>
      RefusedFramesOpenNothing(cfg.Of(side), n.Of(side), CommandEvent(n, ev));
      IdleTargetsAreSilent(n.core, side, ArmStep(cfg, n, side, CommandEvent(n, ev)).target, sdkOk);
    case Tick(at, l, r, la, ra) =>
      RestfulTimeout(cfg, n, Left, false, at, l);
      RestfulTimeout(cfg, n, Right, false, at, r);
      RestfulTimeout(cfg, n, Left, true, at, la);
      RestfulTimeout(cfg, n, Right, true, at, ra);
    case SetMode(value, replies) =>
      if ModeFromInt(value).Some? {
        IdleStepIsSilent(n.core, OpSwitch(ModeFromInt(value).value, replies));
      }
    case HoldService(replies, l, r) =>
      IdleStepIsSilent(n.core, OpHoldBoth(replies, l, r));
    case StopService =>
      IdleStepIsSilent(n.core, OpStop);
    case EmergencyStopService(ok) =>
      IdleStepIsSilent(n.core, OpEmergencyStop(ok));
  }

  /** Final state and all SDK calls of a sequence of events. */
  ghost function NodeRun(cfg: NodeConfig, n: NodeState, evs: seq<NodeEvent>): (r: NodeOutcome)
    requires cfg.Valid() && NodeInv(cfg, n)
    ensures NodeInv(cfg, r.state)
    decreases |evs|
  {
    if evs == [] then NodeOutcome(n, [])
    else
      var first := NodeStep(cfg, n, evs[0]);
      var rest := NodeRun(cfg, first.state, evs[1..]);
      NodeOutcome(rest.state, first.calls + rest.calls)
  }

  ghost predicate NeverEntersMode(cfg: NodeConfig, n: NodeState, evs: seq<NodeEvent>)
    requires cfg.Valid() && NodeInv(cfg, n)
    decreases |evs|
  {
    evs == [] || (!EntersMode(n, evs[0]) && NeverEntersMode(cfg, NodeStep(cfg, n, evs[0]).state, evs[1..]))
  }

  lemma {:induction false} RestIsKeptThroughout(cfg: NodeConfig, n: NodeState, evs: seq<NodeEvent>)
    requires cfg.Valid() && NodeInv(cfg, n) && AtRest(n) && NeverEntersMode(cfg, n, evs)
    ensures AtRest(NodeRun(cfg, n, evs).state) && Commandless(NodeRun(cfg, n, evs).calls)
    decreases |evs|
  {
    if evs != [] {
      RestIsKept(cfg, n, evs[0]);
      RestIsKeptThroughout(cfg, NodeStep(cfg, n, evs[0]).state, evs[1..]);
    }
  }

  /**
   * Once a linked controller has been stopped, no streamed command, hold request or timeout hold reaches the SDK until
   * set_mode enters a working mode.
   */
  lemma SilentUntilModeEntered(cfg: NodeConfig, n: NodeState, stop: NodeEvent, evs: seq<NodeEvent>)
    requires cfg.Valid() && NodeInv(cfg, n) && n.core.linked && (stop.StopService? || stop.EmergencyStopService?)
    requires NeverEntersMode(cfg, NodeStep(cfg, n, stop).state, evs)
    ensures var after := NodeStep(cfg, n, stop);
      Commandless(after.calls) && Commandless(NodeRun(cfg, after.state, evs).calls)
      && AtRest(NodeRun(cfg, after.state, evs).state)
  {
    assert Commandless(PARK);
    RestIsKeptThroughout(cfg, NodeStep(cfg, n, stop).state, evs);
  }

  // ---- Node runs ----

  /** A finite history of a freshly started node: the events, the states around them, and the SDK calls of each. */
  datatype NodeHistory = NodeHistory(events: seq<NodeEvent>, states: seq<NodeState>, calls: seq<seq<SdkCall>>)

  type NodeTrace = t: NodeHistory | |t.states| == |t.events| + 1 && |t.calls| == |t.events|
    witness NodeHistory([], [NodeState(UNLINKED, INITIAL, INITIAL)], [])

  ghost predicate NodeLinked(cfg: NodeConfig, t: NodeTrace, i: int)
    requires cfg.Valid()
  {
    0 <= i < |t.events| &&
    (NodeInv(cfg, t.states[i]) ==> NodeStep(cfg, t.states[i], t.events[i]) == NodeOutcome(t.states[i + 1], t.calls[i]))
  }

  /** Both arms start fresh, whatever state configuring the controller left the core in. */
  ghost predicate IsNodeRun(cfg: NodeConfig, t: NodeTrace) {
    && cfg.Valid() && CoreInv(t.states[0].core) && t.states[0].left == t.states[0].right == INITIAL
    && forall i :: 0 <= i < |t.events| ==> NodeLinked(cfg, t, i)
  }

  lemma {:induction false} AlwaysNodeInv(cfg: NodeConfig, t: NodeTrace, k: nat)
    requires IsNodeRun(cfg, t) && k <= |t.events|
    ensures NodeInv(cfg, t.states[k])
  {
    if k > 0 {
      AlwaysNodeInv(cfg, t, k - 1);
      assert NodeLinked(cfg, t, k - 1);
    }
  }

  /** Event `k` of a node run is a step of the node. */
  lemma NodeStepAt(cfg: NodeConfig, t: NodeTrace, k: nat)
    requires IsNodeRun(cfg, t) && k < |t.events|
    ensures NodeInv(cfg, t.states[k])
    ensures NodeStep(cfg, t.states[k], t.events[k]) == NodeOutcome(t.states[k + 1], t.calls[k])
  {
    AlwaysNodeInv(cfg, t, k);
    assert NodeLinked(cfg, t, k);
  }

  /** Every node run goes on, whatever the next event is. */
  lemma OneMoreNodeEvent(cfg: NodeConfig, t: NodeTrace, ev: NodeEvent) returns (x: NodeTrace)
    requires IsNodeRun(cfg, t)
    ensures IsNodeRun(cfg, x) && x.events == t.events + [ev] && x.states[0] == t.states[0]
  {
    AlwaysNodeInv(cfg, t, |t.events|);
    var o := NodeStep(cfg, t.states[|t.events|], ev);
    x := NodeHistory(t.events + [ev], t.states + [o.state], t.calls + [o.calls]);
    assert NodeLinked(cfg, x, |t.events|);
    forall i | 0 <= i < |t.events|
      ensures NodeLinked(cfg, x, i)
    {
      assert NodeLinked(cfg, t, i);
    }
  }

  lemma {:induction false} EveryNodeInputRuns(cfg: NodeConfig, core: CoreState, evs: seq<NodeEvent>)
    requires cfg.Valid() && CoreInv(core)
    ensures exists t: NodeTrace :: IsNodeRun(cfg, t) && t.events == evs && t.states[0].core == core
  {
    if evs == [] {
      assert IsNodeRun(cfg, NodeHistory([], [NodeState(core, INITIAL, INITIAL)], []));
    } else {
      EveryNodeInputRuns(cfg, core, evs[..|evs| - 1]);
      var t: NodeTrace :| IsNodeRun(cfg, t) && t.events == evs[..|evs| - 1] && t.states[0].core == core;
      var x := OneMoreNodeEvent(cfg, t, evs[|evs| - 1]);
      assert x.events == evs;
    }
  }

  // ---- Arms on node runs ----

  /** The arm events that one node event causes on a side. */
  ghost function Seen(n: NodeState, ev: NodeEvent, side: Side): seq<ArmEvent> {
    match ev
    case Command(s, _, _, _, _, _, _) => if s == side then [CommandEvent(n, ev)] else []
    case Tick(at, _, _, _, _) => [Timeout(at, false), Timeout(at, true)]
    case SetMode(value, replies) =>
      var mode := ModeFromInt(value);
      if mode.Some? && CoreStep(n.core, OpSwitch(mode.value, replies)).ok then [ModeEntered] else []
    case HoldService(replies, l, r) => if CoreStep(n.core, OpHoldBoth(replies, l, r)).ok then [Reset] else []
    case StopService => [Reset]
    case EmergencyStopService(_) => [Reset]
  }

  lemma TickOnArm(cfg: NodeConfig, n: NodeState, ev: NodeEvent, side: Side)
    requires cfg.Valid() && NodeInv(cfg, n) && ev.Tick?
    ensures var one := Step(cfg.Of(side), n.Of(side), Timeout(ev.at, false)).state;
      TickStep(cfg, n, ev).state.Of(side) == Step(cfg.Of(side), one, Timeout(ev.at, true)).state
  {
  }

  /** All arm events that the first `k` node events cause on a side. */
  ghost function AllSeen(t: NodeTrace, k: nat, side: Side): seq<ArmEvent>
    requires k <= |t.events|
  {
    if k == 0 then [] else AllSeen(t, k - 1, side) + Seen(t.states[k - 1], t.events[k - 1], side)
  }

  predicate CommandsArm(ev: NodeEvent, side: Side) {
    ev.Command? && ev.side == side
  }

  /** Before node event `j` the arm is in the run's state, and a command of event `j` is the run's next outcome. */
  ghost predicate MirrorsAt(t: NodeTrace, j: nat, side: Side, r: ArmRun)
    requires j < |t.events|
  {
    var i, n, ev := |AllSeen(t, j, side)|, t.states[j], t.events[j];
    && i <= |r.events| && r.states[i] == n.Of(side)
    && (CommandsArm(ev, side) ==>
          && i < |r.events| && r.events[i] == CommandEvent(n, ev)
          && t.calls[j] == CallsFor(n.core, side, r.outs[i].target, ev.sdkOk))
  }

  /** An arm run with the events, states and commanded targets that a node run has on one side. */
  ghost predicate Mirrors(cfg: NodeConfig, t: NodeTrace, k: nat, side: Side, r: ArmRun)
    requires k <= |t.events|
  {
    && IsRun(cfg.Of(side), r) && r.events == AllSeen(t, k, side) && Last(r) == t.states[k].Of(side)
    && forall j :: 0 <= j < k ==> MirrorsAt(t, j, side, r)
  }

  lemma StepOnArm(cfg: NodeConfig, n: NodeState, ev: NodeEvent, side: Side, r: ArmRun) returns (x: ArmRun)
    requires cfg.Valid() && NodeInv(cfg, n) && IsRun(cfg.Of(side), r) && n.Of(side) == Last(r)
    ensures IsRun(cfg.Of(side), x) && Prolongs(x, r) && x.events == r.events + Seen(n, ev, side)
    ensures Last(x) == NodeStep(cfg, n, ev).state.Of(side)
    ensures CommandsArm(ev, side) ==>
      NodeStep(cfg, n, ev).calls == CallsFor(n.core, side, x.outs[|r.events|].target, ev.sdkOk)
  {
    var c, seen := cfg.Of(side), Seen(n, ev, side);
    x := r;
    if ev.Tick? {
      TickOnArm(cfg, n, ev, side);
      x := OneMoreEvent(c, x, Timeout(ev.at, false));
      x := OneMoreEvent(c, x, Timeout(ev.at, true));
    } else if seen != [] {
      x := OneMoreEvent(c, x, seen[0]);
    }
  }

  lemma MirrorsNext(cfg: NodeConfig, t: NodeTrace, k: nat, side: Side, r: ArmRun) returns (x: ArmRun)
    requires IsNodeRun(cfg, t) && k < |t.events| && Mirrors(cfg, t, k, side, r)
    ensures Mirrors(cfg, t, k + 1, side, x)
  {
    NodeStepAt(cfg, t, k);
    x := StepOnArm(cfg, t.states[k], t.events[k], side, r);
    forall j: nat | j <= k
      ensures MirrorsAt(t, j, side, x)
    {
      assert j < k ==> MirrorsAt(t, j, side, r);
    }
  }

  /**
   * Every arm of a node run is an arm run with the same events, states and targets: what holds of all runs and sessions
   * of an arm holds of both arms of the node, and of the commands that they send.
   */
  lemma {:induction false} NodeRunIsArmRun(cfg: NodeConfig, t: NodeTrace, k: nat, side: Side)
    requires IsNodeRun(cfg, t) && k <= |t.events|
    ensures exists r: ArmRun :: Mirrors(cfg, t, k, side, r)
  {
    if k == 0 {
      var r := ArmHistory([], [INITIAL], []);
      assert Mirrors(cfg, t, 0, side, r);
    } else {
      NodeRunIsArmRun(cfg, t, k - 1, side);
      var r: ArmRun :| Mirrors(cfg, t, k - 1, side, r);
      var x := MirrorsNext(cfg, t, k - 1, side, r);
    }
  }

  // ---- Limits and slew of the node's commands ----

  lemma SentCallsAreTargets(core: CoreState, side: Side, target: Option<Pose>, sdkOk: bool, call: SdkCall)
    requires call in CallsFor(core, side, target, sdkOk)
    ensures target.Some? && call.JointCommand? && call.side == side && call.target == target.value && CommandAllowed(core)
  {
  }

  /** Every joint command that a message causes is its own arm's, in that arm's limits, on a ready core. */
  lemma StreamedCommandsAreSafe(cfg: NodeConfig, n: NodeState, ev: NodeEvent, call: SdkCall)
    requires cfg.Valid() && NodeInv(cfg, n) && ev.Command? && call in NodeStep(cfg, n, ev).calls
    ensures call.JointCommand? && call.side == ev.side && CommandAllowed(n.core)
    ensures Within(call.target, cfg.Of(ev.side).minimum, cfg.Of(ev.side).maximum)
  {
    SentCallsAreTargets(n.core, ev.side, ArmStep(cfg, n, ev.side, CommandEvent(n, ev)).target, ev.sdkOk, call);
  }

  /** The event sends one command to an arm over a path, and the SDK takes it. */
  predicate Delivers(ev: NodeEvent, calls: seq<SdkCall>, side: Side, absolute: bool) {
    CommandsArm(ev, side) && ev.absolute == absolute && ev.sdkOk && |calls| == 1 && calls[0].JointCommand?
  }

  /** The latest joint command that the SDK took for an arm over a path. */
  function LastCall(t: NodeTrace, k: nat, side: Side, absolute: bool): Option<Pose>
    requires k <= |t.events|
  {
    if k == 0 then None
    else if Delivers(t.events[k - 1], t.calls[k - 1], side, absolute) then Some(t.calls[k - 1][0].target)
    else LastCall(t, k - 1, side, absolute)
  }

  /** A path that streams after steps of an arm without a delivery streamed before, with the same last command. */
  predicate Remembers(st: ArmState, next: ArmState) {
    && (next.streaming ==> st.streaming && next.lastCommand == st.lastCommand)
    && (next.absStreaming ==> st.absStreaming && next.absLast == st.absLast)
  }

  lemma EventRemembers(cfg: NodeConfig, n: NodeState, ev: NodeEvent, side: Side)
    requires cfg.Valid() && NodeInv(cfg, n) && !CommandsArm(ev, side)
    ensures Remembers(n.Of(side), NodeStep(cfg, n, ev).state.Of(side))
  {
    var c, st := cfg.Of(side), n.Of(side);
    if ev.Tick? {
      TickOnArm(cfg, n, ev, side);
      StepRemembers(c, st, Timeout(ev.at, false));
      StepRemembers(c, Step(c, st, Timeout(ev.at, false)).state, Timeout(ev.at, true));
    } else if Seen(n, ev, side) != [] {
      StepRemembers(c, st, Seen(n, ev, side)[0]);
    }
  }

  /** The SDK takes a command exactly when the arm's step counts it as sent. */
  lemma DeliveredIsSent(n: NodeState, ev: NodeEvent, o: Outcome, absolute: bool)
    requires ev.Command?
    ensures var calls := CallsFor(n.core, ev.side, o.target, ev.sdkOk);
      && (Delivers(ev, calls, ev.side, absolute) <==> Sends(CommandEvent(n, ev), o, absolute))
      && (Delivers(ev, calls, ev.side, absolute) ==> o.target == Some(calls[0].target))
  {
  }

  lemma CommandRemembers(cfg: NodeConfig, n: NodeState, ev: NodeEvent)
    requires cfg.Valid() && NodeInv(cfg, n) && ev.Command?
    ensures var st, next, calls := n.Of(ev.side), NodeStep(cfg, n, ev).state.Of(ev.side), NodeStep(cfg, n, ev).calls;
      && (next.streaming ==>
            if Delivers(ev, calls, ev.side, false) then next.lastCommand == Some(calls[0].target)
            else st.streaming && next.lastCommand == st.lastCommand)
      && (next.absStreaming ==>
            if Delivers(ev, calls, ev.side, true) then next.absLast == Some(calls[0].target)
            else st.absStreaming && next.absLast == st.absLast)
  {
    var o := ArmStep(cfg, n, ev.side, CommandEvent(n, ev));
    assert NodeStep(cfg, n, ev) == NodeOutcome(n.With(ev.side, o.state), CallsFor(n.core, ev.side, o.target, ev.sdkOk));
    DeliveredIsSent(n, ev, o, false);
    DeliveredIsSent(n, ev, o, true);
    StepRemembers(cfg.Of(ev.side), n.Of(ev.side), CommandEvent(n, ev));
  }

  lemma {:induction false} StreamingRemembersLastCall(cfg: NodeConfig, t: NodeTrace, k: nat, side: Side)
    requires IsNodeRun(cfg, t) && k <= |t.events|
    ensures var st := t.states[k].Of(side);
      && (st.streaming ==> LastCall(t, k, side, false) == st.lastCommand)
      && (st.absStreaming ==> LastCall(t, k, side, true) == st.absLast)
  {
    if k > 0 {
      StreamingRemembersLastCall(cfg, t, k - 1, side);
      NodeStepAt(cfg, t, k - 1);
      if CommandsArm(t.events[k - 1], side) {
        CommandRemembers(cfg, t.states[k - 1], t.events[k - 1]);
      } else {
        EventRemembers(cfg, t.states[k - 1], t.events[k - 1], side);
      }
    }
  }

  lemma CommandKeepsSlew(cfg: NodeConfig, n: NodeState, ev: NodeEvent, call: SdkCall)
    requires cfg.Valid() && NodeInv(cfg, n) && ev.Command? && call in NodeStep(cfg, n, ev).calls && call.JointCommand?
    ensures var c, st := cfg.Of(ev.side), n.Of(ev.side);
      var last := if ev.absolute then st.absLast else st.lastCommand;
      var base := SlewBase(c, last, PathStreaming(st, ev.absolute), ev.seed);
      base.Some? && Near(call.target, base.value, c.maxDelta)
  {
    var c, st, f := cfg.Of(ev.side), n.Of(ev.side), CommandEvent(n, ev).frame;
    SentCallsAreTargets(n.core, ev.side, ArmStep(cfg, n, ev.side, CommandEvent(n, ev)).target, ev.sdkOk, call);
    if ev.absolute {
      AbsoluteTargetIsSafe(c, st, f);
    } else {
      RelativeTargetIsSafe(c, st, f);
    }
  }

  /**
   * In every node run, each joint command that a message causes moves its arm by at most the slew limit: within a session
   * from the latest command that the SDK took for that arm over that path, else from the clamped measured pose.
   */
  lemma StreamedCommandsKeepSlew(cfg: NodeConfig, t: NodeTrace, k: nat, call: SdkCall)
    requires IsNodeRun(cfg, t) && k < |t.events| && t.events[k].Command? && call in t.calls[k]
    ensures var ev := t.events[k]; var c := cfg.Of(ev.side);
      var streaming := PathStreaming(t.states[k].Of(ev.side), ev.absolute);
      var base := SlewBase(c, LastCall(t, k, ev.side, ev.absolute), streaming, ev.seed);
      && call.JointCommand? && call.side == ev.side && Within(call.target, c.minimum, c.maximum)
      && base.Some? && Near(call.target, base.value, c.maxDelta)
  {
    NodeStepAt(cfg, t, k);
    StreamedCommandsAreSafe(cfg, t.states[k], t.events[k], call);
    StreamingRemembersLastCall(cfg, t, k, t.events[k].side);
    CommandKeepsSlew(cfg, t.states[k], t.events[k], call);
  }

  /** In a node run no timeout ever finds the other path of its arm active. */
  lemma NoTimeoutDefersToOtherPath(cfg: NodeConfig, t: NodeTrace, k: nat, side: Side, absolute: bool, now: real)
    requires IsNodeRun(cfg, t) && k <= |t.events|
    ensures var st := t.states[k].Of(side);
      PathStreaming(st, absolute) ==> !PathActive(cfg.Of(side), st, !absolute, now)
  {
    AlwaysNodeInv(cfg, t, k);
  }
}
