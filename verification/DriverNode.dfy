/** The driver node: two arms that share one SDK core, and the services that act on both. */
module DriverNode {
  import opened Prelude
  import opened ArmModel
  import opened ArmSession
  import opened Controller

  datatype NodeConfig = NodeConfig(left: Config, right: Config) {
    predicate Valid() {
      left.Valid() && right.Valid()
    }

    function Of(side: Side): Config {
      if side == Left then left else right
    }
  }

  datatype NodeState = NodeState(core: CoreState, left: ArmState, right: ArmState) {
    function Of(side: Side): ArmState {
      if side == Left then left else right
    }

    function With(side: Side, arm: ArmState): NodeState {
      if side == Left then this.(left := arm) else this.(right := arm)
    }
  }

  /** What the SDK answers if a timeout check has to hold an arm. */
  datatype HoldInput = HoldInput(replies: Replies, reply: HoldReply)

  datatype NodeEvent =
    | Command(side: Side, absolute: bool, now: real, positions: seq<Double>, seed: Option<Pose>,
              measured: Option<Pose>, sdkOk: bool)
    | Tick(at: real, left: HoldInput, right: HoldInput, leftAbs: HoldInput, rightAbs: HoldInput)
    | SetMode(value: int, replies: Replies)
    | HoldService(replies: Replies, leftReply: HoldReply, rightReply: HoldReply)
    | StopService
    | EmergencyStopService(ok: bool)

  datatype NodeOutcome = NodeOutcome(state: NodeState, calls: seq<SdkCall>)

  ghost predicate NodeInv(cfg: NodeConfig, n: NodeState) {
    CoreInv(n.core) && Inv(cfg.left, n.left) && Inv(cfg.right, n.right)
  }

  function ArmStep(cfg: NodeConfig, n: NodeState, side: Side, ev: ArmEvent): (r: Outcome)
    requires cfg.Valid() && NodeInv(cfg, n)
    ensures NodeInv(cfg, n.With(side, r.state))
  {
    Step(cfg.Of(side), n.Of(side), ev)
  }

  function CommandEvent(n: NodeState, ev: NodeEvent): ArmEvent
    requires ev.Command?
  {
    if ev.absolute then Absolute(FrameFor(n.core, ev.now, ev.positions, ev.seed, None, ev.sdkOk))
    else Relative(FrameFor(n.core, ev.now, ev.positions, ev.seed, ev.measured, ev.sdkOk))
  }

  function TimeoutOn(cfg: NodeConfig, n: NodeState, side: Side, absolute: bool, now: real, h: HoldInput): (r: NodeOutcome)
    requires cfg.Valid() && NodeInv(cfg, n)
    ensures NodeInv(cfg, r.state)
  {
    var o := ArmStep(cfg, n, side, Timeout(now, absolute));
    var ended := n.With(side, o.state);
    if o.hold then
      var held := CoreStep(n.core, OpHoldArm(side, h.replies, h.reply));
      NodeOutcome(ended.(core := held.state), held.calls)
    else NodeOutcome(ended, [])
  }

  /** One path's timeout checks, left arm first. */
  function TimeoutsOn(cfg: NodeConfig, n: NodeState, absolute: bool, now: real, l: HoldInput, r: HoldInput): (o: NodeOutcome)
    requires cfg.Valid() && NodeInv(cfg, n)
    ensures NodeInv(cfg, o.state)
  {
    var a := TimeoutOn(cfg, n, Left, absolute, now, l);
    var b := TimeoutOn(cfg, a.state, Right, absolute, now, r);
    NodeOutcome(b.state, a.calls + b.calls)
  }

  /** The four timeout checks in their order: left, right, left absolute, right absolute. */
  function TickStep(cfg: NodeConfig, n: NodeState, ev: NodeEvent): (r: NodeOutcome)
    requires cfg.Valid() && NodeInv(cfg, n) && ev.Tick?
    ensures NodeInv(cfg, r.state)
  {
    var relative := TimeoutsOn(cfg, n, false, ev.at, ev.left, ev.right);
    var absolute := TimeoutsOn(cfg, relative.state, true, ev.at, ev.leftAbs, ev.rightAbs);
    NodeOutcome(absolute.state, relative.calls + absolute.calls)
  }

  /** Both arms see the same event. */
  function OnBoth(cfg: NodeConfig, n: NodeState, ev: ArmEvent): (r: NodeState)
    requires cfg.Valid() && NodeInv(cfg, n)
    ensures NodeInv(cfg, r)
  {
    NodeState(n.core, ArmStep(cfg, n, Left, ev).state, ArmStep(cfg, n, Right, ev).state)
  }

  /** The core takes a step, and then both arms see the same event. */
  function BothArms(cfg: NodeConfig, n: NodeState, core: CoreOutcome, ev: ArmEvent): (r: NodeOutcome)
    requires cfg.Valid() && NodeInv(cfg, n) && CoreInv(core.state)
    ensures NodeInv(cfg, r.state)
  {
    NodeOutcome(OnBoth(cfg, n.(core := core.state), ev), core.calls)
  }

  function NodeStep(cfg: NodeConfig, n: NodeState, ev: NodeEvent): (r: NodeOutcome)
    requires cfg.Valid() && NodeInv(cfg, n)
    ensures NodeInv(cfg, r.state)
  {
    match ev
    case Command(side, _, _, _, _, _, sdkOk) =>
      var o := ArmStep(cfg, n, side, CommandEvent(n, ev));
      NodeOutcome(n.With(side, o.state), CallsFor(n.core, side, o.target, sdkOk))
    case Tick(_, _, _, _, _) => TickStep(cfg, n, ev)
    case SetMode(value, replies) =>
      var mode := ModeFromInt(value);
      if mode.None? then NodeOutcome(n, [])
      else
        var c := CoreStep(n.core, OpSwitch(mode.value, replies));
        if c.ok then BothArms(cfg, n, c, ModeEntered) else NodeOutcome(n.(core := c.state), c.calls)
    case HoldService(replies, l, r) =>
      var c := CoreStep(n.core, OpHoldBoth(replies, l, r));
      if c.ok then BothArms(cfg, n, c, Reset) else NodeOutcome(n.(core := c.state), c.calls)
    case StopService => BothArms(cfg, n, CoreStep(n.core, OpStop), Reset)
    case EmergencyStopService(ok) => BothArms(cfg, n, CoreStep(n.core, OpEmergencyStop(ok)), Reset)
  }

  /** The node object. Its handlers run one at a time, so each is one step of `NodeStep`. */
  class Node {
    const cfg: NodeConfig
    const core: DriverCore
    const left: Arm
    const right: Arm

    ghost function Repr(): set<object> {
      left.Repr() + right.Repr() + {core}
    }

    ghost predicate Valid()
      reads Repr()
    {
      && cfg.Valid() && left.cfg == cfg.left && right.cfg == cfg.right
      && left.Repr() !! right.Repr()
      && left.Valid() && right.Valid() && CoreInv(core.State())
    }

    ghost function State(): NodeState
      reads Repr()
      requires Valid()
    {
      NodeState(core.State(), left.State(), right.State())
    }

    constructor (cfg: NodeConfig)
      requires cfg.Valid()
      ensures Valid() && State() == NodeState(UNLINKED, INITIAL, INITIAL) && core.log == []
    {
      this.cfg := cfg;
      core := new DriverCore();
      left := new Arm(cfg.left);
      right := new Arm(cfg.right);
    }

    /** A joint-control message on one of the four command topics. */
    method OnCommand(side: Side, absolute: bool, now: real, positions: seq<Double>, seed: Option<Pose>,
                     measured: Option<Pose>, sdkOk: bool)
      requires Valid()
      modifies Repr()
      ensures Valid()
      ensures var r := NodeStep(cfg, old(State()), Command(side, absolute, now, positions, seed, measured, sdkOk));
        State() == r.state && core.log == old(core.log) + r.calls
    {
      if absolute {
        OnAbsolute(side, now, positions, seed, measured, sdkOk);
      } else {
        OnRelative(side, now, positions, seed, measured, sdkOk);
      }
    }

    method OnAbsolute(side: Side, now: real, positions: seq<Double>, seed: Option<Pose>, ghost measured: Option<Pose>,
                      sdkOk: bool)
      requires Valid()
      modifies Repr()
      ensures Valid()
      ensures var r := NodeStep(cfg, old(State()), Command(side, true, now, positions, seed, measured, sdkOk));
        State() == r.state && core.log == old(core.log) + r.calls
    {
      var arm := if side == Left then left else right;
      var _ := arm.HandleAbsoluteCommand(side, core, now, positions, seed, sdkOk);
    }

    method OnRelative(side: Side, now: real, positions: seq<Double>, seed: Option<Pose>, measured: Option<Pose>,
                      sdkOk: bool)
      requires Valid()
      modifies Repr()
      ensures Valid()
      ensures var r := NodeStep(cfg, old(State()), Command(side, false, now, positions, seed, measured, sdkOk));
        State() == r.state && core.log == old(core.log) + r.calls
    {
      var arm := if side == Left then left else right;
      ghost var n := State();
      ghost var ev := CommandEvent(n, Command(side, false, now, positions, seed, measured, sdkOk));
      assert ArmStep(cfg, n, side, ev) == Step(arm.cfg, arm.State(), ev);
      var _ := arm.HandleCommand(side, core, now, positions, seed, measured, sdkOk);
    }

    method CheckTimeout(side: Side, absolute: bool, now: real, h: HoldInput)
      requires Valid()
      modifies Repr()
      ensures Valid()
      ensures var r := TimeoutOn(cfg, old(State()), side, absolute, now, h);
        State() == r.state && core.log == old(core.log) + r.calls
    {
      var arm := if side == Left then left else right;
      ghost var n := State();
      assert ArmStep(cfg, n, side, Timeout(now, absolute)) == Step(arm.cfg, arm.State(), Timeout(now, absolute));
      arm.CheckTimeout(side, core, now, absolute, h.replies, h.reply);
    }

    method CheckCommandTimeout(now: real, l: HoldInput, r: HoldInput, lAbs: HoldInput, rAbs: HoldInput)
      requires Valid()
      modifies Repr()
      ensures Valid()
      ensures var o := NodeStep(cfg, old(State()), Tick(now, l, r, lAbs, rAbs));
        State() == o.state && core.log == old(core.log) + o.calls
    {
      ghost var a := TimeoutsOn(cfg, State(), false, now, l, r);
      CheckTimeouts(false, now, l, r);
      ghost var b := TimeoutsOn(cfg, a.state, true, now, lAbs, rAbs);
      CheckTimeouts(true, now, lAbs, rAbs);
      Regroup(old(core.log), a.calls, b.calls);
    }

    method CheckTimeouts(absolute: bool, now: real, l: HoldInput, r: HoldInput)
      requires Valid()
      modifies Repr()
      ensures Valid()
      ensures var o := TimeoutsOn(cfg, old(State()), absolute, now, l, r);
        State() == o.state && core.log == old(core.log) + o.calls
    {
      ghost var a := TimeoutOn(cfg, State(), Left, absolute, now, l);
      CheckTimeout(Left, absolute, now, l);
      ghost var b := TimeoutOn(cfg, a.state, Right, absolute, now, r);
      CheckTimeout(Right, absolute, now, r);
      Regroup(old(core.log), a.calls, b.calls);
    }

    method HandleSetMode(value: int, replies: Replies) returns (success: bool)
      requires Valid()
      modifies Repr()
      ensures Valid()
      ensures var r := NodeStep(cfg, old(State()), SetMode(value, replies));
        State() == r.state && core.log == old(core.log) + r.calls
    {
      var mode := ModeFromInt(value);
      if mode.None? {
        return false;
      }
      ghost var n := State();
      success := core.SwitchControlMode(mode.value, replies);
      assert State() == n.(core := CoreStep(n.core, OpSwitch(mode.value, replies)).state);
      if success {
        EnterModeOnBoth();
      }
    }

    method EnterModeOnBoth()
      requires Valid()
      modifies left.Repr(), right.Repr()
      ensures Valid() && State() == OnBoth(cfg, old(State()), ModeEntered)
    {
      left.OnModeEntered();
      right.OnModeEntered();
    }

    method ResetAllSessions()
      requires Valid()
      modifies left.Repr(), right.Repr()
      ensures Valid() && State() == OnBoth(cfg, old(State()), Reset)
    {
      left.ResetSessions();
      right.ResetSessions();
    }

    method HandleHoldCurrent(replies: Replies, l: HoldReply, r: HoldReply) returns (success: bool)
      requires Valid()
      modifies Repr()
      ensures Valid()
      ensures var o := NodeStep(cfg, old(State()), HoldService(replies, l, r));
        State() == o.state && core.log == old(core.log) + o.calls
    {
      ghost var n := State();
      success := core.HoldCurrent(replies, l, r);
      assert State() == n.(core := CoreStep(n.core, OpHoldBoth(replies, l, r)).state);
      if success {
        ResetAllSessions();
      }
    }

    method HandleStopMotion() returns (success: bool)
      requires Valid()
      modifies Repr()
      ensures Valid()
      ensures var o := NodeStep(cfg, old(State()), StopService);
        State() == o.state && core.log == old(core.log) + o.calls
    {
      success := core.StopMotion();
      ResetAllSessions();
    }

    method HandleEmergencyStop(reply: bool) returns (success: bool)
      requires Valid()
      modifies Repr()
      ensures Valid()
      ensures var o := NodeStep(cfg, old(State()), EmergencyStopService(reply));
        State() == o.state && core.log == old(core.log) + o.calls
    {
      ghost var n := State();
      success := core.IssueEmergencyStop(reply);
      assert State() == n.(core := CoreStep(n.core, OpEmergencyStop(reply)).state);
      ResetAllSessions();
    }
  }
}
