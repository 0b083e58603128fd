/** The linked / ready / mode state machine around the vendor SDK, and what it sends to the SDK. */
module Controller {
  import opened Prelude

  datatype Side = Left | Right

  datatype Mode = Idle | Position | ImpJoint | ImpCart | Pd

  function ModeFromInt(value: int): Option<Mode> {
    match value
    case 0 => Some(Idle)
    case 1 => Some(Position)
    case 2 => Some(ImpJoint)
    case 3 => Some(ImpCart)
    case 11 => Some(Pd)
    case _ => None
  }

  datatype SdkCall =
    | Link
    | Unlink
    | PdCycleTime(ms: int)
    | ResetError(side: Side)
    | ToIdle(side: Side)
    | ToMode(side: Side, mode: Mode)
    | SpeedRatio(side: Side)
    | JointCommand(side: Side, target: Pose, pd: bool)
    | StopTrajectory
    | EmergencyStop

  datatype CoreState = CoreState(linked: bool, ready: bool, mode: Mode)

  const UNLINKED: CoreState := CoreState(false, false, ImpJoint)

  /** What the controller is configured with; `Valid` is the check on ratios and cycle time. */
  datatype ConnectConfig =
    ConnectConfig(mode: Mode, leftVelocity: int, leftAcceleration: int, rightVelocity: int, rightAcceleration: int,
                  cycleMs: int)
  {
    predicate Valid() {
      && 1 <= leftVelocity <= 100 && 1 <= leftAcceleration <= 100
      && 1 <= rightVelocity <= 100 && 1 <= rightAcceleration <= 100 && cycleMs > 0
    }
  }

  /** What the SDK answers to the four fallible calls of a mode switch. */
  datatype Replies = Replies(left: bool, right: bool, leftSpeed: bool, rightSpeed: bool)

  /** One arm's feedback read inside hold_current and the SDK's answer to the command made from it. */
  datatype HoldReply = HoldReply(feedback: Option<Pose>, accepted: bool)

  datatype CoreOp =
    | OpLink(ok: bool)
    | OpConfigure(config: ConnectConfig, first: Replies, second: Replies)
    | OpSwitch(mode: Mode, replies: Replies)
    | OpHoldArm(side: Side, replies: Replies, reply: HoldReply)
    | OpHoldBoth(replies: Replies, leftReply: HoldReply, rightReply: HoldReply)
    | OpStop
    | OpEmergencyStop(ok: bool)
    | OpSend(side: Side, target: Pose, accepted: bool)
    | OpShutdown

  datatype CoreOutcome = CoreOutcome(state: CoreState, ok: bool, calls: seq<SdkCall>)

  const PARK: seq<SdkCall> := [ToIdle(Left), ToIdle(Right)]

  const RESET_ERRORS: seq<SdkCall> := [ResetError(Left), ResetError(Right)]

  const DISCONNECT: seq<SdkCall> := [StopTrajectory] + PARK + [Unlink]

  predicate Commandless(calls: seq<SdkCall>) {
    forall i :: 0 <= i < |calls| ==> !calls[i].JointCommand?
  }

  predicate Entered(mode: Mode, r: Replies) {
    mode == Idle || (r.left && r.right && r.leftSpeed && r.rightSpeed)
  }

  /** Left before right, modes before speeds, up to the first call the SDK refuses. */
  function SwitchCalls(mode: Mode, r: Replies): (calls: seq<SdkCall>)
    ensures Commandless(calls)
  {
    if !r.left then [ToMode(Left, mode)]
    else if !r.right then [ToMode(Left, mode), ToMode(Right, mode)]
    else if !r.leftSpeed then [ToMode(Left, mode), ToMode(Right, mode), SpeedRatio(Left)]
    else [ToMode(Left, mode), ToMode(Right, mode), SpeedRatio(Left), SpeedRatio(Right)]
  }

  function EntryCalls(mode: Mode, r: Replies): (calls: seq<SdkCall>)
    ensures Commandless(calls)
  {
    PARK + if mode == Idle then [] else SwitchCalls(mode, r)
  }

  /** Both arms are parked in idle first; a failed switch leaves mode and readiness as they were. */
  function EnterMode(st: CoreState, mode: Mode, r: Replies): CoreOutcome {
    CoreOutcome(if Entered(mode, r) then st.(mode := mode, ready := mode != Idle) else st,
                Entered(mode, r), EntryCalls(mode, r))
  }

  /** The position command of the current mode; idle sends nothing. */
  function SendUnlocked(st: CoreState, side: Side, target: Pose, accepted: bool): CoreOutcome {
    if st.mode == Idle then CoreOutcome(st, false, [])
    else CoreOutcome(st, accepted, [JointCommand(side, target, st.mode == Pd)])
  }

  function HoldUnlocked(st: CoreState, side: Side, h: HoldReply): CoreOutcome {
    match h.feedback
    case None => CoreOutcome(st, false, [])
    case Some(pose) => SendUnlocked(st, side, pose, h.accepted)
  }

  predicate CommandAllowed(st: CoreState) {
    st.linked && st.ready && st.mode != Idle
  }

  function Send(st: CoreState, side: Side, target: Pose, accepted: bool): CoreOutcome {
    if CommandAllowed(st) then SendUnlocked(st, side, target, accepted) else CoreOutcome(st, false, [])
  }

  /** The mode re-entry that precedes a hold when the core is not ready. */
  function ReadyToHold(st: CoreState, r: Replies): CoreOutcome {
    if !st.linked || st.mode == Idle then CoreOutcome(st, false, [])
    else if st.ready then CoreOutcome(st, true, [])
    else EnterMode(st, st.mode, r)
  }

  function HoldArm(st: CoreState, side: Side, r: Replies, h: HoldReply): CoreOutcome {
    var entry := ReadyToHold(st, r);
    if !entry.ok then entry
    else
      var sent := HoldUnlocked(entry.state, side, h);
      CoreOutcome(if sent.ok then sent.state.(ready := true) else sent.state, sent.ok, entry.calls + sent.calls)
  }

  function HoldBoth(st: CoreState, r: Replies, left: HoldReply, right: HoldReply): CoreOutcome {
    var entry := ReadyToHold(st, r);
    if !entry.ok then entry
    else
      var l := HoldUnlocked(entry.state, Left, left);
      var rt := HoldUnlocked(entry.state, Right, right);
      var ok := l.ok && rt.ok;
      CoreOutcome(if ok then entry.state.(ready := true) else entry.state, ok, entry.calls + l.calls + rt.calls)
  }

  /** Clear the SDK's errors, then enter the mode. */
  function Attempt(st: CoreState, mode: Mode, r: Replies): CoreOutcome {
    var entry := EnterMode(st, mode, r);
    CoreOutcome(entry.state, entry.ok, RESET_ERRORS + entry.calls)
  }

  function Switch(st: CoreState, mode: Mode, r: Replies): CoreOutcome {
    if !st.linked then CoreOutcome(st, false, [])
    else
      var entry := Attempt(st, mode, r);
      CoreOutcome(if entry.ok then entry.state else entry.state.(ready := false), entry.ok, entry.calls)
  }

  function Retry(st: CoreState, mode: Mode, r: Replies): CoreOutcome {
    var entry := Attempt(st, mode, r);
    if entry.ok then entry
    else CoreOutcome(entry.state.(ready := false, linked := false), false, entry.calls + DISCONNECT)
  }

  /** One entry of the configured mode and, should it fail, another; a second failure unlinks the controller. */
  function EnterConfigured(st: CoreState, mode: Mode, first: Replies, second: Replies): CoreOutcome {
    var one := Attempt(st, mode, first);
    if one.ok then one
    else
      var two := Retry(one.state, mode, second);
      CoreOutcome(two.state, two.ok, one.calls + two.calls)
  }

  /** Set the command cycle time, whose refusal is ignored, and enter the configured mode. */
  function Configure(st: CoreState, config: ConnectConfig, first: Replies, second: Replies): CoreOutcome {
    if !config.Valid() || !st.linked then CoreOutcome(st, false, [])
    else
      var entry := EnterConfigured(st, config.mode, first, second);
      CoreOutcome(entry.state, entry.ok, [PdCycleTime(config.cycleMs)] + entry.calls)
  }

  function CoreStep(st: CoreState, op: CoreOp): CoreOutcome {
    match op
    case OpLink(ok) =>
      if st.linked then CoreOutcome(st, true, []) else CoreOutcome(st.(linked := ok), ok, [Link])
    case OpConfigure(config, first, second) => Configure(st, config, first, second)
    case OpSwitch(mode, r) => Switch(st, mode, r)
    case OpHoldArm(side, r, h) => HoldArm(st, side, r, h)
    case OpHoldBoth(r, left, right) => HoldBoth(st, r, left, right)
    case OpStop =>
      if !st.linked then CoreOutcome(st, false, [])
      else CoreOutcome(st.(mode := Idle, ready := false), true, [StopTrajectory] + PARK)
    case OpEmergencyStop(ok) =>
      if !st.linked then CoreOutcome(st, false, [])
      else CoreOutcome(st.(mode := Idle, ready := false), ok, [EmergencyStop])
    case OpSend(side, target, accepted) => Send(st, side, target, accepted)
    case OpShutdown =>
      CoreOutcome(CoreState(false, false, Idle), true,
                  if st.linked then DISCONNECT else [])
  }

  function CoreRun(st: CoreState, ops: seq<CoreOp>): CoreOutcome
    decreases |ops|
  {
    if ops == [] then CoreOutcome(st, true, [])
    else
      var first := CoreStep(st, ops[0]);
      var rest := CoreRun(first.state, ops[1..]);
      CoreOutcome(rest.state, rest.ok, first.calls + rest.calls)
  }

  /** "Ready" is only ever claimed on a linked controller in a working mode. */
  predicate CoreInv(st: CoreState) {
    st.ready ==> st.linked && st.mode != Idle
  }

  lemma {:induction false} ReadyMeansLinkedAndWorking(st: CoreState, ops: seq<CoreOp>)
    requires CoreInv(st)
    ensures CoreInv(CoreRun(st, ops).state)
    decreases |ops|
  {
    if ops != [] {
      ReadyMeansLinkedAndWorking(CoreStep(st, ops[0]).state, ops[1..]);
    }
  }

  /** The operation enters a working mode: a successful set_mode or configure. */
  predicate EntersWorkingMode(st: CoreState, op: CoreOp) {
    ((op.OpSwitch? && op.mode != Idle) || (op.OpConfigure? && op.config.mode != Idle)) && CoreStep(st, op).ok
  }

  predicate NoModeEntered(st: CoreState, ops: seq<CoreOp>)
    decreases |ops|
  {
    ops == [] || (!EntersWorkingMode(st, ops[0]) && NoModeEntered(CoreStep(st, ops[0]).state, ops[1..]))
  }

  lemma IdleStepIsSilent(st: CoreState, op: CoreOp)
    requires st.mode == Idle && !EntersWorkingMode(st, op)
    ensures CoreStep(st, op).state.mode == Idle && Commandless(CoreStep(st, op).calls)
  {
    assert Commandless(PARK) && Commandless(RESET_ERRORS) && Commandless(DISCONNECT);
  }

  lemma {:induction false} IdleStaysSilent(st: CoreState, ops: seq<CoreOp>)
    requires st.mode == Idle && NoModeEntered(st, ops)
    ensures CoreRun(st, ops).state.mode == Idle
    ensures Commandless(CoreRun(st, ops).calls)
    decreases |ops|
  {
    if ops != [] {
      IdleStepIsSilent(st, ops[0]);
      IdleStaysSilent(CoreStep(st, ops[0]).state, ops[1..]);
    }
  }

  /** After a stop on a linked controller nothing moves the arms until a working mode is entered again. */
  lemma SilentAfterStop(st: CoreState, stop: CoreOp, ops: seq<CoreOp>)
    requires st.linked && (stop.OpStop? || stop.OpEmergencyStop?)
    requires NoModeEntered(CoreStep(st, stop).state, ops)
    ensures Commandless(CoreRun(st, [stop] + ops).calls)
    ensures !CommandAllowed(CoreRun(st, [stop] + ops).state)
  {
    assert ([stop] + ops)[1..] == ops;
    IdleStaysSilent(CoreStep(st, stop).state, ops);
  }

  /** Conversely, every joint command leaves a linked controller that was not idle. */
  lemma CommandsComeFromAWorkingMode(st: CoreState, op: CoreOp)
    ensures !Commandless(CoreStep(st, op).calls) ==>
      st.linked && st.mode != Idle && (op.OpSend? ==> st.ready && op.target == CoreStep(st, op).calls[0].target)
  {
    assert Commandless(PARK) && Commandless(RESET_ERRORS) && Commandless(DISCONNECT);
  }

  lemma Regroup(a: seq<SdkCall>, b: seq<SdkCall>, c: seq<SdkCall>)
    ensures a + b + c == a + (b + c)
  {
  }

  /** The object that owns the SDK; `log` records every SDK call in order. */
  class DriverCore {
    var linked: bool
    var ready: bool
    var mode: Mode
    ghost var log: seq<SdkCall>

    function State(): CoreState
      reads this
    {
      CoreState(linked, ready, mode)
    }

    constructor ()
      ensures State() == UNLINKED && log == []
    {
      linked, ready, mode, log := false, false, ImpJoint, [];
    }

    method Tell(ghost call: SdkCall)
      modifies this`log
      ensures log == old(log) + [call]
    {
      log := log + [call];
    }

    method LinkController(reply: bool) returns (ok: bool)
      modifies this
      ensures var r := CoreStep(old(State()), OpLink(reply));
        State() == r.state && ok == r.ok && log == old(log) + r.calls
    {
      if linked {
        return true;
      }
      Tell(Link);
      linked := reply;
      ok := reply;
    }

    method ResetErrors()
      modifies this`log
      ensures log == old(log) + RESET_ERRORS
    {
      Tell(ResetError(Left));
      Tell(ResetError(Right));
    }

    method Park()
      modifies this`log
      ensures log == old(log) + PARK
    {
      Tell(ToIdle(Left));
      Tell(ToIdle(Right));
    }

    method EnterModeUnlocked(target: Mode, r: Replies) returns (ok: bool)
      modifies this
      ensures var e := EnterMode(old(State()), target, r);
        State() == e.state && ok == e.ok && log == old(log) + e.calls
    {
      Park();
      if target == Idle {
        mode, ready := Idle, false;
        return true;
      }
      ok := SwitchArms(target, r);
      if ok {
        mode, ready := target, true;
      }
    }

    method SwitchArms(target: Mode, r: Replies) returns (ok: bool)
      requires target != Idle
      modifies this`log
      ensures ok == Entered(target, r) && log == old(log) + SwitchCalls(target, r)
    {
      Tell(ToMode(Left, target));
      if !r.left {
        return false;
      }
      Tell(ToMode(Right, target));
      if !r.right {
        return false;
      }
      Tell(SpeedRatio(Left));
      if !r.leftSpeed {
        return false;
      }
      Tell(SpeedRatio(Right));
      return r.rightSpeed;
    }

    method SwitchControlMode(target: Mode, r: Replies) returns (ok: bool)
      modifies this
      ensures var e := CoreStep(old(State()), OpSwitch(target, r));
        State() == e.state && ok == e.ok && log == old(log) + e.calls
    {
      if !linked {
        return false;
      }
      ok := ResetAndEnter(target, r);
      if !ok {
        ready := false;
      }
    }

    method ConfigureAndEnable(config: ConnectConfig, first: Replies, second: Replies) returns (ok: bool)
      modifies this
      ensures var e := CoreStep(old(State()), OpConfigure(config, first, second));
        State() == e.state && ok == e.ok && log == old(log) + e.calls
    {
      if !config.Valid() || !linked {
        return false;
      }
      Tell(PdCycleTime(config.cycleMs));
      Regroup(old(log), [PdCycleTime(config.cycleMs)], EnterConfigured(State(), config.mode, first, second).calls);
      ok := EnterWithRetry(config.mode, first, second);
    }

    method EnterWithRetry(target: Mode, first: Replies, second: Replies) returns (ok: bool)
      modifies this
      ensures var e := EnterConfigured(old(State()), target, first, second);
        State() == e.state && ok == e.ok && log == old(log) + e.calls
    {
      ghost var one := Attempt(State(), target, first);
      ok := ResetAndEnter(target, first);
      if !ok {
        ghost var two := Retry(one.state, target, second);
        ok := RetryOrDisconnect(target, second);
        Regroup(old(log), one.calls, two.calls);
      }
    }

    method RetryOrDisconnect(target: Mode, r: Replies) returns (ok: bool)
      modifies this
      ensures var e := Retry(old(State()), target, r);
        State() == e.state && ok == e.ok && log == old(log) + e.calls
    {
      ok := ResetAndEnter(target, r);
      if !ok {
        FailAndDisconnect();
      }
    }

    method ResetAndEnter(target: Mode, r: Replies) returns (ok: bool)
      modifies this
      ensures var e := Attempt(old(State()), target, r);
        State() == e.state && ok == e.ok && log == old(log) + e.calls
    {
      ResetErrors();
      ok := EnterModeUnlocked(target, r);
    }

    method FailAndDisconnect()
      modifies this
      ensures State() == old(State()).(ready := false, linked := false)
      ensures log == old(log) + DISCONNECT
    {
      ready := false;
      Tell(StopTrajectory);
      Park();
      Tell(Unlink);
      linked := false;
    }

    method SendPositionUnlocked(side: Side, target: Pose, accepted: bool) returns (ok: bool)
      modifies this`log
      ensures var e := SendUnlocked(old(State()), side, target, accepted);
        ok == e.ok && log == old(log) + e.calls
    {
      if mode == Idle {
        return false;
      }
      Tell(JointCommand(side, target, mode == Pd));
      return accepted;
    }

    method SendPosition(side: Side, target: Pose, accepted: bool) returns (ok: bool)
      modifies this`log
      ensures var e := CoreStep(old(State()), OpSend(side, target, accepted));
        State() == e.state && ok == e.ok && log == old(log) + e.calls
    {
      if !linked || !ready || mode == Idle {
        return false;
      }
      ok := SendPositionUnlocked(side, target, accepted);
    }

    method HoldCurrentArmUnlocked(side: Side, h: HoldReply) returns (ok: bool)
      modifies this`log
      ensures var e := HoldUnlocked(old(State()), side, h);
        ok == e.ok && log == old(log) + e.calls
    {
      if h.feedback.None? {
        return false;
      }
      ok := SendPositionUnlocked(side, h.feedback.value, h.accepted);
    }

    method HoldCurrentArm(side: Side, r: Replies, h: HoldReply) returns (ok: bool)
      modifies this
      ensures var e := CoreStep(old(State()), OpHoldArm(side, r, h));
        State() == e.state && ok == e.ok && log == old(log) + e.calls
    {
      if !linked || mode == Idle {
        return false;
      }
      if !ready {
        var entered := EnterModeUnlocked(mode, r);
        if !entered {
          return false;
        }
      }
      ok := HoldCurrentArmUnlocked(side, h);
      if ok {
        ready := true;
      }
    }

    method HoldCurrent(r: Replies, left: HoldReply, right: HoldReply) returns (ok: bool)
      modifies this
      ensures var e := CoreStep(old(State()), OpHoldBoth(r, left, right));
        State() == e.state && ok == e.ok && log == old(log) + e.calls
    {
      if !linked || mode == Idle {
        return false;
      }
      if !ready {
        var entered := EnterModeUnlocked(mode, r);
        if !entered {
          return false;
        }
      }
      var leftOk := HoldCurrentArmUnlocked(Left, left);
      var rightOk := HoldCurrentArmUnlocked(Right, right);
      ok := leftOk && rightOk;
      if ok {
        ready := true;
      }
    }

    method StopMotion() returns (ok: bool)
      modifies this
      ensures var e := CoreStep(old(State()), OpStop);
        State() == e.state && ok == e.ok && log == old(log) + e.calls
    {
      if !linked {
        return false;
      }
      Tell(StopTrajectory);
      Park();
      mode, ready := Idle, false;
      return true;
    }

    method IssueEmergencyStop(reply: bool) returns (ok: bool)
      modifies this
      ensures var e := CoreStep(old(State()), OpEmergencyStop(reply));
        State() == e.state && ok == e.ok && log == old(log) + e.calls
    {
      if !linked {
        return false;
      }
      Tell(EmergencyStop);
      mode, ready := Idle, false;
      return reply;
    }

    method Shutdown()
      modifies this
      ensures var e := CoreStep(old(State()), OpShutdown);
        State() == e.state && log == old(log) + e.calls
    {
      ready, mode := false, Idle;
      if linked {
        Tell(StopTrajectory);
        Park();
        Tell(Unlink);
        linked := false;
      }
    }
  }
}
