/** Exactly what each operation of the core sends to the SDK, and what it makes of linked, ready and mode. */
module CoreTheorems {
  import opened Prelude
  import opened Controller

  // ---- Joint commands ----

  /** The joint commands among SDK calls, in order. */
  function Commands(calls: seq<SdkCall>): seq<SdkCall> {
    if calls == [] then []
    else (if calls[0].JointCommand? then [calls[0]] else []) + Commands(calls[1..])
  }

  lemma {:induction false} CommandsConcat(a: seq<SdkCall>, b: seq<SdkCall>)
    ensures Commands(a + b) == Commands(a) + Commands(b)
    decreases |a|
  {
    if a == [] {
      assert a + b == b;
    } else {
      assert (a + b)[1..] == a[1..] + b;
      CommandsConcat(a[1..], b);
    }
  }

  lemma {:induction false} CommandlessHasNone(calls: seq<SdkCall>)
    requires Commandless(calls)
    ensures Commands(calls) == []
  {
    if calls != [] {
      CommandlessHasNone(calls[1..]);
    }
  }

  lemma {:induction false} CommandsSelect(calls: seq<SdkCall>, call: SdkCall)
    ensures call in Commands(calls) <==> call in calls && call.JointCommand?
  {
    if calls != [] {
      CommandsSelect(calls[1..], call);
    }
  }

  predicate AllAccepted(r: Replies) {
    r.left && r.right && r.leftSpeed && r.rightSpeed
  }

  /** A hold is attempted: on a linked controller in a working mode that is ready, or becomes so by re-entering its mode. */
  predicate CanHold(st: CoreState, r: Replies) {
    st.linked && st.mode != Idle && (st.ready || AllAccepted(r))
  }

  /** The command that holds an arm: the pose that was read back from that very arm, if it could be read. */
  function HoldOf(st: CoreState, side: Side, h: HoldReply): seq<SdkCall> {
    if h.feedback.Some? then [JointCommand(side, h.feedback.value, st.mode == Pd)] else []
  }

  /** The joint commands of an operation: a sent target goes out as it is on a ready controller, a hold sends each arm its
    * own measured pose, and no other operation moves an arm. */
  function Moves(st: CoreState, op: CoreOp): seq<SdkCall> {
    match op
    case OpSend(side, target, _) =>
      if st.linked && st.ready && st.mode != Idle then [JointCommand(side, target, st.mode == Pd)] else []
    case OpHoldArm(side, r, h) => if CanHold(st, r) then HoldOf(st, side, h) else []
    case OpHoldBoth(r, left, right) => if CanHold(st, r) then HoldOf(st, Left, left) + HoldOf(st, Right, right) else []
    case _ => []
  }

  lemma EntryIsCommandless(st: CoreState, r: Replies)
    ensures Commands(ReadyToHold(st, r).calls) == []
    ensures ReadyToHold(st, r).ok <==> CanHold(st, r)
    ensures ReadyToHold(st, r).state.mode == st.mode && ReadyToHold(st, r).state.linked == st.linked
  {
    assert Commandless(PARK);
    CommandlessHasNone(ReadyToHold(st, r).calls);
  }

  lemma OneHold(st: CoreState, side: Side, h: HoldReply)
    requires st.mode != Idle
    ensures Commands(HoldUnlocked(st, side, h).calls) == HoldOf(st, side, h)
  {
  }

  lemma HoldArmMoves(st: CoreState, op: CoreOp)
    requires op.OpHoldArm?
    ensures Commands(CoreStep(st, op).calls) == Moves(st, op)
  {
    EntryIsCommandless(st, op.replies);
    if CanHold(st, op.replies) {
      var entry := ReadyToHold(st, op.replies);
      OneHold(entry.state, op.side, op.reply);
      CommandsConcat(entry.calls, HoldUnlocked(entry.state, op.side, op.reply).calls);
    }
  }

  lemma HoldBothMoves(st: CoreState, op: CoreOp)
    requires op.OpHoldBoth?
    ensures Commands(CoreStep(st, op).calls) == Moves(st, op)
  {
    EntryIsCommandless(st, op.replies);
    if CanHold(st, op.replies) {
      var entry := ReadyToHold(st, op.replies);
      var a, b := HoldUnlocked(entry.state, Left, op.leftReply).calls, HoldUnlocked(entry.state, Right, op.rightReply).calls;
      OneHold(entry.state, Left, op.leftReply);
      OneHold(entry.state, Right, op.rightReply);
      CommandsConcat(entry.calls + a, b);
      CommandsConcat(entry.calls, a);
    }
  }

  lemma OthersAreCommandless(st: CoreState, op: CoreOp)
    requires !op.OpHoldArm? && !op.OpHoldBoth? && !op.OpSend?
    ensures Commandless(CoreStep(st, op).calls)
  {
    assert Commandless(PARK) && Commandless(RESET_ERRORS) && Commandless(DISCONNECT);
  }

  /** Exactly which joint commands each operation sends. */
  lemma CommandsAreMoves(st: CoreState, op: CoreOp)
    ensures Commands(CoreStep(st, op).calls) == Moves(st, op)
  {
    if op.OpHoldArm? {
      HoldArmMoves(st, op);
    } else if op.OpHoldBoth? {
      HoldBothMoves(st, op);
    } else if !op.OpSend? {
      OthersAreCommandless(st, op);
      CommandlessHasNone(CoreStep(st, op).calls);
    }
  }

  /** A hold succeeds exactly when it is attempted, every arm it holds could be read, and the SDK took every command. */
  lemma HoldSucceedsIff(st: CoreState, op: CoreOp)
    ensures op.OpHoldArm? ==>
      (CoreStep(st, op).ok <==> CanHold(st, op.replies) && op.reply.feedback.Some? && op.reply.accepted)
    ensures op.OpHoldBoth? ==>
      (CoreStep(st, op).ok <==>
        && CanHold(st, op.replies) && op.leftReply.feedback.Some? && op.leftReply.accepted
        && op.rightReply.feedback.Some? && op.rightReply.accepted)
  {
  }

  // ---- State ----

  /** The state after an entry of a mode: entered as a whole or not at all. */
  function EnteredState(st: CoreState, mode: Mode, r: Replies): CoreState {
    if mode == Idle then st.(mode := Idle, ready := false)
    else if AllAccepted(r) then st.(mode := mode, ready := true)
    else st.(ready := false)
  }

  /** What every operation makes of linked, ready and mode. */
  lemma StateAfter(st: CoreState, op: CoreOp)
    requires CoreInv(st)
    ensures var next := CoreStep(st, op).state;
      match op
      case OpLink(ok) => next == st.(linked := st.linked || ok)
      case OpSwitch(mode, r) => next == if st.linked then EnteredState(st, mode, r) else st
      case OpConfigure(config, first, second) =>
        next ==
        if !st.linked || !config.Valid() then st
        else if config.mode == Idle || AllAccepted(first) then EnteredState(st, config.mode, first)
        else if AllAccepted(second) then EnteredState(st, config.mode, second)
        else st.(linked := false, ready := false)
      case OpHoldArm(_, r, _) => next == st.(ready := st.ready || CanHold(st, r))
      case OpHoldBoth(r, _, _) => next == st.(ready := st.ready || CanHold(st, r))
      case OpStop => next == if st.linked then st.(mode := Idle, ready := false) else st
      case OpEmergencyStop(_) => next == if st.linked then st.(mode := Idle, ready := false) else st
      case OpSend(_, _, _) => next == st
      case OpShutdown => next == CoreState(false, false, Idle)
  {
  }

  // ---- Mode switches ----

  /** The numbers that set_mode and the configuration use. */
  function ModeNumber(mode: Mode): int {
    match mode
    case Idle => 0
    case Position => 1
    case ImpJoint => 2
    case ImpCart => 3
    case Pd => 11
  }

  lemma ModesAreNumbered(value: int, mode: Mode)
    ensures ModeFromInt(value) == Some(mode) <==> value == ModeNumber(mode)
    ensures ModeFromInt(value) == None <==> value !in {0, 1, 2, 3, 11}
  {
  }

  /** The mode that an operation may put the controller into. */
  function Wanted(st: CoreState, op: CoreOp): Mode {
    match op
    case OpSwitch(mode, _) => mode
    case OpConfigure(config, _, _) => config.mode
    case _ => st.mode
  }

  /** Both arms are parked before a call, in the same operation. */
  predicate ParkedBefore(calls: seq<SdkCall>, i: int)
    requires 0 <= i < |calls|
  {
    ToIdle(Left) in calls[..i] && ToIdle(Right) in calls[..i]
  }

  predicate SwitchesWell(calls: seq<SdkCall>, mode: Mode) {
    forall i :: 0 <= i < |calls| && calls[i].ToMode? ==> calls[i].mode == mode && mode != Idle && ParkedBefore(calls, i)
  }

  lemma EntrySwitchesWell(mode: Mode, r: Replies)
    ensures SwitchesWell(EntryCalls(mode, r), mode)
  {
    var calls := EntryCalls(mode, r);
    forall i | 0 <= i < |calls| && calls[i].ToMode?
      ensures ParkedBefore(calls, i)
    {
      assert calls[..i][0] == ToIdle(Left) && calls[..i][1] == ToIdle(Right);
    }
  }

  lemma AppendSwitchesWell(a: seq<SdkCall>, b: seq<SdkCall>, mode: Mode)
    requires SwitchesWell(a, mode) && SwitchesWell(b, mode)
    ensures SwitchesWell(a + b, mode)
  {
    var c := a + b;
    forall i | 0 <= i < |c| && c[i].ToMode?
      ensures c[i].mode == mode && mode != Idle && ParkedBefore(c, i)
    {
      if i < |a| {
        assert c[..i] == a[..i];
      } else {
        assert c[..i] == a + b[..i - |a|];
        assert ParkedBefore(b, i - |a|);
      }
    }
  }

  lemma AttemptSwitchesWell(st: CoreState, mode: Mode, r: Replies)
    ensures SwitchesWell(Attempt(st, mode, r).calls, mode) && SwitchesWell(Retry(st, mode, r).calls, mode)
  {
    EntrySwitchesWell(mode, r);
    AppendSwitchesWell(RESET_ERRORS, EntryCalls(mode, r), mode);
    AppendSwitchesWell(RESET_ERRORS + EntryCalls(mode, r), DISCONNECT, mode);
  }

  lemma HoldSwitchesWell(st: CoreState, op: CoreOp)
    requires op.OpHoldArm? || op.OpHoldBoth?
    ensures SwitchesWell(CoreStep(st, op).calls, st.mode)
  {
    EntrySwitchesWell(st.mode, op.replies);
    var entry := ReadyToHold(st, op.replies);
    if op.OpHoldArm? {
      AppendSwitchesWell(entry.calls, HoldUnlocked(entry.state, op.side, op.reply).calls, st.mode);
    } else {
      var a, b := HoldUnlocked(entry.state, Left, op.leftReply).calls, HoldUnlocked(entry.state, Right, op.rightReply).calls;
      AppendSwitchesWell(entry.calls, a, st.mode);
      AppendSwitchesWell(entry.calls + a, b, st.mode);
    }
  }

  /** No arm is put into another mode than the operation wants, never into idle that way, and only with both arms parked. */
  lemma SwitchesAreParked(st: CoreState, op: CoreOp)
    ensures SwitchesWell(CoreStep(st, op).calls, Wanted(st, op))
  {
    match op
    case OpSwitch(mode, r) => AttemptSwitchesWell(st, mode, r);
    case OpConfigure(config, first, second) =>
      AttemptSwitchesWell(st, config.mode, first);
      AttemptSwitchesWell(Attempt(st, config.mode, first).state, config.mode, second);
      AppendSwitchesWell(Attempt(st, config.mode, first).calls,
                         Retry(Attempt(st, config.mode, first).state, config.mode, second).calls, config.mode);
      AppendSwitchesWell([PdCycleTime(config.cycleMs)], EnterConfigured(st, config.mode, first, second).calls, config.mode);
    case OpHoldArm(_, _, _) => HoldSwitchesWell(st, op);
    case OpHoldBoth(_, _, _) => HoldSwitchesWell(st, op);
    case _ =>
  }

  /** A successful switch to a working mode told it to both arms, and set both speeds. */
  lemma SwitchReachesBothArms(st: CoreState, mode: Mode, r: Replies, side: Side)
    requires CoreStep(st, OpSwitch(mode, r)).ok && mode != Idle
    ensures ToMode(side, mode) in CoreStep(st, OpSwitch(mode, r)).calls
    ensures SpeedRatio(side) in CoreStep(st, OpSwitch(mode, r)).calls
  {
    var calls := CoreStep(st, OpSwitch(mode, r)).calls;
    assert calls == RESET_ERRORS + PARK + [ToMode(Left, mode), ToMode(Right, mode), SpeedRatio(Left), SpeedRatio(Right)];
    assert calls[4] == ToMode(Left, mode) && calls[5] == ToMode(Right, mode);
    assert calls[6] == SpeedRatio(Left) && calls[7] == SpeedRatio(Right);
  }

  /** A stop reaches the SDK of every linked controller, and an idle request parks both arms. */
  lemma StopsReachTheSdk(st: CoreState, ok: bool, r: Replies, side: Side)
    requires st.linked
    ensures StopTrajectory in CoreStep(st, OpStop).calls && ToIdle(side) in CoreStep(st, OpStop).calls
    ensures EmergencyStop in CoreStep(st, OpEmergencyStop(ok)).calls
    ensures ToIdle(side) in CoreStep(st, OpSwitch(Idle, r)).calls
  {
    var stop, idle := CoreStep(st, OpStop).calls, CoreStep(st, OpSwitch(Idle, r)).calls;
    assert stop[0] == StopTrajectory && stop[1] == ToIdle(Left) && stop[2] == ToIdle(Right);
    assert CoreStep(st, OpEmergencyStop(ok)).calls[0] == EmergencyStop;
    assert idle[2] == ToIdle(Left) && idle[3] == ToIdle(Right);
  }
}
