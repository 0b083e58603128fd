/** Which arm the node holds, when, and at which pose; and what the services do to the sessions. */
module HoldTheorems {
  import opened Prelude
  import opened ArmModel
  import opened ArmRuns
  import opened ArmSession
  import opened StreamTheorems
  import opened Controller
  import opened CoreTheorems
  import opened DriverNode
  import opened NodeTheorems

  // ---- The time of the latest command ----

  /** When the SDK took the latest joint command for an arm over a path. */
  function LastCallTime(t: NodeTrace, k: nat, side: Side, absolute: bool): Option<real>
    requires k <= |t.events|
  {
    if k == 0 then None
    else if Delivers(t.events[k - 1], t.calls[k - 1], side, absolute) then Some(t.events[k - 1].now)
    else LastCallTime(t, k - 1, side, absolute)
  }

  /** A path that streams after steps of an arm without a delivery streamed before, since the same command. */
  predicate KeepsStamp(st: ArmState, next: ArmState, absolute: bool) {
    PathStreaming(next, absolute) ==> PathStreaming(st, absolute) && Stamp(next, absolute) == Stamp(st, absolute)
  }

  lemma ArmKeepsStamp(cfg: Config, st: ArmState, ev: ArmEvent, absolute: bool)
    requires cfg.Valid() && Inv(cfg, st) && !ev.Relative? && !ev.Absolute?
    ensures KeepsStamp(st, Step(cfg, st, ev).state, absolute)
  {
    if PathStreaming(Step(cfg, st, ev).state, absolute) {
      StepStamps(cfg, st, ev, absolute);
    }
  }

  lemma EventKeepsStamp(cfg: NodeConfig, n: NodeState, ev: NodeEvent, side: Side, absolute: bool)
    requires cfg.Valid() && NodeInv(cfg, n) && !CommandsArm(ev, side)
    ensures KeepsStamp(n.Of(side), NodeStep(cfg, n, ev).state.Of(side), absolute)
  {
    var c, st := cfg.Of(side), n.Of(side);
    if ev.Tick? {
      TickOnArm(cfg, n, ev, side);
      ArmKeepsStamp(c, st, Timeout(ev.at, false), absolute);
      ArmKeepsStamp(c, Step(c, st, Timeout(ev.at, false)).state, Timeout(ev.at, true), absolute);
    } else if Seen(n, ev, side) != [] {
      ArmKeepsStamp(c, st, Seen(n, ev, side)[0], absolute);
    }
  }

  lemma CommandStamps(cfg: NodeConfig, n: NodeState, ev: NodeEvent, absolute: bool)
    requires cfg.Valid() && NodeInv(cfg, n) && ev.Command?
    ensures var st, o := n.Of(ev.side), NodeStep(cfg, n, ev); var next := o.state.Of(ev.side);
      if Delivers(ev, o.calls, ev.side, absolute) then PathStreaming(next, absolute) ==> Stamp(next, absolute) == ev.now
      else KeepsStamp(st, next, absolute)
  {
    var o := ArmStep(cfg, n, ev.side, CommandEvent(n, ev));
    DeliveredIsSent(n, ev, o, absolute);
    if PathStreaming(o.state, absolute) {
      StepStamps(cfg.Of(ev.side), n.Of(ev.side), CommandEvent(n, ev), absolute);
    }
  }

  lemma StampAt(cfg: NodeConfig, t: NodeTrace, k: nat, side: Side, absolute: bool)
    requires IsNodeRun(cfg, t) && k < |t.events| && PathStreaming(t.states[k + 1].Of(side), absolute)
    ensures if Delivers(t.events[k], t.calls[k], side, absolute) then
        Stamp(t.states[k + 1].Of(side), absolute) == t.events[k].now
      else KeepsStamp(t.states[k].Of(side), t.states[k + 1].Of(side), absolute)
  {
    NodeStepAt(cfg, t, k);
    if CommandsArm(t.events[k], side) {
      CommandStamps(cfg, t.states[k], t.events[k], absolute);
    } else {
      EventKeepsStamp(cfg, t.states[k], t.events[k], side, absolute);
    }
  }

  lemma {:induction false} StreamingRemembersCallTime(cfg: NodeConfig, t: NodeTrace, k: nat, side: Side, absolute: bool)
    requires IsNodeRun(cfg, t) && k <= |t.events| && PathStreaming(t.states[k].Of(side), absolute)
    ensures LastCallTime(t, k, side, absolute) == Some(Stamp(t.states[k].Of(side), absolute))
  {
    assert t.states[0].left == t.states[0].right == INITIAL;
    StampAt(cfg, t, k - 1, side, absolute);
    if !Delivers(t.events[k - 1], t.calls[k - 1], side, absolute) {
      StreamingRemembersCallTime(cfg, t, k - 1, side, absolute);
    }
  }

  // ---- Timeout holds ----

  /** The path streams, and its latest command is older than the timeout. */
  predicate Stale(cfg: Config, st: ArmState, absolute: bool, now: real) {
    PathStreaming(st, absolute) && now - Stamp(st, absolute) > cfg.timeout
  }

  lemma CheckOfArm(cfg: Config, st: ArmState, now: real, absolute: bool)
    requires cfg.Valid() && Inv(cfg, st)
    ensures var o := Step(cfg, st, Timeout(now, absolute));
      && (o.hold <==> Stale(cfg, st, absolute, now))
      && (Stale(cfg, o.state, !absolute, now) <==> Stale(cfg, st, !absolute, now))
  {
  }

  function Other(side: Side): Side {
    if side == Left then Right else Left
  }

  /** One check moves its own arm, to the pose read back from it, exactly when its path is stale and a hold possible. */
  lemma CheckCommands(cfg: NodeConfig, n: NodeState, side: Side, absolute: bool, now: real, h: HoldInput)
    requires cfg.Valid() && NodeInv(cfg, n)
    ensures var o, stale := TimeoutOn(cfg, n, side, absolute, now, h), Stale(cfg.Of(side), n.Of(side), absolute, now);
      && Commands(o.calls) == (if stale then Moves(n.core, OpHoldArm(side, h.replies, h.reply)) else [])
      && o.state.Of(Other(side)) == n.Of(Other(side))
      && (Stale(cfg.Of(side), o.state.Of(side), !absolute, now) <==> Stale(cfg.Of(side), n.Of(side), !absolute, now))
      && o.state.core.mode == n.core.mode && (CommandAllowed(n.core) ==> o.state.core == n.core)
  {
    CheckOfArm(cfg.Of(side), n.Of(side), now, absolute);
    CommandsAreMoves(n.core, OpHoldArm(side, h.replies, h.reply));
    StateAfter(n.core, OpHoldArm(side, h.replies, h.reply));
  }

  function InputOf(ev: NodeEvent, side: Side, absolute: bool): HoldInput
    requires ev.Tick?
  {
    if side == Left then if absolute then ev.leftAbs else ev.left else if absolute then ev.rightAbs else ev.right
  }

  function HoldIfStale(cfg: NodeConfig, n: NodeState, ev: NodeEvent, side: Side, absolute: bool): seq<SdkCall>
    requires ev.Tick?
  {
    if Stale(cfg.Of(side), n.Of(side), absolute, ev.at) then HoldOf(n.core, side, InputOf(ev, side, absolute).reply) else []
  }

  lemma PairCommands(cfg: NodeConfig, n: NodeState, absolute: bool, now: real, l: HoldInput, r: HoldInput)
    requires cfg.Valid() && NodeInv(cfg, n) && CommandAllowed(n.core)
    ensures var o := TimeoutsOn(cfg, n, absolute, now, l, r);
      && Commands(o.calls) ==
           (if Stale(cfg.left, n.left, absolute, now) then HoldOf(n.core, Left, l.reply) else [])
           + (if Stale(cfg.right, n.right, absolute, now) then HoldOf(n.core, Right, r.reply) else [])
      && o.state.core == n.core
      && (Stale(cfg.left, o.state.left, !absolute, now) <==> Stale(cfg.left, n.left, !absolute, now))
      && (Stale(cfg.right, o.state.right, !absolute, now) <==> Stale(cfg.right, n.right, !absolute, now))
  {
    var a := TimeoutOn(cfg, n, Left, absolute, now, l);
    CheckCommands(cfg, n, Left, absolute, now, l);
    CheckCommands(cfg, a.state, Right, absolute, now, r);
    CommandsConcat(a.calls, TimeoutOn(cfg, a.state, Right, absolute, now, r).calls);
  }

  lemma TickCommands(cfg: NodeConfig, n: NodeState, ev: NodeEvent)
    requires cfg.Valid() && NodeInv(cfg, n) && ev.Tick? && CommandAllowed(n.core)
    ensures Commands(TickStep(cfg, n, ev).calls) ==
      HoldIfStale(cfg, n, ev, Left, false) + HoldIfStale(cfg, n, ev, Right, false)
      + HoldIfStale(cfg, n, ev, Left, true) + HoldIfStale(cfg, n, ev, Right, true)
  {
    var a := TimeoutsOn(cfg, n, false, ev.at, ev.left, ev.right);
    PairCommands(cfg, n, false, ev.at, ev.left, ev.right);
    PairCommands(cfg, a.state, true, ev.at, ev.leftAbs, ev.rightAbs);
    CommandsConcat(a.calls, TimeoutsOn(cfg, a.state, true, ev.at, ev.leftAbs, ev.rightAbs).calls);
  }

  /** A path of an arm streams at a tick, and the SDK took its latest command longer than the timeout ago. */
  predicate OverdueAt(cfg: NodeConfig, t: NodeTrace, k: nat, side: Side, absolute: bool)
    requires k < |t.events| && t.events[k].Tick?
  {
    var sent := LastCallTime(t, k, side, absolute);
    && PathStreaming(t.states[k].Of(side), absolute)
    && sent.Some? && t.events[k].at - sent.value > cfg.Of(side).timeout
  }

  lemma StaleIsOverdue(cfg: NodeConfig, t: NodeTrace, k: nat, side: Side, absolute: bool)
    requires IsNodeRun(cfg, t) && k < |t.events| && t.events[k].Tick?
    ensures Stale(cfg.Of(side), t.states[k].Of(side), absolute, t.events[k].at) <==> OverdueAt(cfg, t, k, side, absolute)
  {
    if PathStreaming(t.states[k].Of(side), absolute) {
      StreamingRemembersCallTime(cfg, t, k, side, absolute);
    }
  }

  /** The hold that a tick owes one path of one arm. */
  function Owed(cfg: NodeConfig, t: NodeTrace, k: nat, side: Side, absolute: bool): seq<SdkCall>
    requires k < |t.events| && t.events[k].Tick?
  {
    if OverdueAt(cfg, t, k, side, absolute) then
      HoldOf(t.states[k].core, side, InputOf(t.events[k], side, absolute).reply)
    else []
  }

  /**
   * In every node run, a tick on a ready controller holds exactly the arms with an overdue path, each once and at the pose
   * read back from it, and moves nothing else.
   */
  lemma TickHoldsOverdueArms(cfg: NodeConfig, t: NodeTrace, k: nat)
    requires IsNodeRun(cfg, t) && k < |t.events| && t.events[k].Tick? && CommandAllowed(t.states[k].core)
    ensures Commands(t.calls[k]) ==
      Owed(cfg, t, k, Left, false) + Owed(cfg, t, k, Right, false)
      + Owed(cfg, t, k, Left, true) + Owed(cfg, t, k, Right, true)
    ensures forall side :: !(OverdueAt(cfg, t, k, side, false) && OverdueAt(cfg, t, k, side, true))
  {
    NodeStepAt(cfg, t, k);
    TickCommands(cfg, t.states[k], t.events[k]);
    StaleIsOverdue(cfg, t, k, Left, false);
    StaleIsOverdue(cfg, t, k, Right, false);
    StaleIsOverdue(cfg, t, k, Left, true);
    StaleIsOverdue(cfg, t, k, Right, true);
  }

  predicate ArmHold(cfg: NodeConfig, n: NodeState, ev: NodeEvent, call: SdkCall, side: Side, absolute: bool)
    requires ev.Tick?
  {
    && Stale(cfg.Of(side), n.Of(side), absolute, ev.at)
    && InputOf(ev, side, absolute).reply.feedback.Some?
    && call == JointCommand(side, InputOf(ev, side, absolute).reply.feedback.value, n.core.mode == Pd)
  }

  lemma CheckMovesOwnArm(cfg: NodeConfig, n: NodeState, side: Side, absolute: bool, now: real, h: HoldInput, call: SdkCall)
    requires cfg.Valid() && NodeInv(cfg, n) && call.JointCommand? && call in TimeoutOn(cfg, n, side, absolute, now, h).calls
    ensures Stale(cfg.Of(side), n.Of(side), absolute, now) && h.reply.feedback.Some?
    ensures call == JointCommand(side, h.reply.feedback.value, n.core.mode == Pd)
  {
    CheckCommands(cfg, n, side, absolute, now, h);
    CommandsSelect(TimeoutOn(cfg, n, side, absolute, now, h).calls, call);
  }

  lemma PairMovesOwnArms(cfg: NodeConfig, n: NodeState, absolute: bool, now: real, l: HoldInput, r: HoldInput,
                         call: SdkCall)
    requires cfg.Valid() && NodeInv(cfg, n) && call.JointCommand? && call in TimeoutsOn(cfg, n, absolute, now, l, r).calls
    ensures var h := if call.side == Left then l else r;
      && Stale(cfg.Of(call.side), n.Of(call.side), absolute, now) && h.reply.feedback.Some?
      && call == JointCommand(call.side, h.reply.feedback.value, n.core.mode == Pd)
  {
    var a := TimeoutOn(cfg, n, Left, absolute, now, l);
    CheckCommands(cfg, n, Left, absolute, now, l);
    if call in a.calls {
      CheckMovesOwnArm(cfg, n, Left, absolute, now, l, call);
    } else {
      CheckMovesOwnArm(cfg, a.state, Right, absolute, now, r, call);
    }
  }

  lemma PairKeeps(cfg: NodeConfig, n: NodeState, absolute: bool, now: real, l: HoldInput, r: HoldInput, side: Side)
    requires cfg.Valid() && NodeInv(cfg, n)
    ensures var o := TimeoutsOn(cfg, n, absolute, now, l, r).state;
      && o.core.mode == n.core.mode
      && (Stale(cfg.Of(side), o.Of(side), !absolute, now) <==> Stale(cfg.Of(side), n.Of(side), !absolute, now))
  {
    CheckCommands(cfg, n, Left, absolute, now, l);
    CheckCommands(cfg, TimeoutOn(cfg, n, Left, absolute, now, l).state, Right, absolute, now, r);
  }

  /** On any controller, ready or not: a tick moves an arm only to its own pose, and only if a path of that arm is stale. */
  lemma TicksMoveOnlyStaleArms(cfg: NodeConfig, n: NodeState, ev: NodeEvent, call: SdkCall)
    requires cfg.Valid() && NodeInv(cfg, n) && ev.Tick? && call.JointCommand? && call in TickStep(cfg, n, ev).calls
    ensures exists absolute :: ArmHold(cfg, n, ev, call, call.side, absolute)
  {
    var a := TimeoutsOn(cfg, n, false, ev.at, ev.left, ev.right);
    if call in a.calls {
      PairMovesOwnArms(cfg, n, false, ev.at, ev.left, ev.right, call);
      assert ArmHold(cfg, n, ev, call, call.side, false);
    } else {
      PairMovesOwnArms(cfg, a.state, true, ev.at, ev.leftAbs, ev.rightAbs, call);
      PairKeeps(cfg, n, false, ev.at, ev.left, ev.right, call.side);
      assert ArmHold(cfg, n, ev, call, call.side, true);
    }
  }

  // ---- Messages ----

  lemma TargetCommands(core: CoreState, side: Side, target: Option<Pose>, sdkOk: bool)
    ensures Commands(CallsFor(core, side, target, sdkOk)) ==
      if target.Some? && core.linked && core.ready && core.mode != Idle then
        [JointCommand(side, target.value, core.mode == Pd)]
      else []
  {
    if target.Some? {
      CommandsAreMoves(core, OpSend(side, target.value, sdkOk));
    }
  }

  /** A message with a target sends that one target to its own arm when the controller is ready, and nothing otherwise. */
  lemma MessageCommands(cfg: NodeConfig, n: NodeState, ev: NodeEvent)
    requires cfg.Valid() && NodeInv(cfg, n) && ev.Command?
    ensures var target := ArmStep(cfg, n, ev.side, CommandEvent(n, ev)).target;
      Commands(NodeStep(cfg, n, ev).calls) ==
      if target.Some? && n.core.linked && n.core.ready && n.core.mode != Idle then
        [JointCommand(ev.side, target.value, n.core.mode == Pd)]
      else []
  {
    TargetCommands(n.core, ev.side, ArmStep(cfg, n, ev.side, CommandEvent(n, ev)).target, ev.sdkOk);
  }

  /** What an arm sees of a message: its content, and what the controller answers while it is linked. */
  lemma FrameOfMessage(n: NodeState, ev: NodeEvent)
    requires ev.Command?
    ensures var arm := CommandEvent(n, ev);
      && (if ev.absolute then arm.Absolute? else arm.Relative?)
      && arm.frame.now == ev.now && arm.frame.positions == ev.positions
      && arm.frame.seed == (if n.core.linked then ev.seed else None)
      && (!ev.absolute ==> arm.frame.measured == if n.core.linked then ev.measured else None)
      && (arm.frame.accepted <==> n.core.linked && n.core.ready && n.core.mode != Idle && ev.sdkOk)
  {
  }

  // ---- Services ----

  /** What the services move: hold_current each arm to its own pose, the others nothing. */
  lemma ServiceCommands(cfg: NodeConfig, n: NodeState, ev: NodeEvent)
    requires cfg.Valid() && NodeInv(cfg, n) && !ev.Command? && !ev.Tick?
    ensures Commands(NodeStep(cfg, n, ev).calls) ==
      if ev.HoldService? && CanHold(n.core, ev.replies) then
        HoldOf(n.core, Left, ev.leftReply) + HoldOf(n.core, Right, ev.rightReply)
      else []
  {
    match ev
    case SetMode(value, replies) =>
      if ModeFromInt(value).Some? {
        CommandsAreMoves(n.core, OpSwitch(ModeFromInt(value).value, replies));
      }
    case HoldService(replies, l, r) => CommandsAreMoves(n.core, OpHoldBoth(replies, l, r));
    case StopService => CommandsAreMoves(n.core, OpStop);
    case EmergencyStopService(ok) => CommandsAreMoves(n.core, OpEmergencyStop(ok));
  }

  /** No path streams, and no reference or command is left of a session. */
  predicate Closed(st: ArmState) {
    !st.streaming && !st.absStreaming && st.gentoRef.None? && st.lastCommand.None? && st.absLast.None?
  }

  /** The service does what it was asked for. */
  predicate TakesEffect(n: NodeState, ev: NodeEvent)
    requires !ev.Command? && !ev.Tick?
  {
    match ev
    case SetMode(value, r) =>
      ModeFromInt(value).Some? && n.core.linked && (ModeFromInt(value).value == Idle || AllAccepted(r))
    case HoldService(r, left, right) =>
      CanHold(n.core, r) && left.feedback.Some? && left.accepted && right.feedback.Some? && right.accepted
    case _ => true
  }

  lemma ClosingEvents(cfg: Config, st: ArmState)
    requires cfg.Valid() && Inv(cfg, st)
    ensures Closed(Step(cfg, st, ModeEntered).state) && Closed(Step(cfg, st, Reset).state)
  {
  }

  lemma EffectReachesBothArms(cfg: NodeConfig, n: NodeState, ev: NodeEvent)
    requires cfg.Valid() && NodeInv(cfg, n) && !ev.Command? && !ev.Tick?
    ensures var next := NodeStep(cfg, n, ev).state;
      if TakesEffect(n, ev) then
        var seen := if ev.SetMode? then ModeEntered else Reset;
        next.left == ArmStep(cfg, n, Left, seen).state && next.right == ArmStep(cfg, n, Right, seen).state
      else next.left == n.left && next.right == n.right
  {
    if ev.HoldService? {
      HoldSucceedsIff(n.core, OpHoldBoth(ev.replies, ev.leftReply, ev.rightReply));
    }
  }

  /** A service that takes effect closes all four sessions, and one that does not leaves them alone. */
  lemma ServicesCloseSessions(cfg: NodeConfig, n: NodeState, ev: NodeEvent, side: Side)
    requires cfg.Valid() && NodeInv(cfg, n) && !ev.Command? && !ev.Tick?
    ensures var next := NodeStep(cfg, n, ev).state;
      if TakesEffect(n, ev) then Closed(next.Of(side)) else next.Of(side) == n.Of(side)
  {
    EffectReachesBothArms(cfg, n, ev);
    ClosingEvents(cfg.left, n.left);
    ClosingEvents(cfg.right, n.right);
  }

  /** What outlives a session: set_mode keeps the time for which the leader has been still, the other services clear it. */
  lemma StillnessOutlivesModeSwitch(cfg: Config, st: ArmState)
    requires cfg.Valid() && Inv(cfg, st)
    ensures Step(cfg, st, ModeEntered).state.still == st.still && Step(cfg, st, Reset).state.still == 0.0
  {
  }

  /** The core's mode after set_mode is the requested one, if the number is known and the switch succeeds. */
  lemma SetModeEntersTheMode(cfg: NodeConfig, n: NodeState, value: int, r: Replies, mode: Mode)
    requires cfg.Valid() && NodeInv(cfg, n) && n.core.linked && value == ModeNumber(mode) && (mode == Idle || AllAccepted(r))
    ensures NodeStep(cfg, n, SetMode(value, r)).state.core == CoreState(true, mode != Idle, mode)
  {
    ModesAreNumbered(value, mode);
    StateAfter(n.core, OpSwitch(mode, r));
  }
}
