/** One arm of the driver node: its session state and what each event does to it. */
module ArmModel {
  import opened Prelude
  import opened JointMath

  /** Parameters fixed when the node starts. */
  datatype Config = Config(
    order: Order, signs: Pose, offsets: Pose, minimum: Pose, maximum: Pose,
    relative: bool, assist: bool, tanh: real -> real,
    compressDelta: real, leashLambda: real, offsetMax: real,
    resyncAlpha: real, resyncMotionMax: real, resyncIdle: real,
    stillDisplacement: real, stillTime: real, trackingFreeze: real,
    maxDelta: real, timeout: real)
  {
    /** What the node checks before it accepts its parameters. */
    predicate Valid() {
      Within(minimum, minimum, maximum) && maxDelta > 0.0 && timeout > 0.0
    }

    function Leash(): LeashParams {
      LeashParams(order, signs, minimum, maximum, offsets, leashLambda, offsetMax)
    }

    function Resync(): ResyncParams {
      ResyncParams(order, signs, offsets, minimum, maximum, compressDelta)
    }
  }

  datatype ArmState = ArmState(
    streaming: bool, gentoRef: Option<Pose>, leaderPrev: Pose, leaderContinuous: Pose, leaderContRef: Pose,
    lastCommand: Option<Pose>, lastTime: real, still: real,
    absStreaming: bool, absLast: Option<Pose>, absTime: real)

  const INITIAL: ArmState :=
    ArmState(false, None, ORIGIN, ORIGIN, ORIGIN, None, 0.0, 0.0, false, None, 0.0)

  /**
   * One joint-control message: the clock, its positions, the two feedback reads a handler may make, and whether
   * the SDK core takes the resulting command.
   */
  datatype Frame = Frame(now: real, positions: seq<Double>, seed: Option<Pose>, measured: Option<Pose>, accepted: bool)

  datatype ArmEvent =
    | Relative(frame: Frame)
    | Absolute(frame: Frame)
    | Timeout(now: real, absolute: bool)  // the timeout check of one command path
    | ModeEntered                         // set_mode succeeded
    | Reset                               // hold_current succeeded, stop_motion or emergency_stop

  /** The new state, the target handed to the SDK core, whether this frame opened a session, and whether to hold. */
  datatype Outcome = Outcome(state: ArmState, target: Option<Pose>, seeded: bool, hold: bool)

  function Quiet(st: ArmState): Outcome {
    Outcome(st, None, false, false)
  }

  function ResetTeleop(st: ArmState): ArmState {
    st.(gentoRef := None, lastCommand := None, streaming := false, still := 0.0)
  }

  function ResetAbsolute(st: ArmState): ArmState {
    st.(absLast := None, absStreaming := false)
  }

  predicate PathStreaming(st: ArmState, absolute: bool) {
    if absolute then st.absStreaming else st.streaming
  }

  predicate PathActive(cfg: Config, st: ArmState, absolute: bool, now: real) {
    PathStreaming(st, absolute) && now - (if absolute then st.absTime else st.lastTime) <= cfg.timeout
  }

  /** The follower reference and the last command of a session are set. */
  predicate Open(st: ArmState) {
    st.gentoRef.Some? && st.lastCommand.Some?
  }

  /** What every reachable state of an arm satisfies. */
  ghost predicate Inv(cfg: Config, st: ArmState) {
    && !(st.streaming && st.absStreaming)
    && (st.streaming ==> Open(st))
    && (st.absStreaming ==> st.absLast.Some?)
    && (st.lastCommand.Some? ==> Within(st.lastCommand.value, cfg.minimum, cfg.maximum))
    && (st.absLast.Some? ==> Within(st.absLast.value, cfg.minimum, cfg.maximum))
  }

  /** The finite reading of a message; a non-finite entry reads as zero and is only ever used by a rejected frame. */
  function Values(positions: seq<Double>): Pose
    requires |positions| == DOF
  {
    seq(DOF, i requires 0 <= i < DOF => if positions[i].Fin? then positions[i].v else 0.0)
  }

  /** Every output of the map reads a finite entry. */
  predicate MapsFinite(order: Order, positions: seq<Double>)
    requires |positions| == DOF
  {
    forall out :: 0 <= out < DOF ==> positions[order[out]].Fin?
  }

  function Seed(cfg: Config, st: ArmState, leader: Pose, measured: Pose): (session: ArmState)
    ensures cfg.Valid() && Inv(cfg, st) ==> Inv(cfg, session)
  {
    var feedback := ClampToLimits(measured, cfg.minimum, cfg.maximum);
    st.(leaderPrev := leader, leaderContinuous := leader, leaderContRef := leader,
        gentoRef := Some(feedback), lastCommand := Some(feedback))
  }

  /** Seconds since the previous command, as the resync uses it. */
  function CycleTime(st: ArmState, now: real): real {
    if st.streaming && st.lastTime > 0.0 then Clamp(now - st.lastTime, 0.0001, 0.05) else 0.004
  }

  /** The follower lags its last command too far: the assist must not grow the offset. */
  predicate Frozen(cfg: Config, last: Pose, measured: Option<Pose>) {
    cfg.relative && cfg.assist && measured.Some?
    && MaxAbsDifference(DOF, last, measured.value) > cfg.trackingFreeze
  }

  function StillAfter(cfg: Config, still: real, delta: Pose, dt: real): real {
    if MaxAbsDifference(DOF, delta, ORIGIN) < cfg.stillDisplacement then still + dt else 0.0
  }

  function IdleScale(cfg: Config, still: real): real {
    if still >= cfg.stillTime then Min(1.0, (still - cfg.stillTime) / 0.3) else 0.0
  }

  function RateLimit(cfg: Config, delta: real, dt: real, idle: real): real
    requires dt > 0.0
  {
    (Min(cfg.resyncAlpha * (Abs(delta) / dt), cfg.resyncMotionMax) + cfg.resyncIdle * idle) * dt
  }

  function RateLimits(cfg: Config, delta: Pose, dt: real, still: real): Pose
    requires dt > 0.0
  {
    seq(DOF, out requires 0 <= out < DOF => RateLimit(cfg, delta[cfg.order[out]], dt, IdleScale(cfg, still)))
  }

  function Soft(cfg: Config, raw: Pose): Pose {
    SoftCompress(cfg.tanh, raw, cfg.minimum, cfg.maximum, cfg.compressDelta)
  }

  /** The command the assist shapes, and the follower reference and stillness it leaves. */
  datatype Shaped = Shaped(desired: Pose, gentoRef: Pose, still: real)

  /** The follower reference after the leash and the resync; `still` already counts this frame. */
  function Nudge(cfg: Config, mapped: Pose, gentoRef: Pose, contRef: Pose, delta: Pose, dt: real, still: real): Pose
    requires dt > 0.0
  {
    var leashed := LeashAll(cfg.Leash(), mapped, gentoRef, contRef);
    Shifted(RefOf(leashed),
            ResyncSteps(cfg.Resync(), RefOf(leashed), contRef, Soft(cfg, RawOf(leashed)), RateLimits(cfg, delta, dt, still)))
  }

  /** Leash, compress, resync, and map the unmoved leader again on the nudged reference. */
  function Assist(cfg: Config, mapped: Pose, gentoRef: Pose, leader: Pose, cont: Pose, contRef: Pose,
                  delta: Pose, dt: real, still: real): Shaped
    requires dt > 0.0
  {
    var still' := StillAfter(cfg, still, delta, dt);
    var nudged := Nudge(cfg, mapped, gentoRef, contRef, delta, dt, still');
    Shaped(Soft(cfg, RelativeMapping(leader, leader, cont, contRef, nudged, cfg.order, cfg.signs)), nudged, still')
  }

  /** The command before the hard clamp. */
  function Shape(cfg: Config, mapped: Pose, gentoRef: Pose, leader: Pose, cont: Pose, contRef: Pose,
                 delta: Pose, dt: real, still: real, frozen: bool): Shaped
    requires dt > 0.0
  {
    if cfg.relative && cfg.assist && !frozen then
      Assist(cfg, mapped, gentoRef, leader, cont, contRef, delta, dt, still)
    else if cfg.relative && cfg.assist then Shaped(Soft(cfg, mapped), gentoRef, still)
    else Shaped(mapped, gentoRef, still)
  }

  function Continued(cfg: Config, st: ArmState, leader: Pose): Pose {
    if cfg.relative then ContinuousAfter(DOF, leader, st.leaderPrev, st.leaderContinuous, cfg.order)
    else st.leaderContinuous
  }

  function Mapped(cfg: Config, st: ArmState, leader: Pose): Pose
    requires st.gentoRef.Some?
  {
    if cfg.relative then
      RelativeMapping(leader, st.leaderPrev, st.leaderContinuous, st.leaderContRef, st.gentoRef.value, cfg.order, cfg.signs)
    else JointMapping(leader, cfg.order, cfg.signs, cfg.offsets)
  }

  /** The shaped command of a finite frame in an open session. */
  function ShapedCommand(cfg: Config, st: ArmState, leader: Pose, f: Frame): Shaped
    requires Open(st)
  {
    Shape(cfg, Mapped(cfg, st, leader), st.gentoRef.value, leader, Continued(cfg, st, leader), st.leaderContRef,
          FrameDelta(leader, st.leaderPrev), CycleTime(st, f.now), st.still,
          Frozen(cfg, st.lastCommand.value, f.measured))
  }

  function HardClamp(cfg: Config, p: Pose): (clamped: Pose)
    ensures cfg.Valid() ==> Within(clamped, cfg.minimum, cfg.maximum)
  {
    ClampToLimits(p, cfg.minimum, cfg.maximum)
  }

  /** References after the clutch absorbed the joints that the hard clamp stopped. */
  function Clutched(cfg: Config, st: ArmState, leader: Pose, f: Frame): (st': ArmState)
    requires Open(st)
    ensures st'.gentoRef.Some? && st'.leaderPrev == leader && st'.leaderContinuous == Continued(cfg, st, leader)
    ensures st' == st.(leaderPrev := st'.leaderPrev, leaderContinuous := st'.leaderContinuous, still := st'.still,
                       leaderContRef := st'.leaderContRef, gentoRef := st'.gentoRef)
  {
    var shaped := ShapedCommand(cfg, st, leader, f);
    var clamped := HardClamp(cfg, shaped.desired);
    var cont := Continued(cfg, st, leader);
    var st' := st.(leaderPrev := leader, leaderContinuous := cont, still := shaped.still);
    if cfg.relative && !Frozen(cfg, st.lastCommand.value, f.measured) then
      st'.(leaderContRef := ClutchContRef(DOF, shaped.desired, clamped, cont, st.leaderContRef, cfg.order),
           gentoRef := Some(ClutchGentoRef(shaped.desired, clamped, shaped.gentoRef)))
    else st'.(gentoRef := Some(shaped.gentoRef))
  }

  /** The last two stages before the SDK: the slew limit, then the hard clamp once more. */
  function Limited(cfg: Config, clamped: Pose, last: Pose): (limited: Pose)
    ensures cfg.Valid() ==> Within(limited, cfg.minimum, cfg.maximum)
  {
    HardClamp(cfg, LimitDeltas(clamped, last, cfg.maxDelta))
  }

  /** Hand the target to the SDK core; if it is taken, the relative path owns the arm. */
  function Conclude(st: ArmState, target: Pose, f: Frame, seeded: bool): Outcome {
    if f.accepted then
      var sent := st.(lastCommand := Some(target), lastTime := f.now, streaming := true);
      Outcome(if sent.absStreaming then ResetAbsolute(sent) else sent, Some(target), seeded, false)
    else Outcome(st, Some(target), seeded, false)
  }

  /** A finite frame in an open session. */
  function Track(cfg: Config, st: ArmState, leader: Pose, f: Frame, seeded: bool): (r: Outcome)
    requires Open(st)
    requires cfg.Valid() && Inv(cfg, st)
    ensures Inv(cfg, r.state)
    ensures r.target.Some? && Within(r.target.value, cfg.minimum, cfg.maximum)
  {
    var target := Limited(cfg, HardClamp(cfg, ShapedCommand(cfg, st, leader, f).desired), st.lastCommand.value);
    Conclude(Clutched(cfg, st, leader, f), target, f, seeded)
  }

  /** A frame in an open session, which ends when the mapped command is not finite. */
  function OpenFrame(cfg: Config, st: ArmState, leader: Pose, f: Frame, seeded: bool): (r: Outcome)
    requires Open(st) && |f.positions| == DOF
    requires cfg.Valid() && Inv(cfg, st)
    ensures Inv(cfg, r.state)
    ensures r.target.Some? ==> Within(r.target.value, cfg.minimum, cfg.maximum)
  {
    if !MapsFinite(cfg.order, f.positions) then
      Quiet(st.(leaderContinuous := Continued(cfg, st, leader), lastTime := f.now, streaming := false))
    else Track(cfg, st, leader, f, seeded)
  }

  function RelativeFrame(cfg: Config, st: ArmState, f: Frame): (r: Outcome)
    requires cfg.Valid() && Inv(cfg, st)
    ensures Inv(cfg, r.state)
    ensures r.target.Some? ==> Within(r.target.value, cfg.minimum, cfg.maximum)
  {
    if PathActive(cfg, st, true, f.now) || |f.positions| != DOF || (!st.streaming && f.seed.None?) then Quiet(st)
    else
      var leader := Values(f.positions);
      var open := if st.streaming then st else Seed(cfg, st, leader, f.seed.value);
      OpenFrame(cfg, open, leader, f, !st.streaming)
  }

  function ConcludeAbsolute(st: ArmState, target: Pose, f: Frame, seeded: bool): Outcome {
    if f.accepted then
      var sent := st.(absLast := Some(target), absTime := f.now, absStreaming := true);
      Outcome(if sent.streaming then ResetTeleop(sent) else sent, Some(target), seeded, false)
    else Outcome(st, Some(target), seeded, false)
  }

  /** An absolute frame of an open session, which ends when the mapped command is not finite. */
  function OpenAbsoluteFrame(cfg: Config, st: ArmState, f: Frame, seeded: bool): (r: Outcome)
    requires st.absLast.Some? && |f.positions| == DOF
    requires cfg.Valid() && Inv(cfg, st)
    ensures Inv(cfg, r.state)
    ensures r.target.Some? ==> Within(r.target.value, cfg.minimum, cfg.maximum)
  {
    if !MapsFinite(cfg.order, f.positions) then Quiet(st.(absTime := f.now, absStreaming := false))
    else
      var mapped := JointMapping(Values(f.positions), cfg.order, cfg.signs, cfg.offsets);
      ConcludeAbsolute(st, Limited(cfg, HardClamp(cfg, mapped), st.absLast.value), f, seeded)
  }

  function AbsoluteFrame(cfg: Config, st: ArmState, f: Frame): (r: Outcome)
    requires cfg.Valid() && Inv(cfg, st)
    ensures Inv(cfg, r.state)
    ensures r.target.Some? ==> Within(r.target.value, cfg.minimum, cfg.maximum)
  {
    if |f.positions| != DOF || (!st.absStreaming && f.seed.None?) then Quiet(st)
    else
      var open := if st.absStreaming then st else st.(absLast := Some(HardClamp(cfg, f.seed.value)));
      OpenAbsoluteFrame(cfg, open, f, !st.absStreaming)
  }

  function TimeoutCheck(cfg: Config, st: ArmState, now: real, absolute: bool): (r: Outcome)
    requires cfg.Valid() && Inv(cfg, st)
    ensures Inv(cfg, r.state)
    ensures r.target.Some? ==> Within(r.target.value, cfg.minimum, cfg.maximum)
  {
    if !PathStreaming(st, absolute) || PathActive(cfg, st, absolute, now) then Quiet(st)
    else
      var ended := if absolute then ResetAbsolute(st) else ResetTeleop(st);
      Outcome(ended, None, false, !PathActive(cfg, st, !absolute, now))
  }

  function EnterMode(st: ArmState): ArmState {
    ResetAbsolute(st.(streaming := false, gentoRef := None, lastCommand := None))
  }

  function Step(cfg: Config, st: ArmState, ev: ArmEvent): (r: Outcome)
    requires cfg.Valid() && Inv(cfg, st)
    ensures Inv(cfg, r.state)
    ensures r.target.Some? ==> Within(r.target.value, cfg.minimum, cfg.maximum)
  {
    match ev
    case Relative(f) => RelativeFrame(cfg, st, f)
    case Absolute(f) => AbsoluteFrame(cfg, st, f)
    case Timeout(now, absolute) => TimeoutCheck(cfg, st, now, absolute)
    case ModeEntered => Quiet(EnterMode(st))
    case Reset => Quiet(ResetAbsolute(ResetTeleop(st)))
  }
}
