/** The driver node's handlers for one arm, updating their session state step by step. */
module ArmSession {
  import opened Prelude
  import opened JointMath
  import opened JointLoops
  import opened JointFacts
  import opened ArmModel
  import opened Controller

  /** The frame a handler works on, given the core it reads feedback from and sends its target to. */
  function FrameFor(core: CoreState, now: real, positions: seq<Double>, seed: Option<Pose>, measured: Option<Pose>,
                    sdkOk: bool): Frame
  {
    Frame(now, positions, if core.linked then seed else None, if core.linked then measured else None,
          CommandAllowed(core) && sdkOk)
  }

  /** The SDK calls that a handler's target causes. */
  function CallsFor(core: CoreState, side: Side, target: Option<Pose>, sdkOk: bool): seq<SdkCall> {
    if target.None? then [] else CoreStep(core, OpSend(side, target.value, sdkOk)).calls
  }

  class Arm {
    const cfg: Config
    var streaming: bool
    var gentoSet: bool
    const gentoRef: array<real>
    const leaderPrev: array<real>
    const leaderContinuous: array<real>
    const leaderContRef: array<real>
    var lastCommand: Option<Pose>
    var lastTime: real
    var still: real
    var absStreaming: bool
    var absLast: Option<Pose>
    var absTime: real

    ghost function Repr(): set<object> {
      {this, gentoRef, leaderPrev, leaderContinuous, leaderContRef}
    }

    ghost predicate Wired() {
      && gentoRef.Length == leaderPrev.Length == leaderContinuous.Length == leaderContRef.Length == DOF
      && gentoRef != leaderPrev && gentoRef != leaderContinuous && gentoRef != leaderContRef
      && leaderPrev != leaderContinuous && leaderPrev != leaderContRef && leaderContinuous != leaderContRef
    }

    ghost function State(): ArmState
      reads Repr()
      requires Wired()
    {
      ArmState(streaming, if gentoSet then Some(gentoRef[..]) else None, leaderPrev[..], leaderContinuous[..],
               leaderContRef[..], lastCommand, lastTime, still, absStreaming, absLast, absTime)
    }

    ghost predicate Valid()
      reads Repr()
    {
      Wired() && cfg.Valid() && Inv(cfg, State())
    }

    constructor (cfg: Config)
      requires cfg.Valid()
      ensures this.cfg == cfg && Valid() && State() == INITIAL && fresh(Repr())
    {
      this.cfg := cfg;
      streaming, gentoSet, absStreaming := false, false, false;
      gentoRef := new real[DOF](_ => 0.0);
      leaderPrev := new real[DOF](_ => 0.0);
      leaderContinuous := new real[DOF](_ => 0.0);
      leaderContRef := new real[DOF](_ => 0.0);
      lastCommand, absLast := None, None;
      lastTime, still, absTime := 0.0, 0.0, 0.0;
      new;
      assert leaderPrev[..] == leaderContinuous[..] == leaderContRef[..] == ORIGIN;
    }

    method ResetTeleopSession()
      requires Wired()
      modifies this
      ensures State() == ResetTeleop(old(State())) && (old(Valid()) ==> Valid())
    {
      gentoSet := false;
      lastCommand := None;
      streaming := false;
      still := 0.0;
    }

    method ResetAbsoluteSession()
      requires Wired()
      modifies this
      ensures State() == ResetAbsolute(old(State())) && (old(Valid()) ==> Valid())
    {
      absLast := None;
      absStreaming := false;
    }

    function IsStreaming(absolute: bool): (b: bool)
      reads Repr()
      requires Wired()
      ensures b == PathStreaming(State(), absolute)
    {
      if absolute then absStreaming else streaming
    }

    function IsActive(absolute: bool, now: real): (b: bool)
      reads Repr()
      requires Wired()
      ensures b == PathActive(cfg, State(), absolute, now)
    {
      IsStreaming(absolute) && now - (if absolute then absTime else lastTime) <= cfg.timeout
    }

    /** The refs of a new session: the leader as it is, the follower where it is measured. */
    method OpenSession(leader: Pose, measured: Pose)
      requires Valid() && !streaming
      modifies this, gentoRef, leaderPrev, leaderContinuous, leaderContRef
      ensures Valid() && State() == Seed(cfg, old(State()), leader, measured)
    {
      var feedback := ClampInto(measured, cfg.minimum, cfg.maximum);
      CopyInto(leaderPrev, leader);
      CopyInto(leaderContinuous, leader);
      CopyInto(leaderContRef, leader);
      CopyInto(gentoRef, feedback);
      gentoSet := true;
      lastCommand := Some(feedback);
    }

    method MapLeader(leader: Pose) returns (mapped: Pose)
      requires Wired() && gentoSet
      modifies leaderContinuous
      ensures mapped == Mapped(cfg, old(State()), leader)
      ensures State() == old(State()).(leaderContinuous := Continued(cfg, old(State()), leader))
    {
      if cfg.relative {
        mapped := ApplyRelativeMapping(leader, leaderPrev[..], leaderContinuous, leaderContRef, gentoRef,
                                       cfg.order, cfg.signs);
      } else {
        mapped := ApplyJointMapping(leader, cfg.order, cfg.signs, cfg.offsets);
      }
    }

    /** Leash the mapped command, then nudge the follower reference toward calibration. */
    method LeashAndResync(mapped: Pose, delta: Pose, dt: real)
      requires Wired() && dt > 0.0
      modifies gentoRef
      ensures gentoRef[..] == Nudge(cfg, mapped, old(gentoRef[..]), leaderContRef[..], delta, dt, still)
    {
      var raw := new real[DOF](i requires 0 <= i < DOF => mapped[i]);
      assert raw[..] == mapped;
      var _ := ApplyBoundedLeash(raw, gentoRef, leaderContRef[..], cfg.Leash());
      var soft := ApplySoftCompress(cfg.tanh, raw[..], cfg.minimum, cfg.maximum, cfg.compressDelta);
      var _ := ApplyOffsetResync(gentoRef, leaderContRef[..], soft, RateLimits(cfg, delta, dt, still), cfg.Resync());
    }

    /** Map the leader once more as if it had not moved since this frame. */
    method Remap(leader: Pose) returns (mapped: Pose)
      requires Wired()
      modifies leaderContinuous
      ensures mapped == RelativeMapping(leader, leader, leaderContinuous[..], leaderContRef[..], gentoRef[..],
                                        cfg.order, cfg.signs)
      ensures leaderContinuous[..] == old(leaderContinuous[..])
    {
      StillLeader(DOF, leader, leaderContinuous[..], cfg.order);
      mapped := ApplyRelativeMapping(leader, leader, leaderContinuous, leaderContRef, gentoRef, cfg.order, cfg.signs);
    }

    method AssistCommand(mapped: Pose, leader: Pose, delta: Pose, dt: real) returns (desired: Pose)
      requires Wired() && dt > 0.0
      modifies this`still, gentoRef, leaderContinuous
      ensures var s := Assist(cfg, mapped, old(gentoRef[..]), leader, old(leaderContinuous[..]), leaderContRef[..],
                              delta, dt, old(still));
        desired == s.desired && gentoRef[..] == s.gentoRef && still == s.still
      ensures leaderContinuous[..] == old(leaderContinuous[..])
    {
      var disp := MaxDifference(delta, ORIGIN);
      still := if disp < cfg.stillDisplacement then still + dt else 0.0;
      assert still == StillAfter(cfg, old(still), delta, dt);
      LeashAndResync(mapped, delta, dt);
      ghost var nudged: Pose := Nudge(cfg, mapped, old(gentoRef[..]), leaderContRef[..], delta, dt, still);
      var remapped := Remap(leader);
      assert gentoRef[..] == nudged;
      desired := ApplySoftCompress(cfg.tanh, remapped, cfg.minimum, cfg.maximum, cfg.compressDelta);
    }

    method ShapeCommand(mapped: Pose, leader: Pose, delta: Pose, dt: real, frozen: bool) returns (desired: Pose)
      requires Wired() && dt > 0.0
      modifies this`still, gentoRef, leaderContinuous
      ensures var s := Shape(cfg, mapped, old(gentoRef[..]), leader, old(leaderContinuous[..]), leaderContRef[..],
                             delta, dt, old(still), frozen);
        desired == s.desired && gentoRef[..] == s.gentoRef && still == s.still
      ensures leaderContinuous[..] == old(leaderContinuous[..])
    {
      if cfg.relative && cfg.assist && !frozen {
        desired := AssistCommand(mapped, leader, delta, dt);
      } else if cfg.relative && cfg.assist {
        desired := ApplySoftCompress(cfg.tanh, mapped, cfg.minimum, cfg.maximum, cfg.compressDelta);
      } else {
        desired := mapped;
      }
    }

    method TrackingFrozen(measured: Option<Pose>) returns (frozen: bool)
      requires lastCommand.Some?
      ensures frozen == Frozen(cfg, lastCommand.value, measured)
    {
      frozen := false;
      if cfg.relative && cfg.assist && measured.Some? {
        var err := MaxDifference(lastCommand.value, measured.value);
        frozen := err > cfg.trackingFreeze;
      }
    }

    method FrameMotion(leader: Pose) returns (delta: Pose)
      requires Wired()
      ensures delta == FrameDelta(leader, leaderPrev[..])
    {
      var a := new real[DOF](_ => 0.0);
      for i := 0 to DOF
        invariant forall k :: 0 <= k < i ==> a[k] == Unwrap(leader[k] - leaderPrev[k])
      {
        a[i] := Unwrap(leader[i] - leaderPrev[i]);
      }
      delta := a[..];
    }

    /** From a finite frame to the command that the slew limit sees, leaving the references as the clutch left them. */
    method TrackReferences(leader: Pose, mapped: Pose, ghost st: ArmState, ghost f: Frame, dt: real, frozen: bool)
      returns (clamped: Pose)
      requires Wired() && cfg.Valid() && Open(st)
      requires mapped == Mapped(cfg, st, leader) && State() == st.(leaderContinuous := Continued(cfg, st, leader))
      requires dt == CycleTime(st, f.now) && frozen == Frozen(cfg, st.lastCommand.value, f.measured)
      modifies this`still, gentoRef, leaderPrev, leaderContinuous, leaderContRef
      ensures clamped == HardClamp(cfg, ShapedCommand(cfg, st, leader, f).desired)
      ensures State() == Clutched(cfg, st, leader, f)
    {
      var delta := FrameMotion(leader);
      CopyInto(leaderPrev, leader);
      var desired := ShapeCommand(mapped, leader, delta, dt, frozen);
      clamped := ClampInto(desired, cfg.minimum, cfg.maximum);
      if cfg.relative && !frozen {
        var _ := ClutchSaturatedJoints(desired, clamped, leaderContinuous[..], leaderContRef, gentoRef, cfg.order);
      }
    }

    method HandleCommand(side: Side, core: DriverCore, now: real, positions: seq<Double>, seed: Option<Pose>,
                         measured: Option<Pose>, sdkOk: bool) returns (ghost r: Outcome)
      requires Valid()
      modifies this, gentoRef, leaderPrev, leaderContinuous, leaderContRef, core`log
      ensures Valid() && core.State() == old(core.State())
      ensures r == Step(cfg, old(State()), Relative(FrameFor(core.State(), now, positions, seed, measured, sdkOk)))
      ensures State() == r.state
      ensures core.log == old(core.log) + CallsFor(core.State(), side, r.target, sdkOk)
    {
      var f := FrameFor(core.State(), now, positions, seed, measured, sdkOk);
      r := RelativeFrame(cfg, State(), f);
      if IsActive(true, now) {
        return;
      }
      if |positions| != DOF {
        return;
      }
      var leader := Values(positions);
      if !streaming {
        if !core.linked || seed.None? {
          return;
        }
        OpenSession(leader, seed.value);
      }
      HandleOpenFrame(side, core, leader, f, sdkOk, r.seeded);
    }

    /** A frame of an open session: map it, and end the session if the result is not finite. */
    method HandleOpenFrame(side: Side, core: DriverCore, leader: Pose, f: Frame, sdkOk: bool, ghost seeded: bool)
      requires Valid() && Open(State()) && |f.positions| == DOF && leader == Values(f.positions)
      requires f.accepted == (CommandAllowed(core.State()) && sdkOk)
      modifies this, gentoRef, leaderPrev, leaderContinuous, leaderContRef, core`log
      ensures core.State() == old(core.State())
      ensures var o := OpenFrame(cfg, old(State()), leader, f, seeded);
        State() == o.state && core.log == old(core.log) + CallsFor(core.State(), side, o.target, sdkOk)
    {
      ghost var open := State();
      var mapped := MapLeader(leader);
      if !MapsFinite(cfg.order, f.positions) {
        lastTime := f.now;
        streaming := false;
        return;
      }
      TrackFrame(side, core, leader, mapped, open, f, sdkOk, seeded);
    }

    /** A finite frame of an open session, from its mapped command to the SDK. */
    method TrackFrame(side: Side, core: DriverCore, leader: Pose, mapped: Pose, ghost st: ArmState, f: Frame, sdkOk: bool,
                      ghost seeded: bool)
      requires Wired() && cfg.Valid() && Inv(cfg, st) && Open(st)
      requires mapped == Mapped(cfg, st, leader) && State() == st.(leaderContinuous := Continued(cfg, st, leader))
      requires f.accepted == (CommandAllowed(core.State()) && sdkOk)
      modifies this, gentoRef, leaderPrev, leaderContinuous, leaderContRef, core`log
      ensures core.State() == old(core.State())
      ensures var o := Track(cfg, st, leader, f, seeded);
        State() == o.state && core.log == old(core.log) + CallsFor(core.State(), side, o.target, sdkOk)
    {
      var dt := if streaming && lastTime > 0.0 then Clamp(f.now - lastTime, 0.0001, 0.05) else 0.004;
      var frozen := TrackingFrozen(f.measured);
      var clamped := TrackReferences(leader, mapped, st, f, dt, frozen);
      Dispatch(side, core, clamped, f, sdkOk, seeded);
    }

    /** Slew limit, clamp, send; a target that the core takes makes this path the arm's owner. */
    method Dispatch(side: Side, core: DriverCore, clamped: Pose, f: Frame, sdkOk: bool, ghost seeded: bool)
      requires Wired() && lastCommand.Some? && f.accepted == (CommandAllowed(core.State()) && sdkOk)
      modifies this, core`log
      ensures core.State() == old(core.State())
      ensures var target := Limited(cfg, clamped, old(lastCommand).value);
        State() == Conclude(old(State()), target, f, seeded).state
        && core.log == old(core.log) + CallsFor(core.State(), side, Some(target), sdkOk)
    {
      var limited := ApplyLimitDelta(clamped, lastCommand.value, cfg.maxDelta);
      var target := ClampInto(limited, cfg.minimum, cfg.maximum);
      var sent := core.SendPosition(side, target, sdkOk);
      if sent {
        OwnArm(target, f, seeded);
      }
    }

    /** The relative path owns the arm from a sent target on; an absolute session ends. */
    method OwnArm(target: Pose, f: Frame, ghost seeded: bool)
      requires Wired() && f.accepted
      modifies this
      ensures State() == Conclude(old(State()), target, f, seeded).state
    {
      lastCommand := Some(target);
      lastTime := f.now;
      streaming := true;
      if absStreaming {
        ResetAbsoluteSession();
      }
    }

    method HandleAbsoluteCommand(side: Side, core: DriverCore, now: real, positions: seq<Double>, seed: Option<Pose>,
                                 sdkOk: bool) returns (ghost r: Outcome)
      requires Valid()
      modifies this, core`log
      ensures Valid() && core.State() == old(core.State())
      ensures r == Step(cfg, old(State()), Absolute(FrameFor(core.State(), now, positions, seed, None, sdkOk)))
      ensures State() == r.state
      ensures core.log == old(core.log) + CallsFor(core.State(), side, r.target, sdkOk)
    {
      var f := FrameFor(core.State(), now, positions, seed, None, sdkOk);
      r := AbsoluteFrame(cfg, State(), f);
      if |positions| != DOF {
        return;
      }
      if !absStreaming {
        if !core.linked || seed.None? {
          return;
        }
        var feedback := ClampInto(seed.value, cfg.minimum, cfg.maximum);
        absLast := Some(feedback);
      }
      HandleOpenAbsoluteFrame(side, core, f, sdkOk, r.seeded);
    }

    /** An absolute frame of an open session: map it, and end the session if the result is not finite. */
    method HandleOpenAbsoluteFrame(side: Side, core: DriverCore, f: Frame, sdkOk: bool, ghost seeded: bool)
      requires Valid() && absLast.Some? && |f.positions| == DOF
      requires f.accepted == (CommandAllowed(core.State()) && sdkOk)
      modifies this, core`log
      ensures core.State() == old(core.State())
      ensures var o := OpenAbsoluteFrame(cfg, old(State()), f, seeded);
        State() == o.state && core.log == old(core.log) + CallsFor(core.State(), side, o.target, sdkOk)
    {
      var mapped := ApplyJointMapping(Values(f.positions), cfg.order, cfg.signs, cfg.offsets);
      if !MapsFinite(cfg.order, f.positions) {
        absTime := f.now;
        absStreaming := false;
        return;
      }
      var clamped := ClampInto(mapped, cfg.minimum, cfg.maximum);
      DispatchAbsolute(side, core, clamped, f, sdkOk, seeded);
    }

    method DispatchAbsolute(side: Side, core: DriverCore, clamped: Pose, f: Frame, sdkOk: bool, ghost seeded: bool)
      requires Wired() && absLast.Some? && f.accepted == (CommandAllowed(core.State()) && sdkOk)
      modifies this, core`log
      ensures core.State() == old(core.State())
      ensures var target := Limited(cfg, clamped, old(absLast).value);
        State() == ConcludeAbsolute(old(State()), target, f, seeded).state
        && core.log == old(core.log) + CallsFor(core.State(), side, Some(target), sdkOk)
    {
      var limited := ApplyLimitDelta(clamped, absLast.value, cfg.maxDelta);
      var target := ClampInto(limited, cfg.minimum, cfg.maximum);
      var sent := core.SendPosition(side, target, sdkOk);
      if sent {
        OwnArmAbsolutely(target, f, seeded);
      }
    }

    /** The absolute path owns the arm from a sent target on; a relative session ends. */
    method OwnArmAbsolutely(target: Pose, f: Frame, ghost seeded: bool)
      requires Wired() && f.accepted
      modifies this
      ensures State() == ConcludeAbsolute(old(State()), target, f, seeded).state
    {
      absLast := Some(target);
      absTime := f.now;
      absStreaming := true;
      if streaming {
        ResetTeleopSession();
      }
    }

    /** One path's timeout: end its session, and hold the arm unless the other path is active. */
    method CheckTimeout(side: Side, core: DriverCore, now: real, absolute: bool, replies: Replies, reply: HoldReply)
      requires Valid()
      modifies this, core
      ensures Valid()
      ensures var r := Step(cfg, old(State()), Timeout(now, absolute)); var c := old(core.State());
        var held := if r.hold then CoreStep(c, OpHoldArm(side, replies, reply)) else CoreOutcome(c, false, []);
        State() == r.state && core.State() == held.state && core.log == old(core.log) + held.calls
    {
      if !IsStreaming(absolute) || IsActive(absolute, now) {
        return;
      }
      if !IsActive(!absolute, now) {
        var _ := core.HoldCurrentArm(side, replies, reply);
      }
      if absolute {
        ResetAbsoluteSession();
      } else {
        ResetTeleopSession();
      }
    }

    method ResetSessions()
      requires Valid()
      modifies this
      ensures Valid() && State() == Step(cfg, old(State()), Reset).state
    {
      ResetTeleopSession();
      ResetAbsoluteSession();
    }

    method OnModeEntered()
      requires Valid()
      modifies this
      ensures Valid() && State() == Step(cfg, old(State()), ModeEntered).state
    {
      streaming := false;
      gentoSet := false;
      lastCommand := None;
      ResetAbsoluteSession();
    }
  }
}
