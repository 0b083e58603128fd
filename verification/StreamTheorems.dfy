/** How a command stream proceeds and how it ends: progress of an absolute command, and the timeout as a watchdog. */
module StreamTheorems {
  import opened Prelude
  import opened JointMath
  import opened JointFacts
  import opened ArmModel
  import opened ArmRuns

  // ---- The end of a stream ----

  /** A timeout check of the path holds the arm. */
  predicate HeldAt(r: ArmRun, i: int, absolute: bool) {
    0 <= i < |r.events| && r.events[i].Timeout? && r.events[i].absolute == absolute && r.outs[i].hold
  }

  /** The other path takes the arm over, or a service ends the session. */
  predicate Superseded(r: ArmRun, i: int, absolute: bool) {
    0 <= i < |r.events| &&
    (Sends(r.events[i], r.outs[i], !absolute) || r.events[i].ModeEntered? || r.events[i].Reset?)
  }

  predicate NonFinite(cfg: Config, ev: ArmEvent, absolute: bool) {
    IsFrame(ev, absolute) && |ev.frame.positions| == DOF && !MapsFinite(cfg.order, ev.frame.positions)
  }

  /** A frame of the path maps to something that is not finite. */
  predicate Poisoned(cfg: Config, r: ArmRun, i: int, absolute: bool) {
    0 <= i < |r.events| && PathStreaming(r.states[i], absolute) && NonFinite(cfg, r.events[i], absolute)
  }

  /** The three ways in which a stream ends. */
  predicate Ends(cfg: Config, r: ArmRun, i: int, absolute: bool) {
    HeldAt(r, i, absolute) || Superseded(r, i, absolute) || Poisoned(cfg, r, i, absolute)
  }

  lemma StepEndsStream(cfg: Config, st: ArmState, ev: ArmEvent, absolute: bool)
    requires cfg.Valid() && Inv(cfg, st) && PathStreaming(st, absolute)
    ensures var o := Step(cfg, st, ev);
      !PathStreaming(o.state, absolute) <==>
        || (ev.Timeout? && ev.absolute == absolute && o.hold)
        || Sends(ev, o, !absolute) || ev.ModeEntered? || ev.Reset?
        || NonFinite(cfg, ev, absolute)
  {
  }

  /** Exactly how a stream ends: held by its timeout, superseded, or poisoned by a non-finite frame. */
  lemma StreamEndsIff(cfg: Config, r: ArmRun, i: nat, absolute: bool)
    requires IsRun(cfg, r) && i < |r.events| && PathStreaming(r.states[i], absolute)
    ensures !PathStreaming(r.states[i + 1], absolute) <==> Ends(cfg, r, i, absolute)
  {
    StepAt(cfg, r, i);
    StepEndsStream(cfg, r.states[i], r.events[i], absolute);
  }

  /** When the SDK core took the latest target on a path. */
  function LastSentTime(r: ArmRun, n: nat, absolute: bool): Option<real>
    requires n <= |r.events|
  {
    if n == 0 then None
    else if Sends(r.events[n - 1], r.outs[n - 1], absolute) then Some(r.events[n - 1].frame.now)
    else LastSentTime(r, n - 1, absolute)
  }

  function Stamp(st: ArmState, absolute: bool): real {
    if absolute then st.absTime else st.lastTime
  }

  lemma RelativeStamps(cfg: Config, st: ArmState, f: Frame)
    requires cfg.Valid() && Inv(cfg, st)
    ensures var o := RelativeFrame(cfg, st, f); var sent := f.accepted && o.target.Some?;
      && (o.state.streaming ==> if sent then o.state.lastTime == f.now else st.streaming && o.state.lastTime == st.lastTime)
      && (o.state.absStreaming ==> st.absStreaming && o.state.absTime == st.absTime)
  {
  }

  lemma StepStamps(cfg: Config, st: ArmState, ev: ArmEvent, absolute: bool)
    requires cfg.Valid() && Inv(cfg, st) && PathStreaming(Step(cfg, st, ev).state, absolute)
    ensures var o := Step(cfg, st, ev);
      if Sends(ev, o, absolute) then Stamp(o.state, absolute) == ev.frame.now
      else PathStreaming(st, absolute) && Stamp(o.state, absolute) == Stamp(st, absolute)
  {
    if ev.Relative? {
      RelativeStamps(cfg, st, ev.frame);
    }
  }

  lemma {:induction false} StreamingRemembersTime(cfg: Config, r: ArmRun, n: nat, absolute: bool)
    requires IsRun(cfg, r) && n <= |r.events| && PathStreaming(r.states[n], absolute)
    ensures LastSentTime(r, n, absolute) == Some(Stamp(r.states[n], absolute))
  {
    assert r.states[0] == INITIAL;
    StepAt(cfg, r, n - 1);
    StepStamps(cfg, r.states[n - 1], r.events[n - 1], absolute);
    if !Sends(r.events[n - 1], r.outs[n - 1], absolute) {
      StreamingRemembersTime(cfg, r, n - 1, absolute);
    }
  }

  /**
   * The watchdog: once a stream's latest command is older than the timeout at one of its checks, the arm has been held, at
   * that check at the latest, unless the stream was superseded or poisoned before.
   */
  lemma {:induction false} StaleStreamIsHeld(cfg: Config, r: ArmRun, i: nat, n: nat, absolute: bool)
    requires IsRun(cfg, r) && i <= n < |r.events| && PathStreaming(r.states[i], absolute)
    requires r.events[n].Timeout? && r.events[n].absolute == absolute
    requires var sent := LastSentTime(r, n, absolute); sent.Some? && r.events[n].now - sent.value > cfg.timeout
    ensures exists k :: i <= k <= n && Ends(cfg, r, k, absolute)
    decreases n - i
  {
    if i == n {
      StreamingRemembersTime(cfg, r, n, absolute);
      TimeoutAlwaysHolds(cfg, r, n);
      assert Ends(cfg, r, n, absolute);
    } else {
      StreamEndsIff(cfg, r, i, absolute);
      if PathStreaming(r.states[i + 1], absolute) {
        StaleStreamIsHeld(cfg, r, i + 1, n, absolute);
      }
    }
  }

  /** A path streams, and the SDK core took its latest command no longer than the timeout before `now`. */
  predicate Recent(cfg: Config, r: ArmRun, n: nat, absolute: bool, now: real)
    requires n <= |r.events|
  {
    var sent := LastSentTime(r, n, absolute);
    PathStreaming(r.states[n], absolute) && sent.Some? && now - sent.value <= cfg.timeout
  }

  lemma ActiveMeansRecent(cfg: Config, r: ArmRun, n: nat, absolute: bool, now: real)
    requires IsRun(cfg, r) && n <= |r.events|
    ensures PathActive(cfg, r.states[n], absolute, now) <==> Recent(cfg, r, n, absolute, now)
  {
    if PathStreaming(r.states[n], absolute) {
      StreamingRemembersTime(cfg, r, n, absolute);
    }
  }

  /** Exactly which checks hold an arm: those that find their path streaming with its latest command older than the timeout.
    * Every other check leaves the arm as it is. */
  lemma CheckHoldsIff(cfg: Config, r: ArmRun, n: nat)
    requires IsRun(cfg, r) && n < |r.events| && r.events[n].Timeout?
    ensures var ev := r.events[n];
      if PathStreaming(r.states[n], ev.absolute) && !Recent(cfg, r, n, ev.absolute, ev.now) then
        r.outs[n].hold && !PathStreaming(r.states[n + 1], ev.absolute)
      else r.outs[n] == Quiet(r.states[n])
  {
    var ev := r.events[n];
    StepAt(cfg, r, n);
    ActiveMeansRecent(cfg, r, n, ev.absolute, ev.now);
    ActiveMeansRecent(cfg, r, n, !ev.absolute, ev.now);
    OneOwner(cfg, r, n);
  }

  lemma RelativeTargetIff(cfg: Config, st: ArmState, f: Frame)
    requires cfg.Valid() && Inv(cfg, st)
    ensures RelativeFrame(cfg, st, f).target.Some? <==>
      && !PathActive(cfg, st, true, f.now) && |f.positions| == DOF
      && (forall out :: 0 <= out < DOF ==> f.positions[cfg.order[out]].Fin?)
      && (st.streaming || f.seed.Some?)
    ensures PathActive(cfg, st, true, f.now) ==> RelativeFrame(cfg, st, f) == Quiet(st)
  {
  }

  lemma AbsoluteTargetIff(cfg: Config, st: ArmState, f: Frame)
    requires cfg.Valid() && Inv(cfg, st)
    ensures AbsoluteFrame(cfg, st, f).target.Some? <==>
      && |f.positions| == DOF && (forall out :: 0 <= out < DOF ==> f.positions[cfg.order[out]].Fin?)
      && (st.absStreaming || f.seed.Some?)
  {
  }

  /**
   * Exactly which messages lead to a target: seven positions, finite where the order reads them, and a running session or
   * feedback to open one. A relative message also has to find the absolute path silent for longer than the timeout, or not
   * streaming; until then it changes nothing.
   */
  lemma TargetIff(cfg: Config, r: ArmRun, i: nat, absolute: bool)
    requires IsRun(cfg, r) && i < |r.events| && IsFrame(r.events[i], absolute)
    ensures var f := r.events[i].frame;
      r.outs[i].target.Some? <==>
        && |f.positions| == DOF && (forall out :: 0 <= out < DOF ==> f.positions[cfg.order[out]].Fin?)
        && (PathStreaming(r.states[i], absolute) || f.seed.Some?)
        && (absolute || !Recent(cfg, r, i, true, f.now))
    ensures !absolute && Recent(cfg, r, i, true, r.events[i].frame.now) ==> r.outs[i] == Quiet(r.states[i])
  {
    StepAt(cfg, r, i);
    ActiveMeansRecent(cfg, r, i, true, r.events[i].frame.now);
    if absolute {
      AbsoluteTargetIff(cfg, r.states[i], r.events[i].frame);
    } else {
      RelativeTargetIff(cfg, r.states[i], r.events[i].frame);
    }
  }

  /** A session's cycle time is the time since the latest command that the SDK core took, kept between 0.1 and 50 ms. */
  lemma CycleTimeIsElapsed(cfg: Config, r: ArmRun, i: nat, now: real)
    requires IsRun(cfg, r) && i <= |r.events| && r.states[i].streaming
    ensures var sent := LastSentTime(r, i, false);
      && sent.Some?
      && (sent.value > 0.0 && 0.0001 <= now - sent.value <= 0.05 ==> CycleTime(r.states[i], now) == now - sent.value)
      && (sent.value > 0.0 && now - sent.value < 0.0001 ==> CycleTime(r.states[i], now) == 0.0001)
      && (sent.value > 0.0 && now - sent.value > 0.05 ==> CycleTime(r.states[i], now) == 0.05)
  {
    StreamingRemembersTime(cfg, r, i, false);
  }

  predicate Unowned(st: ArmState) {
    !st.streaming && !st.absStreaming
  }

  lemma UnownedStep(cfg: Config, st: ArmState, ev: ArmEvent)
    requires cfg.Valid() && Inv(cfg, st) && Unowned(st)
    ensures var o := Step(cfg, st, ev);
      !o.hold && (!Sends(ev, o, false) && !Sends(ev, o, true) ==> Unowned(o.state))
  {
  }

  lemma PoisonedStep(cfg: Config, st: ArmState, ev: ArmEvent, absolute: bool)
    requires cfg.Valid() && Inv(cfg, st) && PathStreaming(st, absolute) && NonFinite(cfg, ev, absolute)
    ensures Unowned(Step(cfg, st, ev).state) && !Step(cfg, st, ev).hold && Step(cfg, st, ev).target.None?
  {
  }

  /** The exception: a non-finite frame ends its stream without a hold, and nothing holds the arm until a later command is
    * taken, however many timeout checks follow. */
  lemma {:induction false} PoisonedArmIsNotHeld(cfg: Config, r: ArmRun, k: nat, n: nat, absolute: bool)
    requires IsRun(cfg, r) && k < n <= |r.events| && Poisoned(cfg, r, k, absolute)
    requires forall j :: k < j < n ==> !Sends(r.events[j], r.outs[j], false) && !Sends(r.events[j], r.outs[j], true)
    ensures Unowned(r.states[n]) && forall j :: k <= j < n ==> !r.outs[j].hold
  {
    StepAt(cfg, r, n - 1);
    if n == k + 1 {
      PoisonedStep(cfg, r.states[k], r.events[k], absolute);
    } else {
      PoisonedArmIsNotHeld(cfg, r, k, n - 1, absolute);
      UnownedStep(cfg, r.states[n - 1], r.events[n - 1]);
    }
  }

  // ---- Progress of an absolute command ----

  /** An absolute frame that asks for `goal`, once clamped, and that the SDK core takes. */
  predicate Aims(cfg: Config, ev: ArmEvent, goal: Pose) {
    && ev.Absolute? && ev.frame.accepted && |ev.frame.positions| == DOF && MapsFinite(cfg.order, ev.frame.positions)
    && HardClamp(cfg, JointMapping(Values(ev.frame.positions), cfg.order, cfg.signs, cfg.offsets)) == goal
  }

  /** Event `i` asks for `goal`, or is without effect. */
  predicate HeadsFor(cfg: Config, r: ArmRun, i: nat, goal: Pose)
    requires i < |r.events|
  {
    Aims(cfg, r.events[i], goal) || (!r.events[i].Absolute? && r.outs[i] == Quiet(r.states[i]))
  }

  function AbsoluteFrames(r: ArmRun, a: nat, b: nat): nat
    requires a <= b <= |r.events|
  {
    if a == b then 0 else AbsoluteFrames(r, a, b - 1) + if r.events[b - 1].Absolute? then 1 else 0
  }

  lemma LimitDeltaCuts(goal: real, last: real, maxDelta: real)
    requires maxDelta > 0.0
    ensures Abs(goal - LimitDelta(goal, last, maxDelta)) == Max(0.0, Abs(goal - last) - maxDelta)
  {
  }

  /** What is left of the way from `base` to `goal` on a joint after `n` frames. */
  predicate LeftOnTheWay(cfg: Config, last: Option<Pose>, goal: Pose, base: Pose, n: nat, out: int)
    requires 0 <= out < DOF
  {
    last.Some? && Abs(goal[out] - last.value[out]) == Max(0.0, Abs(goal[out] - base[out]) - Times(n, cfg.maxDelta))
  }

  lemma WayShrinks(cfg: Config, goal: Pose, base: Pose, last: Pose, n: nat, out: int)
    requires cfg.Valid() && 0 <= out < DOF && LeftOnTheWay(cfg, Some(last), goal, base, n, out)
    ensures LeftOnTheWay(cfg, Some(LimitDeltas(goal, last, cfg.maxDelta)), goal, base, n + 1, out)
  {
    LimitDeltaCuts(goal[out], last[out], cfg.maxDelta);
    OneMore(n, cfg.maxDelta);
  }

  lemma AimedFrame(cfg: Config, st: ArmState, ev: ArmEvent, goal: Pose, base: Pose)
    requires cfg.Valid() && Inv(cfg, st) && Aims(cfg, ev, goal)
    requires SlewBase(cfg, st.absLast, st.absStreaming, ev.frame.seed) == Some(base)
    ensures var o := Step(cfg, st, ev);
      && o.state.absStreaming && o.target == o.state.absLast == Some(LimitDeltas(goal, base, cfg.maxDelta))
  {
    ClampAfterSlewIsIdentity(goal, base, cfg.minimum, cfg.maximum, cfg.maxDelta);
  }

  /** The absolute path owns the arm, with so much of the way left. */
  predicate Underway(cfg: Config, st: ArmState, goal: Pose, base: Pose, n: nat, out: int)
    requires 0 <= out < DOF
  {
    st.absStreaming && LeftOnTheWay(cfg, st.absLast, goal, base, n, out)
  }

  lemma AimedStep(cfg: Config, st: ArmState, ev: ArmEvent, goal: Pose, base: Pose, n: nat, out: int)
    requires cfg.Valid() && Inv(cfg, st) && Aims(cfg, ev, goal) && 0 <= out < DOF
    requires Underway(cfg, st, goal, base, n, out) ||
             (n == 0 && SlewBase(cfg, st.absLast, st.absStreaming, ev.frame.seed) == Some(base))
    ensures var o := Step(cfg, st, ev); Underway(cfg, o.state, goal, base, n + 1, out) && o.target == o.state.absLast
  {
    var last := SlewBase(cfg, st.absLast, st.absStreaming, ev.frame.seed).value;
    OneMore(0, cfg.maxDelta);
    AimedFrame(cfg, st, ev, goal, last);
    WayShrinks(cfg, goal, base, last, n, out);
  }

  lemma EventArrives(cfg: Config, r: ArmRun, i: nat, goal: Pose, base: Pose, n: nat, out: int)
    requires IsRun(cfg, r) && i < |r.events| && HeadsFor(cfg, r, i, goal) && 0 <= out < DOF
    requires var st, ev := r.states[i], r.events[i];
      || Underway(cfg, st, goal, base, n, out)
      || (n == 0 && Aims(cfg, ev, goal) && SlewBase(cfg, st.absLast, st.absStreaming, ev.frame.seed) == Some(base))
    ensures Underway(cfg, r.states[i + 1], goal, base, n + if r.events[i].Absolute? then 1 else 0, out)
    ensures r.events[i].Absolute? ==> r.outs[i].target == r.states[i + 1].absLast
  {
    StepAt(cfg, r, i);
    if Aims(cfg, r.events[i], goal) {
      AimedStep(cfg, r.states[i], r.events[i], goal, base, n, out);
    }
  }

  /** n frames that ask for one and the same pose leave max(0, d - n maxDelta) of each joint's distance to it, from the
    * path's last command, or from the clamped measured pose if the first frame opens the session. */
  lemma {:induction false} AbsoluteCommandArrives(cfg: Config, r: ArmRun, a: nat, b: nat, goal: Pose, base: Pose, out: int)
    requires IsRun(cfg, r) && a < b <= |r.events| && Aims(cfg, r.events[a], goal) && 0 <= out < DOF
    requires SlewBase(cfg, r.states[a].absLast, r.states[a].absStreaming, r.events[a].frame.seed) == Some(base)
    requires forall i :: a < i < b ==> HeadsFor(cfg, r, i, goal)
    ensures Underway(cfg, r.states[b], goal, base, AbsoluteFrames(r, a, b), out)
    ensures r.events[b - 1].Absolute? ==> r.outs[b - 1].target == r.states[b].absLast
    decreases b
  {
    var i: nat := b - 1;
    if a < i {
      AbsoluteCommandArrives(cfg, r, a, i, goal, base, out);
    }
    EventArrives(cfg, r, i, goal, base, AbsoluteFrames(r, a, i), out);
  }
}
