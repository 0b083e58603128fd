/** HUMAN is entered exactly on complete, ordered evidence gathered since the last takeover. */
module HandshakeTheorems {
  import opened Prelude
  import opened ControlMode
  import opened TeleopSync
  import opened Arbiter
  import opened ArbiterRuns

  // ---- Evidence, stated on events and publications only ----

  predicate Heard(r: Run, i: int) {
    0 <= i < |r.events| && r.events[i].TeleopState? && Normalize(r.events[i].report).Some?
  }

  predicate UnalignedReport(r: Run, i: int) {
    Heard(r, i) && IsUnaligned(r.events[i].report)
  }

  predicate AlignedReport(r: Run, i: int) {
    Heard(r, i) && IsAligned(r.events[i].report)
  }

  predicate TeleopReport(r: Run, i: int) {
    Heard(r, i) && IsTeleop(r.events[i].report)
  }

  predicate AsksTeleop(r: Run, i: int) {
    0 <= i < |r.events| && ModeCommand(SWITCH_TELEOP) in r.outs[i]
  }

  /** Positions in a run: the takeover, a non-aligned report, the aligned report that starts the hold, the operator's
    * enter_teleop, the first switch_teleop published, and the last state report. */
  datatype Trail = Trail(takeover: nat, unaligned: nat, aligned: nat, request: nat, asked: nat, report: nat)

  predicate HandoverSince(r: Run, a: nat, n: nat)
    requires n <= |r.events|
  {
    a < n && TookOver(r, a) && forall i :: a < i <= n ==> r.states[i].logic.mode == HandoverSync
  }

  predicate NoUnaligned(r: Run, from: nat, to: nat) {
    forall i :: from < i < to ==> !UnalignedReport(r, i)
  }

  predicate NothingHeard(r: Run, from: nat, to: nat) {
    forall i :: from < i < to ==> !Heard(r, i)
  }

  predicate AlignedUntil(r: Run, t: Trail, n: nat) {
    && t.takeover < t.unaligned < t.aligned < n
    && UnalignedReport(r, t.unaligned) && AlignedReport(r, t.aligned) && NoUnaligned(r, t.aligned, n)
  }

  predicate TeleopAsked(cfg: ArbConfig, r: Run, t: Trail, n: nat)
    requires n <= |r.events|
  {
    && t.takeover < t.request <= t.asked < n && AskedToEnter(r, t.request)
    && AlignedUntil(r, t, t.asked) && AsksTeleop(r, t.asked)
    && WallOf(r.events[t.asked]) - WallOf(r.events[t.aligned]) >= cfg.Hold()
  }

  /** Everything that must have happened, in order, before step `n` may enter HUMAN. */
  predicate Evidence(cfg: ArbConfig, r: Run, n: nat, t: Trail)
    requires n <= |r.events|
  {
    && HandoverSince(r, t.takeover, n)
    && TeleopAsked(cfg, r, t, n)
    && t.asked < t.report < n && TeleopReport(r, t.report) && NothingHeard(r, t.report, n)
  }

  // ---- The evidence behind a handover's state ----

  function NextTrail(st: ArbState, ev: ArbEvent, next: ArbState, n: nat, t: Trail): Trail {
    if Takeover(st, ev) then t.(takeover := n)
    else if ev.TeleopState? then
      t.(report := if Normalize(ev.report).Some? then n else t.report,
         unaligned := if IsUnaligned(ev.report) && st.hs.phase == WaitAligned then n else t.unaligned,
         aligned := if st.hs.alignedSince.None? && next.hs.alignedSince.Some? then n else t.aligned)
    else
      t.(request := if EnterTeleop(st, ev) then n else t.request,
         asked := if st.hs.phase == WaitAligned && next.hs.phase == WaitTeleop then n else t.asked)
  }

  function TrailAt(r: Run, n: nat): Trail
    requires n <= |r.events|
  {
    if n == 0 then Trail(0, 0, 0, 0, 0, 0)
    else NextTrail(r.states[n - 1], r.events[n - 1], r.states[n], n - 1, TrailAt(r, n - 1))
  }

  /** What the handshake's fields say about the past. */
  predicate Supports(cfg: ArbConfig, r: Run, n: nat, t: Trail)
    requires n <= |r.events|
  {
    var st := r.states[n];
    st.logic.mode == HandoverSync ==>
      && HandoverSince(r, t.takeover, n)
      && (st.logic.requested ==> t.takeover < t.request < n && AskedToEnter(r, t.request))
      && (st.hs.phase == WaitAligned && st.hs.seenUnaligned ==>
            t.takeover < t.unaligned < n && UnalignedReport(r, t.unaligned))
      && (st.hs.phase == WaitAligned && st.hs.alignedSince.Some? ==>
            st.hs.seenUnaligned && AlignedUntil(r, t, n) && WallOf(r.events[t.aligned]) == st.hs.alignedSince.value)
      && (st.hs.phase == WaitTeleop ==> TeleopAsked(cfg, r, t, n))
      && (st.hs.phase == WaitTeleop && st.hs.state.Some? ==>
            && t.asked < t.report < n && Heard(r, t.report)
            && Normalize(r.events[t.report].report) == st.hs.state && NothingHeard(r, t.report, n))
  }

  lemma SupportAfterTakeover(cfg: ArbConfig, r: Run, n: nat)
    requires IsRun(cfg, r) && n < |r.events| && TookOver(r, n)
    ensures Supports(cfg, r, n + 1, TrailAt(r, n + 1))
  {
    assert Linked(cfg, r, n);
  }

  lemma SupportAfterReport(cfg: ArbConfig, r: Run, n: nat)
    requires IsRun(cfg, r) && n < |r.events| && r.events[n].TeleopState? && Supports(cfg, r, n, TrailAt(r, n))
    ensures Supports(cfg, r, n + 1, TrailAt(r, n + 1))
  {
    var st, ev := r.states[n], r.events[n];
    assert r.states[n + 1] == st.(hs := st.hs.Reported(ev.report, ev.wall)) by {
      assert Linked(cfg, r, n);
    }
    if Heard(r, n) {
      NormalizedTwice(ev.report);
    }
  }

  /** Only three kinds of events touch the mode machine or the handshake. */
  lemma OthersKeepHandshake(cfg: ArbConfig, st: ArbState, ev: ArbEvent)
    requires !ev.TeleopState? && !ev.SyncTimer? && !Takeover(st, ev) && !EnterTeleop(st, ev) && !Return(st, ev)
    ensures var next := ArbStep(cfg, st, ev).state; next.logic == st.logic && next.hs == st.hs
  {
  }

  /** The step publishes switch_teleop and waits for TELEOP, on a completed alignment hold. */
  predicate Asks(cfg: ArbConfig, st: ArbState, next: ArbState, out: seq<Publication>, wall: real) {
    && st.hs.AlignedReady(wall, cfg.Hold()) && next.hs == st.hs.TeleopStarted()
    && ModeCommand(SWITCH_TELEOP) in out
  }

  lemma EnterEffect(cfg: ArbConfig, st: ArbState, ev: ArbEvent)
    requires EnterTeleop(st, ev)
    ensures var o := ArbStep(cfg, st, ev);
      && o.state.logic == LogicState(HandoverSync, true)
      && (o.state.hs == st.hs || Asks(cfg, st, o.state, o.out, ev.wall))
  {
    var o := ArbStep(cfg, st, ev);
    if o.state.hs != st.hs {
      assert o.out[|o.out| - 1] == ModeCommand(SWITCH_TELEOP);
    }
  }

  lemma TimerEffect(cfg: ArbConfig, st: ArbState, wall: real)
    requires Coherent(st)
    ensures var o := ArbStep(cfg, st, SyncTimer(wall));
      || (o.state.logic.mode == Human && o.state.hs.phase == PhaseIdle)
      || (o.state.logic == st.logic && (o.state.hs == st.hs || (st.logic.requested && Asks(cfg, st, o.state, o.out, wall))))
  {
    var o := ArbStep(cfg, st, SyncTimer(wall));
    if o.state.hs == st.hs.TeleopStarted() != st.hs && o.state.logic == st.logic {
      assert o.out[0] == ModeCommand(SWITCH_TELEOP);
    }
  }

  /** A step that keeps the handshake, or asks for teleoperation, keeps the evidence. */
  lemma SupportCarriesOver(cfg: ArbConfig, r: Run, n: nat)
    requires n < |r.events| && !r.events[n].TeleopState? && !TookOver(r, n)
    requires Coherent(r.states[n]) && Supports(cfg, r, n, TrailAt(r, n))
    requires var st, next := r.states[n], r.states[n + 1];
      && st.logic.mode == next.logic.mode == HandoverSync
      && (st.logic.requested || EnterTeleop(st, r.events[n]) || !next.logic.requested)
      && next.hs == st.hs
    ensures Supports(cfg, r, n + 1, TrailAt(r, n + 1))
  {
  }

  lemma SupportWhenAsking(cfg: ArbConfig, r: Run, n: nat)
    requires n < |r.events| && !r.events[n].TeleopState? && !TookOver(r, n)
    requires Coherent(r.states[n]) && Supports(cfg, r, n, TrailAt(r, n))
    requires var st, next := r.states[n], r.states[n + 1];
      && st.logic.mode == next.logic.mode == HandoverSync
      && (st.logic.requested || EnterTeleop(st, r.events[n])) && next.logic.requested
      && Asks(cfg, st, next, r.outs[n], WallOf(r.events[n]))
    ensures Supports(cfg, r, n + 1, TrailAt(r, n + 1))
  {
  }

  lemma SupportAfterOther(cfg: ArbConfig, r: Run, n: nat)
    requires IsRun(cfg, r) && n < |r.events| && !r.events[n].TeleopState? && !TookOver(r, n)
    requires Coherent(r.states[n]) && Supports(cfg, r, n, TrailAt(r, n))
    ensures Supports(cfg, r, n + 1, TrailAt(r, n + 1))
  {
    assert Linked(cfg, r, n);
    var st, next, ev := r.states[n], r.states[n + 1], r.events[n];
    if EnterTeleop(st, ev) {
      EnterEffect(cfg, st, ev);
    } else if ev.SyncTimer? {
      TimerEffect(cfg, st, ev.wall);
    } else if !Return(st, ev) {
      OthersKeepHandshake(cfg, st, ev);
    }
    if next.logic.mode == HandoverSync {
      if next.hs == st.hs {
        SupportCarriesOver(cfg, r, n);
      } else {
        SupportWhenAsking(cfg, r, n);
      }
    }
  }

  lemma {:induction false} AlwaysSupported(cfg: ArbConfig, r: Run, n: nat)
    requires IsRun(cfg, r) && n <= |r.events|
    ensures Supports(cfg, r, n, TrailAt(r, n))
  {
    if n > 0 {
      AlwaysSupported(cfg, r, n - 1);
      AlwaysCoherent(cfg, r, n - 1);
      if TookOver(r, n - 1) {
        SupportAfterTakeover(cfg, r, n - 1);
      } else if r.events[n - 1].TeleopState? {
        SupportAfterReport(cfg, r, n - 1);
      } else {
        SupportAfterOther(cfg, r, n - 1);
      }
    }
  }

  // ---- The evidence is also enough ----

  lemma AskingWaits(cfg: ArbConfig, st: ArbState, ev: ArbEvent)
    requires Coherent(st) && st.logic.mode == HandoverSync && ArbStep(cfg, st, ev).state.logic.mode == HandoverSync
    requires ModeCommand(SWITCH_TELEOP) in ArbStep(cfg, st, ev).out
    ensures ArbStep(cfg, st, ev).state.hs.phase == WaitTeleop
  {
  }

  lemma WaitingGoesOn(cfg: ArbConfig, st: ArbState, ev: ArbEvent)
    requires Coherent(st) && st.logic.mode == HandoverSync && st.hs.phase == WaitTeleop
    requires ArbStep(cfg, st, ev).state.logic.mode == HandoverSync
    ensures var next := ArbStep(cfg, st, ev).state;
      && next.hs.phase == WaitTeleop && next.logic.requested
      && next.hs.state ==
         if ev.TeleopState? && Normalize(ev.report).Some? then Normalize(ev.report) else st.hs.state
  {
  }

  lemma {:induction false} WaitingSince(cfg: ArbConfig, r: Run, t: Trail, n: nat, m: nat)
    requires IsRun(cfg, r) && n <= |r.events| && HandoverSince(r, t.takeover, n)
    requires TeleopAsked(cfg, r, t, n) && t.asked < m <= n
    ensures r.states[m].hs.phase == WaitTeleop && r.states[m].logic.requested
    ensures t.asked < t.report < m && TeleopReport(r, t.report) && NothingHeard(r, t.report, m) ==>
      r.states[m].hs.state == Some(TELEOP_STATE)
  {
    assert Linked(cfg, r, m - 1);
    assert r.states[m].logic.mode == r.states[m - 1].logic.mode == HandoverSync;
    AlwaysCoherent(cfg, r, m - 1);
    AlwaysCoherent(cfg, r, m);
    if m == t.asked + 1 {
      AskingWaits(cfg, r.states[m - 1], r.events[m - 1]);
    } else {
      WaitingSince(cfg, r, t, n, m - 1);
      WaitingGoesOn(cfg, r.states[m - 1], r.events[m - 1]);
      assert t.report < m - 1 && NothingHeard(r, t.report, m) ==> !Heard(r, m - 1);
    }
  }

  /** A step enters HUMAN exactly when it is a sync timer after, since the last takeover and without a return: a
    * non-aligned report, an aligned one never contradicted for the whole hold time, an accepted enter_teleop, a
    * switch_teleop publication, and a TELEOP report that is newer than it and still the last word. */
  lemma HumanIffEvidence(cfg: ArbConfig, r: Run, n: nat)
    requires IsRun(cfg, r) && n < |r.events|
    ensures r.states[n].logic.mode != Human && r.states[n + 1].logic.mode == Human
      <==> r.events[n].SyncTimer? && exists t :: Evidence(cfg, r, n, t)
  {
    var st := r.states[n];
    assert Linked(cfg, r, n);
    AlwaysCoherent(cfg, r, n);
    EntersWhenReady(cfg, st, r.events[n]);
    if EntersHuman(st, r.events[n]) {
      AlwaysSupported(cfg, r, n);
      var t := TrailAt(r, n);
      NormalizedTwice(r.events[t.report].report);
      assert Evidence(cfg, r, n, t);
    }
    if t :| r.events[n].SyncTimer? && Evidence(cfg, r, n, t) {
      WaitingSince(cfg, r, t, n, n);
      NormalizedTwice(r.events[t.report].report);
    }
  }

  predicate EntersHuman(st: ArbState, ev: ArbEvent) {
    ev.SyncTimer? && st.logic.CanComplete() && st.hs.TeleopReady()
  }

  lemma EntersWhenReady(cfg: ArbConfig, st: ArbState, ev: ArbEvent)
    ensures st.logic.mode != Human && ArbStep(cfg, st, ev).state.logic.mode == Human <==> EntersHuman(st, ev)
  {
  }

  // ---- A handover can always be completed ----

  /** The reports, request and timer ticks that finish a handover. */
  function Completion(cfg: ArbConfig, misaligned: string, aligned: string, teleop: string, wall: real,
                      holdAvailable: bool): seq<ArbEvent>
  {
    [TeleopState(misaligned, wall), TeleopState(aligned, wall),
     Intervention(ENTER_TELEOP, wall, wall + cfg.Hold(), holdAvailable), SyncTimer(wall + cfg.Hold()),
     TeleopState(teleop, wall + cfg.Hold()), SyncTimer(wall + cfg.Hold())]
  }

  function Last(r: Run): ArbState {
    r.states[|r.events|]
  }

  /** `x` begins with everything that happened in `r`. */
  predicate Prolongs(x: Run, r: Run) {
    r.events <= x.events && r.states <= x.states && r.outs <= x.outs
  }

  lemma TwoMore(cfg: ArbConfig, r: Run, a: ArbEvent, b: ArbEvent) returns (x: Run)
    requires IsRun(cfg, r)
    ensures IsRun(cfg, x) && Prolongs(x, r) && x.events == r.events + [a, b]
    ensures Last(x) == ArbStep(cfg, ArbStep(cfg, Last(r), a).state, b).state
  {
    ExtendedRuns(cfg, r, a);
    ExtendedRuns(cfg, Extended(cfg, r, a), b);
    x := Extended(cfg, Extended(cfg, r, a), b);
  }

  predicate ReadyToAsk(cfg: ArbConfig, st: ArbState, wall: real) {
    && st.logic.mode == HandoverSync && !st.hs.TeleopReady()
    && (st.hs.phase == WaitTeleop || st.hs.AlignedReady(wall, cfg.Hold()))
  }

  predicate ReadyToEnter(st: ArbState) {
    st.logic.CanComplete() && st.hs.phase == WaitTeleop
  }

  lemma AlignmentIsHeard(cfg: ArbConfig, r: Run, misaligned: string, aligned: string, wall: real) returns (x: Run)
    requires IsRun(cfg, r) && Last(r).logic.mode == HandoverSync && IsUnaligned(misaligned) && IsAligned(aligned)
    ensures IsRun(cfg, x) && Prolongs(x, r)
    ensures x.events == r.events + [TeleopState(misaligned, wall), TeleopState(aligned, wall)]
    ensures ReadyToAsk(cfg, Last(x), wall + cfg.Hold())
  {
    AlwaysCoherent(cfg, r, |r.events|);
    x := TwoMore(cfg, r, TeleopState(misaligned, wall), TeleopState(aligned, wall));
    NormalizedTwice(misaligned);
    NormalizedTwice(aligned);
  }

  lemma RequestIsServed(cfg: ArbConfig, r: Run, now: real, wall: real, holdAvailable: bool) returns (x: Run)
    requires IsRun(cfg, r) && ReadyToAsk(cfg, Last(r), wall)
    ensures IsRun(cfg, x) && Prolongs(x, r)
    ensures x.events == r.events + [Intervention(ENTER_TELEOP, now, wall, holdAvailable), SyncTimer(wall)]
    ensures ReadyToEnter(Last(x))
  {
    AlwaysCoherent(cfg, r, |r.events|);
    x := TwoMore(cfg, r, Intervention(ENTER_TELEOP, now, wall, holdAvailable), SyncTimer(wall));
  }

  lemma TeleopIsEntered(cfg: ArbConfig, r: Run, teleop: string, wall: real) returns (x: Run)
    requires IsRun(cfg, r) && ReadyToEnter(Last(r)) && IsTeleop(teleop)
    ensures IsRun(cfg, x) && Prolongs(x, r)
    ensures x.events == r.events + [TeleopState(teleop, wall), SyncTimer(wall)]
    ensures Last(x).logic.mode == Human
  {
    x := TwoMore(cfg, r, TeleopState(teleop, wall), SyncTimer(wall));
    NormalizedTwice(teleop);
  }

  /** Every run that is inside a handover is brought to HUMAN by fresh reports and the operator's request: the
    * handshake never waits for something that it has not asked for. */
  lemma HandoverCompletes(cfg: ArbConfig, r: Run, misaligned: string, aligned: string, teleop: string, wall: real,
                          holdAvailable: bool)
    requires IsRun(cfg, r) && Last(r).logic.mode == HandoverSync
    requires IsUnaligned(misaligned) && IsAligned(aligned) && IsTeleop(teleop)
    ensures exists x: Run ::
        IsRun(cfg, x) && Prolongs(x, r) && Last(x).logic.mode == Human
        && x.events == r.events + Completion(cfg, misaligned, aligned, teleop, wall, holdAvailable)
  {
    var x2 := AlignmentIsHeard(cfg, r, misaligned, aligned, wall);
    var x4 := RequestIsServed(cfg, x2, wall, wall + cfg.Hold(), holdAvailable);
    var x6 := TeleopIsEntered(cfg, x4, teleop, wall + cfg.Hold());
    assert x6.events == r.events + Completion(cfg, misaligned, aligned, teleop, wall, holdAvailable);
  }

  // ---- When the hold service is missing ----

  predicate NoServiceSeen(r: Run) {
    forall i :: 0 <= i < |r.events| ==> r.events[i].Intervention? ==> !r.events[i].holdAvailable
  }

  lemma HeldOnTakeover(cfg: ArbConfig) returns (x: Run)
    requires cfg.left.Usable() && cfg.right.Usable()
    ensures IsRun(cfg, x) && Last(x).logic.mode == HandoverSync && NoServiceSeen(x)
    ensures |x.events| == 3 && exists p :: p in x.outs[2] && p.AbsCommand?
  {
    var pose := ORIGIN + ORIGIN;
    var start := History([], [INITIAL], []);
    var taken := TwoMore(cfg, start, JointStates(pose, 0.0), Intervention(TAKEOVER, 0.0, 0.0, false));
    ExtendedRuns(cfg, taken, JointTimer(0.0));
    x := Extended(cfg, taken, JointTimer(0.0));
    assert x.outs[2][0].AbsCommand?;
  }

  lemma HumanWithoutService(cfg: ArbConfig) returns (h: Run)
    requires cfg.left.Usable() && cfg.right.Usable()
    ensures IsRun(cfg, h) && Last(h).logic.mode == Human && NoServiceSeen(h) && |h.events| == 9 && PolicyAt(h, 2)
  {
    var r := HeldOnTakeover(cfg);
    DocumentedStates();
    HandoverCompletes(cfg, r, "TELEOP_SYNCING", "SYNCED", "TELEOP", 0.0, false);
    var more := Completion(cfg, "TELEOP_SYNCING", "SYNCED", "TELEOP", 0.0, false);
    h :| IsRun(cfg, h) && Prolongs(h, r) && Last(h).logic.mode == Human && h.events == r.events + more;
    assert h.outs[2] == r.outs[2];
  }

  lemma ForwardedInHuman(cfg: ArbConfig, r: Run, leader: seq<Double>) returns (x: Run)
    requires IsRun(cfg, r) && Last(r).logic.mode == Human
    ensures IsRun(cfg, x) && Prolongs(x, r) && x.events == r.events + [TeleopJoint(LeftArm, leader)]
    ensures TeleopAt(x, |r.events|)
  {
    ExtendedRuns(cfg, r, TeleopJoint(LeftArm, leader));
    x := Extended(cfg, r, TeleopJoint(LeftArm, leader));
    var last := x.outs[|r.events|][0];
    assert last in x.outs[|r.events|] && FromTeleop(last);
  }

  lemma NoServiceNoHold(cfg: ArbConfig, r: Run)
    requires IsRun(cfg, r) && NoServiceSeen(r)
    ensures forall h :: 0 <= h < |r.events| ==> !HoldRequestedAt(r, h)
  {
    forall h | 0 <= h < |r.events|
      ensures !HoldRequestedAt(r, h)
    {
      OutputsFollowOwnership(cfg, r, h);
    }
  }

  /** Without the hold service, a relative command can follow an absolute one with no hold requested in the whole run. */
  lemma HoldCanBeSkipped(cfg: ArbConfig, leader: seq<Double>)
    requires cfg.left.Usable() && cfg.right.Usable()
    ensures exists r: Run, i, j ::
        IsRun(cfg, r) && 0 <= i < j < |r.events| && PolicyAt(r, i) && TeleopAt(r, j)
        && forall h :: 0 <= h < |r.events| ==> !HoldRequestedAt(r, h)
  {
    var h := HumanWithoutService(cfg);
    var x := ForwardedInHuman(cfg, h, leader);
    assert x.outs[2] == h.outs[2] && PolicyAt(x, 2);
    NoServiceNoHold(cfg, x);
    assert 0 <= 2 < 9 < |x.events| && IsRun(cfg, x) && TeleopAt(x, 9);
  }
}
