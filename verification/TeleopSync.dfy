/** The two-phase handshake with the teleoperation source: align, hold, then ask for TELEOP. */
module TeleopSync {
  import opened Prelude

  const TELEOP_STATE: string := "TELEOP"
  const ALIGNED_TOKEN: string := "SYNCED"
  const SWITCH_SYNC: string := "switch_sync"
  const SWITCH_TELEOP: string := "switch_teleop"

  // ---- Reported states ----

  predicate IsSpace(c: char) {
    '\t' <= c <= '\r' || '\U{1C}' <= c <= ' '
  }

  function UpperChar(c: char): char {
    if 'a' <= c <= 'z' then 'A' + (c - 'a') else c
  }

  function Upper(s: string): (r: string)
    ensures |r| == |s|
  {
    seq(|s|, i requires 0 <= i < |s| => UpperChar(s[i]))
  }

  function StripLeft(s: string): string {
    if s != "" && IsSpace(s[0]) then StripLeft(s[1..]) else s
  }

  function StripRight(s: string): string {
    if s != "" && IsSpace(s[|s| - 1]) then StripRight(s[..|s| - 1]) else s
  }

  function Normalize(report: string): Option<string> {
    var stripped := Upper(StripRight(StripLeft(report)));
    if stripped == "" then None else Some(stripped)
  }

  predicate IsTeleop(report: string) {
    Normalize(report) == Some(TELEOP_STATE)
  }

  predicate OccursAt(s: string, token: string, i: int) {
    0 <= i <= |s| - |token| && s[i..i + |token|] == token
  }

  predicate Contains(s: string, token: string) {
    exists i :: 0 <= i <= |s| - |token| && OccursAt(s, token, i)
  }

  predicate IsAligned(report: string) {
    var n := Normalize(report);
    n.Some? && n.value != TELEOP_STATE && Contains(n.value, ALIGNED_TOKEN)
  }

  /** A report that says something else than alignment. */
  predicate IsUnaligned(report: string) {
    Normalize(report).Some? && !IsAligned(report)
  }

  predicate Trimmed(s: string) {
    s != "" ==> !IsSpace(s[0]) && !IsSpace(s[|s| - 1])
  }

  lemma {:induction false} StripRightTrims(s: string)
    requires s != "" ==> !IsSpace(s[0])
    ensures Trimmed(StripRight(s))
  {
    if s != "" && IsSpace(s[|s| - 1]) {
      StripRightTrims(s[..|s| - 1]);
    }
  }

  lemma {:induction false} StripLeftTrims(s: string)
    ensures var t := StripLeft(s); t != "" ==> !IsSpace(t[0])
  {
    if s != "" && IsSpace(s[0]) {
      StripLeftTrims(s[1..]);
    }
  }

  /** A normalised state is its own normal form, so the cached state classifies as the report it came from. */
  lemma NormalizedTwice(report: string)
    requires Normalize(report).Some?
    ensures Normalize(Normalize(report).value) == Normalize(report)
  {
    StripLeftTrims(report);
    StripRightTrims(StripLeft(report));
    var n := Normalize(report).value;
    assert Trimmed(n) && Upper(n) == n;
  }

  lemma AlreadyNormal(s: string)
    requires s != "" && Trimmed(s) && forall i :: 0 <= i < |s| ==> !('a' <= s[i] <= 'z')
    ensures Normalize(s) == Some(s)
  {
    assert Upper(s) == s;
  }

  lemma {:induction false} StripRightSkips(s: string, c: char)
    requires IsSpace(c)
    ensures StripRight(s + [c]) == StripRight(s)
  {
    assert (s + [c])[..|s|] == s;
  }

  lemma {:induction false} StripLeftSkips(s: string, c: char)
    requires IsSpace(c)
    ensures StripLeft([c] + s) == StripLeft(s)
    ensures StripRight(StripLeft(s + [c])) == StripRight(StripLeft(s))
    decreases |s|
  {
    assert ([c] + s)[1..] == s;
    if s == "" {
      assert StripLeft([c][1..]) == "" && StripLeft(s + [c]) == "";
    } else if IsSpace(s[0]) {
      assert (s + [c])[1..] == s[1..] + [c];
      StripLeftSkips(s[1..], c);
    } else {
      StripRightSkips(s, c);
    }
  }

  /** Blanks around a report and the case of its letters do not matter. */
  lemma BlanksAndCaseDoNotMatter(s: string, c: char)
    requires IsSpace(c)
    ensures Normalize([c] + s) == Normalize(s) == Normalize(s + [c])
    ensures Normalize(Upper(s)) == Normalize(s)
  {
    StripLeftSkips(s, c);
    StripLeftUpper(s);
    StripRightUpper(StripLeft(s));
    var t := StripRight(StripLeft(s));
    assert Upper(Upper(t)) == Upper(t);
  }

  lemma {:induction false} StripLeftUpper(s: string)
    ensures StripLeft(Upper(s)) == Upper(StripLeft(s))
    decreases |s|
  {
    if s != "" && IsSpace(s[0]) {
      assert Upper(s)[1..] == Upper(s[1..]);
      StripLeftUpper(s[1..]);
    }
  }

  lemma {:induction false} StripRightUpper(s: string)
    ensures StripRight(Upper(s)) == Upper(StripRight(s))
    decreases |s|
  {
    if s != "" && IsSpace(s[|s| - 1]) {
      assert Upper(s)[..|s| - 1] == Upper(s[..|s| - 1]);
      StripRightUpper(s[..|s| - 1]);
    }
  }

  /** An alignment still in progress is neither alignment nor TELEOP. */
  lemma DocumentedStates()
    ensures IsAligned("SYNCED") && IsTeleop("TELEOP") && IsUnaligned("TELEOP_SYNCING") && !IsTeleop("TELEOP_SYNCING")
    ensures IsSpace(' ') && IsSpace('\t') && IsSpace('\n') && IsSpace('\r') && !IsSpace('S') && !IsSpace('_')
  {
    AlreadyNormal("SYNCED");
    AlreadyNormal("TELEOP");
    AlreadyNormal("TELEOP_SYNCING");
    assert OccursAt("SYNCED", ALIGNED_TOKEN, 0);
    forall i | 0 <= i <= 8
      ensures !OccursAt("TELEOP_SYNCING", ALIGNED_TOKEN, i)
    {
      assert "TELEOP_SYNCING"[i..i + 6][4] == "TELEOP_SYNCING"[i + 4];
      assert "TELEOP_SYNCING"[i..i + 6][0] == "TELEOP_SYNCING"[i];
    }
  }

  // ---- The handshake ----

  datatype SyncPhase = PhaseIdle | WaitAligned | WaitTeleop

  datatype HandshakeState =
    HandshakeState(phase: SyncPhase, state: Option<string>, seenUnaligned: bool, alignedSince: Option<real>)
  {
    predicate AlignedReady(wall: real, hold: real) {
      && phase == WaitAligned && seenUnaligned && state.Some? && IsAligned(state.value)
      && alignedSince.Some? && wall - alignedSince.value >= hold
    }

    predicate TeleopReady() {
      phase == WaitTeleop && state.Some? && IsTeleop(state.value)
    }

    function Pending(): Option<string> {
      match phase
      case PhaseIdle => None
      case WaitAligned => Some(SWITCH_SYNC)
      case WaitTeleop => Some(SWITCH_TELEOP)
    }

    function TeleopStarted(): HandshakeState {
      this.(phase := WaitTeleop, state := None)
    }

    function Reported(report: string, wall: real): HandshakeState {
      var n := Normalize(report);
      if n.None? then this
      else
        var heard := this.(state := n);
        if phase != WaitAligned then heard
        else if IsAligned(n.value) then
          if seenUnaligned && alignedSince.None? then heard.(alignedSince := Some(wall)) else heard
        else heard.(seenUnaligned := true, alignedSince := None)
    }
  }

  const AT_REST: HandshakeState := HandshakeState(PhaseIdle, None, false, None)
  const SYNC_STARTED: HandshakeState := HandshakeState(WaitAligned, None, false, None)

  class TeleopHandshake {
    const hold: real
    var phase: SyncPhase
    var state: Option<string>
    var seenUnaligned: bool
    var alignedSince: Option<real>

    ghost function State(): HandshakeState
      reads this
    {
      HandshakeState(phase, state, seenUnaligned, alignedSince)
    }

    constructor (minSyncHold: real)
      ensures State() == AT_REST && hold == Max(0.0, minSyncHold)
    {
      hold := Max(0.0, minSyncHold);
      phase, state, seenUnaligned, alignedSince := PhaseIdle, None, false, None;
    }

    method Reset()
      modifies this
      ensures State() == AT_REST
    {
      phase := PhaseIdle;
      state := None;
      seenUnaligned := false;
      alignedSince := None;
    }

    method StartSync()
      modifies this
      ensures State() == SYNC_STARTED
    {
      phase := WaitAligned;
      state := None;
      seenUnaligned := false;
      alignedSince := None;
    }

    method StartTeleop()
      modifies this
      ensures State() == old(State()).TeleopStarted()
    {
      phase := WaitTeleop;
      state := None;
    }

    method OnState(report: string, wall: real)
      modifies this
      ensures State() == old(State()).Reported(report, wall)
    {
      var normalized := Normalize(report);
      if normalized.None? {
        return;
      }
      NormalizedTwice(report);
      state := normalized;
      if phase != WaitAligned {
        return;
      }
      if IsAligned(normalized.value) {
        if seenUnaligned && alignedSince.None? {
          alignedSince := Some(wall);
        }
        return;
      }
      seenUnaligned := true;
      alignedSince := None;
    }

    method AlignedReady(wall: real) returns (ready: bool)
      ensures ready == State().AlignedReady(wall, hold)
    {
      if phase != WaitAligned || !seenUnaligned || state.None? || !IsAligned(state.value) || alignedSince.None? {
        return false;
      }
      return wall - alignedSince.value >= hold;
    }

    method TeleopReady() returns (ready: bool)
      ensures ready == State().TeleopReady()
    {
      ready := phase == WaitTeleop && state.Some? && IsTeleop(state.value);
    }

    method PendingCommand() returns (command: Option<string>)
      ensures command == State().Pending()
    {
      if phase == WaitAligned {
        return Some(SWITCH_SYNC);
      }
      if phase == WaitTeleop {
        return Some(SWITCH_TELEOP);
      }
      return None;
    }
  }
}
