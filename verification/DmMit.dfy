/** DM4310 MIT frames: quantised set-points packed into eight bytes, feedback frames, and the terminal wrapper. */
module DmMit {
  import opened Prelude

  type Byte = b: int | 0 <= b < 256

  type Word = w: int | 0 <= w < 0x1_0000_0000

  type Data = s: seq<Byte> | |s| == CAN_MTU witness [0, 0, 0, 0, 0, 0, 0, 0]

  const Q_MAX: real := 12.5
  const DQ_MAX: real := 30.0
  const TAU_MAX: real := 10.0
  const KP_MAX: real := 500.0
  const KD_MAX: real := 5.0
  const CAN_MTU: nat := 8

  // ---- Quantisation ----

  function Levels(bits: nat): (n: nat)
    ensures bits >= 1 ==> n >= 1
  {
    if bits == 0 then 0 else 2 * Levels(bits - 1) + 1
  }

  /** A quantity out of `from`, carried over to a range of size `to`. */
  function Scaled(x: real, from: real, to: real): real
    requires from > 0.0
  {
    x / from * to
  }

  /** The code of a set-point: scaled to the code range, then truncated. */
  function FloatToUint(x: real, lo: real, hi: real, bits: nat): int
    requires lo < hi
  {
    Scaled(Clamp(x, lo, hi) - lo, hi - lo, Levels(bits) as real).Floor
  }

  function UintToFloat(code: int, lo: real, hi: real, bits: nat): real
    requires bits >= 1
  {
    Scaled(code as real, Levels(bits) as real, hi - lo) + lo
  }

  lemma Quotient(x: real, from: real) returns (q: real)
    requires from > 0.0
    ensures q * from == x && forall to :: Scaled(x, from, to) == q * to
  {
    q := x / from;
  }

  lemma TimesOrdered(a: real, b: real, x: real)
    requires x > 0.0
    ensures a <= b <==> a * x <= b * x
  {
    if a > b {
      assert (a - b) * x > 0.0;
    } else {
      assert (b - a) * x >= 0.0;
    }
  }

  lemma ScalesAgree(y: real, m: real, span: real, levels: real)
    requires span > 0.0 && levels > 0.0
    ensures m <= Scaled(y, span, levels) <==> Scaled(m, levels, span) <= y
  {
    var a := Quotient(y, span);
    var b := Quotient(m, levels);
    TimesOrdered(b, a, levels);
    TimesOrdered(b, a, span);
  }

  /** A code is at most a set-point's code exactly when the value it stands for is at most the clamped set-point. */
  lemma CodeIsGreatestBelow(x: real, m: int, lo: real, hi: real, bits: nat)
    requires lo < hi && bits >= 1
    ensures m <= FloatToUint(x, lo, hi, bits) <==> UintToFloat(m, lo, hi, bits) <= Clamp(x, lo, hi)
  {
    ScalesAgree(Clamp(x, lo, hi) - lo, m as real, hi - lo, Levels(bits) as real);
  }

  lemma ScaledEnds(from: real, to: real)
    requires from > 0.0
    ensures Scaled(0.0, from, to) == 0.0 && Scaled(from, from, to) == to
  {
    assert from / from == 1.0 && 0.0 / from == 0.0;
  }

  lemma EndCodes(lo: real, hi: real, bits: nat)
    requires bits >= 1
    ensures UintToFloat(0, lo, hi, bits) == lo && UintToFloat(Levels(bits), lo, hi, bits) == hi
  {
    ScaledEnds(Levels(bits) as real, hi - lo);
  }

  lemma ScaledNext(x: real, from: real, to: real)
    requires from > 0.0 && to > 0.0
    ensures Scaled(x + 1.0, from, to) == Scaled(x, from, to) + Scaled(1.0, from, to)
    ensures Scaled(1.0, from, to) == to / from > 0.0
  {
    var q, one := x / from, 1.0 / from;
    assert (x + 1.0) / from == q + one;
    assert (q + one) * to == q * to + one * to;
    assert one * to > 0.0 && one * to == to / from;
  }

  lemma NextValue(code: int, lo: real, hi: real, bits: nat)
    requires lo < hi && bits >= 1
    ensures UintToFloat(code + 1, lo, hi, bits) == UintToFloat(code, lo, hi, bits) + (hi - lo) / (Levels(bits) as real)
    ensures UintToFloat(code, lo, hi, bits) < UintToFloat(code + 1, lo, hi, bits)
  {
    ScaledNext(code as real, Levels(bits) as real, hi - lo);
    assert (code + 1) as real == code as real + 1.0;
  }

  /** Below the clamped set-point, by less than one step. */
  predicate WithinAStep(read: real, asked: real, lo: real, hi: real, bits: nat)
    requires bits >= 1
  {
    0.0 <= Clamp(asked, lo, hi) - read < (hi - lo) / (Levels(bits) as real)
  }

  /** Codes stay in range; a value decoded from a set-point's code is below the clamped set-point by less than one step. */
  lemma QuantiseLosesLessThanAStep(x: real, lo: real, hi: real, bits: nat)
    requires lo < hi && bits >= 1
    ensures 0 <= FloatToUint(x, lo, hi, bits) <= Levels(bits)
    ensures WithinAStep(UintToFloat(FloatToUint(x, lo, hi, bits), lo, hi, bits), x, lo, hi, bits)
  {
    var code := FloatToUint(x, lo, hi, bits);
    EndCodes(lo, hi, bits);
    CodeIsGreatestBelow(x, 0, lo, hi, bits);
    NextValue(Levels(bits), lo, hi, bits);
    CodeIsGreatestBelow(x, Levels(bits) + 1, lo, hi, bits);
    CodeIsGreatestBelow(x, code, lo, hi, bits);
    CodeIsGreatestBelow(x, code + 1, lo, hi, bits);
    NextValue(code, lo, hi, bits);
  }

  lemma {:induction false} ValuesOrdered(a: int, b: int, lo: real, hi: real, bits: nat)
    requires lo < hi && bits >= 1 && a <= b
    ensures UintToFloat(a, lo, hi, bits) <= UintToFloat(b, lo, hi, bits)
    decreases b - a
  {
    if a < b {
      NextValue(a, lo, hi, bits);
      ValuesOrdered(a + 1, b, lo, hi, bits);
    }
  }

  /** Every code comes back from the value it stands for. */
  lemma CodeRoundTrips(code: int, lo: real, hi: real, bits: nat)
    requires lo < hi && bits >= 1 && 0 <= code <= Levels(bits)
    ensures FloatToUint(UintToFloat(code, lo, hi, bits), lo, hi, bits) == code
  {
    var x := UintToFloat(code, lo, hi, bits);
    EndCodes(lo, hi, bits);
    ValuesOrdered(0, code, lo, hi, bits);
    ValuesOrdered(code, Levels(bits), lo, hi, bits);
    CodeIsGreatestBelow(x, code, lo, hi, bits);
    CodeIsGreatestBelow(x, code + 1, lo, hi, bits);
    NextValue(code, lo, hi, bits);
  }

  /** The set-points that have a given code, other than the last one. */
  lemma CodeCell(x: real, code: int, lo: real, hi: real, bits: nat)
    requires lo < hi && bits >= 1 && 0 < code < Levels(bits)
    ensures FloatToUint(x, lo, hi, bits) == code <==>
      UintToFloat(code, lo, hi, bits) <= x < UintToFloat(code + 1, lo, hi, bits)
  {
    CodeIsGreatestBelow(x, code, lo, hi, bits);
    CodeIsGreatestBelow(x, code + 1, lo, hi, bits);
    EndCodes(lo, hi, bits);
    NextValue(code - 1, lo, hi, bits);
    ValuesOrdered(0, code - 1, lo, hi, bits);
    ValuesOrdered(code + 1, Levels(bits), lo, hi, bits);
    NextValue(code, lo, hi, bits);
  }

  /** Only a set-point at or above the maximum has the last code. */
  lemma LastCode(x: real, lo: real, hi: real, bits: nat)
    requires lo < hi && bits >= 1
    ensures FloatToUint(x, lo, hi, bits) == Levels(bits) <==> x >= hi
  {
    QuantiseLosesLessThanAStep(x, lo, hi, bits);
    CodeIsGreatestBelow(x, Levels(bits), lo, hi, bits);
    EndCodes(lo, hi, bits);
  }

  // ---- Control frames ----

  /** Two bit fields joined, the lower one of size `unit`. */
  function Join(high: int, unit: int, low: int): int {
    high * unit + low
  }

  /** The five fields of a control frame: 16 bits of position, 12 of everything else. */
  datatype Codes = Codes(kp: int, kd: int, q: int, dq: int, tau: int) {
    predicate Fit() {
      0 <= kp < 4096 && 0 <= kd < 4096 && 0 <= q < 65536 && 0 <= dq < 4096 && 0 <= tau < 4096
    }
  }

  lemma LevelCounts()
    ensures Levels(12) == 4095 && Levels(16) == 65535
  {
    assert Levels(6) == 63;
  }

  function Quantised(kp: real, kd: real, q: real, dq: real, tau: real): (c: Codes)
    ensures c.Fit()
  {
    LevelCounts();
    QuantiseLosesLessThanAStep(kp, 0.0, KP_MAX, 12);
    QuantiseLosesLessThanAStep(kd, 0.0, KD_MAX, 12);
    QuantiseLosesLessThanAStep(q, -Q_MAX, Q_MAX, 16);
    QuantiseLosesLessThanAStep(dq, -DQ_MAX, DQ_MAX, 12);
    QuantiseLosesLessThanAStep(tau, -TAU_MAX, TAU_MAX, 12);
    Codes(FloatToUint(kp, 0.0, KP_MAX, 12), FloatToUint(kd, 0.0, KD_MAX, 12), FloatToUint(q, -Q_MAX, Q_MAX, 16),
          FloatToUint(dq, -DQ_MAX, DQ_MAX, 12), FloatToUint(tau, -TAU_MAX, TAU_MAX, 12))
  }

  /** Byte layout of a control frame. */
  function Packed(c: Codes): Data
    requires c.Fit()
  {
    [c.q / 256, c.q % 256, c.dq / 16, c.dq % 16 * 16 + c.kp / 256, c.kp % 256,
     c.kd / 16, c.kd % 16 * 16 + c.tau / 256, c.tau % 256]
  }

  /** How the motor reads a control frame. */
  function Unpacked(d: Data): (c: Codes)
    ensures c.Fit()
  {
    Codes(Join(d[3] % 16, 256, d[4]), Join(d[5], 16, d[6] / 16), Join(d[0], 256, d[1]), Join(d[2], 16, d[3] / 16),
          Join(d[6] % 16, 256, d[7]))
  }

  lemma SplitNibbles(hi: int, lo: int)
    requires 0 <= hi < 16 && 0 <= lo < 16
    ensures 0 <= hi * 16 + lo < 256 && (hi * 16 + lo) / 16 == hi && (hi * 16 + lo) % 16 == lo
  {
  }

  /** Frames and code tuples correspond one to one. */
  lemma PackingIsABijection(c: Codes, d: Data)
    requires c.Fit()
    ensures Unpacked(d) == c <==> Packed(c) == d
  {
    SplitNibbles(c.dq % 16, c.kp / 256);
    SplitNibbles(c.kd % 16, c.tau / 256);
    SplitNibbles(d[3] / 16, d[3] % 16);
    SplitNibbles(d[6] / 16, d[6] % 16);
  }

  method EncodeMit(kp: real, kd: real, q: real, dq: real, tau: real) returns (buf: array<Byte>)
    ensures fresh(buf) && buf[..] == Packed(Quantised(kp, kd, q, dq, tau))
  {
    var c := Quantised(kp, kd, q, dq, tau);
    buf := new Byte[CAN_MTU](_ => 0);
    buf[0] := c.q / 256;
    buf[1] := c.q % 256;
    buf[2] := c.dq / 16;
    buf[3] := c.dq % 16 * 16 + c.kp / 256;
    buf[4] := c.kp % 256;
    buf[5] := c.kd / 16;
    buf[6] := c.kd % 16 * 16 + c.tau / 256;
    buf[7] := c.tau % 256;
  }

  const ENABLE: Data := [0xFF, 0xFF, 0xFF, 0xFF, 0xFF, 0xFF, 0xFF, 0xFC]
  const DISABLE: Data := [0xFF, 0xFF, 0xFF, 0xFF, 0xFF, 0xFF, 0xFF, 0xFD]

  /** Set-points whose first seven bytes are all ones. */
  predicate Saturating(kp: real, kd: real, q: real, dq: real) {
    kp >= KP_MAX && kd >= KD_MAX && q >= Q_MAX && dq >= DQ_MAX
  }

  /** A torque in the cell of the given code. */
  predicate InCell(tau: real, code: int) {
    UintToFloat(code, -TAU_MAX, TAU_MAX, 12) <= tau < UintToFloat(code + 1, -TAU_MAX, TAU_MAX, 12)
  }

  lemma ReservedMeansCodes(kp: real, kd: real, q: real, dq: real, tau: real, last: Byte)
    requires 0xF0 <= last < 0xFF
    ensures Packed(Quantised(kp, kd, q, dq, tau)) == [0xFF, 0xFF, 0xFF, 0xFF, 0xFF, 0xFF, 0xFF, last]
      <==> Saturating(kp, kd, q, dq) && InCell(tau, 0xF00 + last)
  {
    var frame: Data := [0xFF, 0xFF, 0xFF, 0xFF, 0xFF, 0xFF, 0xFF, last];
    PackingIsABijection(Quantised(kp, kd, q, dq, tau), frame);
    LevelCounts();
    LastCode(kp, 0.0, KP_MAX, 12);
    LastCode(kd, 0.0, KD_MAX, 12);
    LastCode(q, -Q_MAX, Q_MAX, 16);
    LastCode(dq, -DQ_MAX, DQ_MAX, 12);
    CodeCell(tau, 0xF00 + last, -TAU_MAX, TAU_MAX, 12);
  }

  /** Exactly when a control frame reads as the enable or the disable frame; never with a stiffness below 500. */
  lemma ReservedFrames(kp: real, kd: real, q: real, dq: real, tau: real)
    ensures Packed(Quantised(kp, kd, q, dq, tau)) == ENABLE <==> Saturating(kp, kd, q, dq) && InCell(tau, 0xFFC)
    ensures Packed(Quantised(kp, kd, q, dq, tau)) == DISABLE <==> Saturating(kp, kd, q, dq) && InCell(tau, 0xFFD)
  {
    ReservedMeansCodes(kp, kd, q, dq, tau, 0xFC);
    ReservedMeansCodes(kp, kd, q, dq, tau, 0xFD);
  }

  /** What the motor reads from a control frame is each clamped set-point, less than one step too low. */
  lemma MotorReadsSetPoints(kp: real, kd: real, q: real, dq: real, tau: real)
    ensures var c := Unpacked(Packed(Quantised(kp, kd, q, dq, tau)));
      && WithinAStep(UintToFloat(c.kp, 0.0, KP_MAX, 12), kp, 0.0, KP_MAX, 12)
      && WithinAStep(UintToFloat(c.kd, 0.0, KD_MAX, 12), kd, 0.0, KD_MAX, 12)
      && WithinAStep(UintToFloat(c.q, -Q_MAX, Q_MAX, 16), q, -Q_MAX, Q_MAX, 16)
      && WithinAStep(UintToFloat(c.dq, -DQ_MAX, DQ_MAX, 12), dq, -DQ_MAX, DQ_MAX, 12)
      && WithinAStep(UintToFloat(c.tau, -TAU_MAX, TAU_MAX, 12), tau, -TAU_MAX, TAU_MAX, 12)
  {
    var c := Quantised(kp, kd, q, dq, tau);
    PackingIsABijection(c, Packed(c));
    QuantiseLosesLessThanAStep(kp, 0.0, KP_MAX, 12);
    QuantiseLosesLessThanAStep(kd, 0.0, KD_MAX, 12);
    QuantiseLosesLessThanAStep(q, -Q_MAX, Q_MAX, 16);
    QuantiseLosesLessThanAStep(dq, -DQ_MAX, DQ_MAX, 12);
    QuantiseLosesLessThanAStep(tau, -TAU_MAX, TAU_MAX, 12);
  }

  /** The documented ranges: each field is full exactly from its maximum on, and a code of zero stands for the minimum. */
  lemma DocumentedRanges(kp: real, kd: real, q: real, dq: real, tau: real)
    ensures var c := Quantised(kp, kd, q, dq, tau);
      && (c.kp == 4095 <==> kp >= 500.0) && (c.kd == 4095 <==> kd >= 5.0) && (c.q == 65535 <==> q >= 12.5)
      && (c.dq == 4095 <==> dq >= 30.0) && (c.tau == 4095 <==> tau >= 10.0)
    ensures UintToFloat(0, 0.0, KP_MAX, 12) == 0.0 && UintToFloat(0, 0.0, KD_MAX, 12) == 0.0
    ensures UintToFloat(0, -Q_MAX, Q_MAX, 16) == -12.5 && UintToFloat(0, -DQ_MAX, DQ_MAX, 12) == -30.0
    ensures UintToFloat(0, -TAU_MAX, TAU_MAX, 12) == -10.0
  {
    LevelCounts();
    LastCode(kp, 0.0, KP_MAX, 12);
    LastCode(kd, 0.0, KD_MAX, 12);
    LastCode(q, -Q_MAX, Q_MAX, 16);
    LastCode(dq, -DQ_MAX, DQ_MAX, 12);
    LastCode(tau, -TAU_MAX, TAU_MAX, 12);
    EndCodes(0.0, KP_MAX, 12);
    EndCodes(0.0, KD_MAX, 12);
    EndCodes(-Q_MAX, Q_MAX, 16);
    EndCodes(-DQ_MAX, DQ_MAX, 12);
    EndCodes(-TAU_MAX, TAU_MAX, 12);
  }

  // ---- Feedback frames ----

  datatype Feedback =
    Feedback(pos: real, vel: real, torque: real, error: int, message: string, tempMos: int, tempMotor: int)

  /** Decimal digits of a code below 100. */
  function Decimal(n: int): string
    requires 0 <= n < 100
  {
    (if n < 10 then [] else ['0' + (n / 10) as char]) + ['0' + (n % 10) as char]
  }

  /** The text for an error code; codes without one are shown in decimal behind "0x". */
  function ErrorText(code: int): string
    requires 0 <= code < 16
  {
    match code
    case 0 => "Off"
    case 1 => "On"
    case 8 => "过压"
    case 9 => "欠压"
    case 10 => "过流"
    case 11 => "MOS过温"
    case 12 => "线圈过温"
    case 13 => "通讯丢失"
    case 14 => "过载"
    case _ => "未知(0x" + Decimal(code) + ")"
  }

  /** Different error codes have different texts. */
  lemma TextTellsCode(a: int, b: int)
    requires 0 <= a < 16 && 0 <= b < 16 && ErrorText(a) == ErrorText(b)
    ensures a == b
  {
    var s, t := ErrorText(a), ErrorText(b);
    assert |s| == |t| && s[0] == t[0] && s[1] == t[1] && s[|s| - 2] == t[|t| - 2];
  }

  function DecodeFeedback(data: seq<Byte>): Option<Feedback> {
    if |data| < 8 then None
    else
      Some(Feedback(UintToFloat(Join(data[1], 256, data[2]), -Q_MAX, Q_MAX, 16),
                    UintToFloat(Join(data[3], 16, data[4] / 16), -DQ_MAX, DQ_MAX, 12),
                    UintToFloat(Join(data[4] % 16, 256, data[5]), -TAU_MAX, TAU_MAX, 12),
                    data[0] / 16, ErrorText(data[0] / 16), data[6], data[7]))
  }

  /** What the motor measured, in its own codes. */
  datatype Report = Report(id: int, error: int, pos: int, vel: int, torque: int, tempMos: Byte, tempMotor: Byte) {
    predicate Fit() {
      0 <= id < 16 && 0 <= error < 16 && 0 <= pos < 65536 && 0 <= vel < 4096 && 0 <= torque < 4096
    }
  }

  /** The feedback frame of a motor. */
  function Reported(r: Report): Data
    requires r.Fit()
  {
    [r.error * 16 + r.id, r.pos / 256, r.pos % 256, r.vel / 16, r.vel % 16 * 16 + r.torque / 256, r.torque % 256,
     r.tempMos, r.tempMotor]
  }

  /** Every field of a report, down to the code, is recovered from its frame, whatever follows the eight bytes. */
  lemma FeedbackRecovered(r: Report, tail: seq<Byte>)
    requires r.Fit()
    ensures DecodeFeedback(Reported(r) + tail).Some?
    ensures var fb := DecodeFeedback(Reported(r) + tail).value;
      && FloatToUint(fb.pos, -Q_MAX, Q_MAX, 16) == r.pos
      && FloatToUint(fb.vel, -DQ_MAX, DQ_MAX, 12) == r.vel
      && FloatToUint(fb.torque, -TAU_MAX, TAU_MAX, 12) == r.torque
      && fb.error == r.error && fb.message == ErrorText(r.error) && fb.tempMos == r.tempMos && fb.tempMotor == r.tempMotor
  {
    var d := Reported(r) + tail;
    SplitNibbles(r.error, r.id);
    SplitNibbles(r.vel % 16, r.torque / 256);
    assert Join(d[1], 256, d[2]) == r.pos && Join(d[3], 16, d[4] / 16) == r.vel && Join(d[4] % 16, 256, d[5]) == r.torque;
    LevelCounts();
    CodeRoundTrips(r.pos, -Q_MAX, Q_MAX, 16);
    CodeRoundTrips(r.vel, -DQ_MAX, DQ_MAX, 12);
    CodeRoundTrips(r.torque, -TAU_MAX, TAU_MAX, 12);
  }

  // ---- Terminal wrapper ----

  function IdBytes(id: Word): (b: seq<Byte>)
    ensures |b| == 4
  {
    [id % 256, id / 256 % 256, id / 65536 % 256, id / 16777216]
  }

  /** The first eight bytes, filled up with zeros. */
  function Fitted(data: seq<Byte>): Data {
    if |data| >= CAN_MTU then data[..CAN_MTU] else data + seq(CAN_MTU - |data|, _ => 0)
  }

  method PackTerminal(id: Word, data: seq<Byte>) returns (out: array<Byte>)
    ensures fresh(out) && out[..] == IdBytes(id) + Fitted(data)
  {
    out := new Byte[4 + CAN_MTU](_ => 0);
    out[0] := id % 256;
    out[1] := id / 256 % 256;
    out[2] := id / 65536 % 256;
    out[3] := id / 16777216;
    var n := if |data| < CAN_MTU then |data| else CAN_MTU;
    for i := 0 to n
      invariant forall k :: 0 <= k < 4 ==> out[k] == IdBytes(id)[k]
      invariant forall k :: 0 <= k < i ==> out[4 + k] == data[k]
      invariant forall k :: 4 + i <= k < 12 ==> out[k] == 0
    {
      out[4 + i] := data[i];
    }
    assert forall k :: 0 <= k < 12 ==> out[k] == (IdBytes(id) + Fitted(data))[k];
  }

  /** Four bytes, lowest first. */
  function FromBytes(a: int, b: int, c: int, d: int): (w: int)
    ensures 0 <= a < 256 && 0 <= b < 256 && 0 <= c < 256 && 0 <= d < 256 ==> 0 <= w < 0x1_0000_0000
  {
    a + b * 256 + c * 65536 + d * 16777216
  }

  function Terminal(payload: seq<Byte>): Option<(Word, Data)> {
    if |payload| < 5 then None
    else Some((FromBytes(payload[0], payload[1], payload[2], payload[3]), Fitted(payload[4..])))
  }

  method UnpackTerminal(payload: seq<Byte>) returns (r: Option<(Word, Data)>)
    ensures r == Terminal(payload)
  {
    if |payload| < 5 {
      return None;
    }
    var id: Word := FromBytes(payload[0], payload[1], payload[2], payload[3]);
    var data := new Byte[CAN_MTU](_ => 0);
    var n := if |payload| - 4 < CAN_MTU then |payload| - 4 else CAN_MTU;
    for i := 0 to n
      invariant forall k :: 0 <= k < i ==> data[k] == payload[4 + k]
      invariant forall k :: i <= k < CAN_MTU ==> data[k] == 0
    {
      data[i] := payload[4 + i];
    }
    assert data[..] == Fitted(payload[4..]);
    r := Some((id, data[..]));
  }

  lemma IdRecovered(id: Word)
    ensures FromBytes(id % 256, id / 256 % 256, id / 65536 % 256, id / 16777216) == id
  {
    var a, b := id / 256, id / 65536;
    assert b == a / 256 && id / 16777216 == b / 256;
    assert id == a * 256 + id % 256 && a == b * 256 + a % 256 && b == id / 16777216 * 256 + b % 256;
  }

  lemma IdSplit(a: Byte, b: Byte, c: Byte, d: Byte)
    ensures IdBytes(FromBytes(a, b, c, d)) == [a, b, c, d]
  {
    var id := FromBytes(a, b, c, d);
    assert id / 256 == FromBytes(b, c, d, 0);
    assert id / 65536 == FromBytes(c, d, 0, 0);
  }

  /** Unpacking a packed frame gives the identifier and the fitted data. */
  lemma TerminalRoundTrips(id: Word, data: seq<Byte>)
    ensures Terminal(IdBytes(id) + Fitted(data)) == Some((id, Fitted(data)))
    ensures |data| == CAN_MTU ==> Fitted(data) == data
  {
    var p := IdBytes(id) + Fitted(data);
    assert p[4..] == Fitted(data) && p[..4] == IdBytes(id);
    assert Fitted(Fitted(data)) == Fitted(data);
    IdRecovered(id);
  }

  /** Packing what was unpacked from a twelve-byte payload gives the payload back. */
  lemma PayloadRoundTrips(payload: seq<Byte>)
    requires |payload| == 4 + CAN_MTU
    ensures var t := Terminal(payload).value; IdBytes(t.0) + Fitted(t.1) == payload
  {
    IdSplit(payload[0], payload[1], payload[2], payload[3]);
    assert payload == payload[..4] + payload[4..];
  }
}
