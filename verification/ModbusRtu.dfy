/** Modbus RTU framing: CRC-16, request builders and the reply parser. */
module ModbusRtu {
  import opened Prelude

  type Byte = bv8

  /** One of the eight shifts per byte. */
  function BitStep(crc: bv16): bv16 {
    if crc & 1 == 1 then (crc >> 1) ^ 0xA001 else crc >> 1
  }

  /** The register after the first `n` shifts of a byte. */
  function Bits(crc: bv16, n: nat): bv16 {
    if n == 0 then crc else BitStep(Bits(crc, n - 1))
  }

  function ByteStep(crc: bv16, b: Byte): bv16 {
    Bits(crc ^ (b as bv16), 8)
  }

  /** CRC register after a message, from register value `crc`. */
  function CrcFrom(crc: bv16, data: seq<Byte>): bv16
    decreases |data|
  {
    if data == [] then crc else CrcFrom(ByteStep(crc, data[0]), data[1..])
  }

  function Crc(data: seq<Byte>): bv16 {
    CrcFrom(0xFFFF, data)
  }

  method Crc16(data: seq<Byte>) returns (crc: bv16)
    ensures crc == Crc(data)
  {
    crc := 0xFFFF;
    var i := 0;
    while i < |data|
      invariant 0 <= i <= |data|
      invariant CrcFrom(crc, data[i..]) == Crc(data)
    {
      ghost var before := crc;
      crc := crc ^ (data[i] as bv16);
      var bit := 0;
      while bit < 8
        invariant 0 <= bit <= 8
        invariant crc == Bits(before ^ (data[i] as bv16), bit)
      {
        if crc & 1 == 1 {
          crc := (crc >> 1) ^ 0xA001;
        } else {
          crc := crc >> 1;
        }
        bit := bit + 1;
      }
      assert data[i..][1..] == data[i + 1..];
      i := i + 1;
    }
  }

  function Low(crc: bv16): Byte {
    (crc & 0xFF) as Byte
  }

  function High(crc: bv16): Byte {
    (crc >> 8) as Byte
  }

  // ---- Algebra of the register ----

  function Shift8(x: bv16): bv16 {
    BitStep(BitStep(BitStep(BitStep(BitStep(BitStep(BitStep(BitStep(x))))))))
  }

  lemma OneShift(x: bv16, n: nat)
    ensures Bits(x, n + 1) == BitStep(Bits(x, n)) && Bits(x, 0) == x
  {
  }

  lemma EightShifts(x: bv16)
    ensures Bits(x, 8) == Shift8(x)
  {
    OneShift(x, 0);
    OneShift(x, 1);
    OneShift(x, 2);
    OneShift(x, 3);
    OneShift(x, 4);
    OneShift(x, 5);
    OneShift(x, 6);
    OneShift(x, 7);
  }

  lemma ShiftOneToOne(a: bv16, b: bv16)
    ensures Shift8(a) == Shift8(b) ==> a == b
  {
  }

  lemma XorCancels(a: bv16, b: bv16, x: bv16)
    ensures a ^ x == b ^ x ==> a == b
  {
  }

  lemma ByteStepIsShift(crc: bv16, b: Byte)
    ensures ByteStep(crc, b) == Shift8(crc ^ (b as bv16))
  {
    EightShifts(crc ^ (b as bv16));
  }

  lemma ByteStepInjective(a: bv16, b: bv16, x: Byte)
    ensures ByteStep(a, x) == ByteStep(b, x) ==> a == b
  {
    ByteStepIsShift(a, x);
    ByteStepIsShift(b, x);
    ShiftOneToOne(a ^ (x as bv16), b ^ (x as bv16));
    XorCancels(a, b, x as bv16);
  }

  /** The register keeps two different histories apart for as long as the same bytes follow. */
  lemma {:induction false} CrcSeparates(a: bv16, b: bv16, data: seq<Byte>)
    ensures CrcFrom(a, data) == CrcFrom(b, data) <==> a == b
    decreases |data|
  {
    if data != [] {
      ByteStepInjective(a, b, data[0]);
      CrcSeparates(ByteStep(a, data[0]), ByteStep(b, data[0]), data[1..]);
    }
  }

  lemma {:induction false} CrcConcat(crc: bv16, a: seq<Byte>, b: seq<Byte>)
    ensures CrcFrom(crc, a + b) == CrcFrom(CrcFrom(crc, a), b)
    decreases |a|
  {
    if a == [] {
      assert a + b == b;
    } else {
      assert (a + b)[1..] == a[1..] + b;
      CrcConcat(ByteStep(crc, a[0]), a[1..], b);
    }
  }

  /** After eight shifts the high byte tells which low byte went in. */
  lemma HighByteTellsLowByte(p: bv16, q: bv16)
    requires p & 0xFF00 == q & 0xFF00 && Shift8(p) & 0xFF00 == Shift8(q) & 0xFF00
    ensures p == q
  {
  }

  lemma LowByteOnly(x: bv16, b: Byte)
    ensures (x ^ (b as bv16)) & 0xFF00 == x & 0xFF00
  {
  }

  lemma SameByte(x: bv16, b: Byte, b': Byte)
    ensures x ^ (b as bv16) == x ^ (b' as bv16) ==> b == b'
  {
  }

  lemma TwoShiftsInjective(s: bv16, a: Byte, b: Byte, a': Byte, b': Byte)
    requires Shift8(s ^ (a as bv16)) ^ (b as bv16) == Shift8(s ^ (a' as bv16)) ^ (b' as bv16)
    ensures a == a' && b == b'
  {
    var p, q := s ^ (a as bv16), s ^ (a' as bv16);
    LowByteOnly(s, a);
    LowByteOnly(s, a');
    LowByteOnly(Shift8(p), b);
    LowByteOnly(Shift8(q), b');
    HighByteTellsLowByte(p, q);
    SameByte(s, a, a');
    SameByte(Shift8(p), b, b');
  }

  /** Two bytes from the same register value are told apart: sixteen register bits hold them both. */
  lemma TwoBytesInjective(s: bv16, a: Byte, b: Byte, a': Byte, b': Byte)
    requires ByteStep(ByteStep(s, a), b) == ByteStep(ByteStep(s, a'), b')
    ensures a == a' && b == b'
  {
    var x, x' := ByteStep(s, a), ByteStep(s, a');
    ByteStepIsShift(s, a);
    ByteStepIsShift(s, a');
    ByteStepIsShift(x, b);
    ByteStepIsShift(x', b');
    ShiftOneToOne(x ^ (b as bv16), x' ^ (b' as bv16));
    TwoShiftsInjective(s, a, b, a', b');
  }

  /** A burst of at most two adjacent changed bytes always changes the CRC, in a message of any length. */
  lemma BurstChangesCrc(crc: bv16, m: seq<Byte>, m': seq<Byte>, i: nat)
    requires |m| == |m'| && i + 1 < |m| && m != m'
    requires forall k :: 0 <= k < |m| && k != i && k != i + 1 ==> m[k] == m'[k]
    ensures CrcFrom(crc, m) != CrcFrom(crc, m')
  {
    var s := CrcFrom(crc, m[..i]);
    assert m == m[..i] + ([m[i], m[i + 1]] + m[i + 2..]);
    assert m' == m[..i] + ([m'[i], m'[i + 1]] + m[i + 2..]);
    CrcConcat(crc, m[..i], [m[i], m[i + 1]] + m[i + 2..]);
    CrcConcat(crc, m[..i], [m'[i], m'[i + 1]] + m[i + 2..]);
    TwoThenRest(s, m[i], m[i + 1], m[i + 2..]);
    TwoThenRest(s, m'[i], m'[i + 1], m[i + 2..]);
    CrcSeparates(ByteStep(ByteStep(s, m[i]), m[i + 1]), ByteStep(ByteStep(s, m'[i]), m'[i + 1]), m[i + 2..]);
    if CrcFrom(crc, m) == CrcFrom(crc, m') {
      TwoBytesInjective(s, m[i], m[i + 1], m'[i], m'[i + 1]);
    }
  }

  lemma TwoThenRest(s: bv16, a: Byte, b: Byte, rest: seq<Byte>)
    ensures CrcFrom(s, [a, b] + rest) == CrcFrom(ByteStep(ByteStep(s, a), b), rest)
  {
    assert ([a, b] + rest)[1..] == [b] + rest;
    assert ([b] + rest)[1..] == rest;
  }

  /** The worked example of the MODBUS over Serial Line guide, section 6.2.2: 02 07 is sent with 41 12 appended. */
  lemma StandardExample()
    ensures Crc([0x02, 0x07]) == 0x1241
  {
    ByteStepIsShift(0xFFFF, 0x02);
    assert ByteStep(0xFFFF, 0x02) == 0x813E;
    ByteStepIsShift(0x813E, 0x07);
    assert [0x02 as Byte, 0x07][1..] == [0x07];
    assert [0x07 as Byte][1..] == [];
  }

  // ---- Residue ----

  lemma OwnLowByteShiftsOut(c: bv16)
    ensures Shift8(c ^ (Low(c) as bv16)) == c >> 8
  {
  }

  lemma OwnHighByteCancels(c: bv16)
    ensures Shift8((c >> 8) ^ (High(c) as bv16)) == 0
  {
  }

  lemma TwoSteps(c: bv16, l: Byte, h: Byte, x: bv16)
    requires Shift8(c ^ (l as bv16)) == x && Shift8(x ^ (h as bv16)) == 0
    ensures ByteStep(ByteStep(c, l), h) == 0
  {
    ByteStepIsShift(c, l);
    ByteStepIsShift(x, h);
  }

  lemma OwnCrcCancels(c: bv16)
    ensures ByteStep(ByteStep(c, Low(c)), High(c)) == 0
  {
    OwnLowByteShiftsOut(c);
    OwnHighByteCancels(c);
    TwoSteps(c, Low(c), High(c), c >> 8);
  }

  /** The CRC over a message and two more bytes is zero exactly for the message's own CRC, low byte first. */
  lemma ResidueZeroIffCrc(m: seq<Byte>, lo: Byte, hi: Byte)
    ensures Crc(m + [lo, hi]) == 0 <==> lo == Low(Crc(m)) && hi == High(Crc(m))
  {
    var c := Crc(m);
    CrcConcat(0xFFFF, m, [lo, hi]);
    TwoThenRest(c, lo, hi, []);
    assert [lo, hi] + [] == [lo, hi];
    OwnCrcCancels(c);
    if Crc(m + [lo, hi]) == 0 {
      TwoBytesInjective(c, lo, hi, Low(c), High(c));
    }
  }

  // ---- Frames ----

  function Framed(body: seq<Byte>): seq<Byte> {
    body + [Low(Crc(body)), High(Crc(body))]
  }

  function ByteOf(slave: int): Byte {
    (slave % 256) as Byte
  }

  /** A request with two 16-bit fields, most significant byte first. */
  function Request(slave: int, code: Byte, first: bv16, second: bv16): seq<Byte> {
    Framed([ByteOf(slave), code, High(first), Low(first), High(second), Low(second)])
  }

  method ReadHolding(slave: int, addr: bv16, count: bv16) returns (frame: seq<Byte>)
    ensures frame == Request(slave, 0x03, addr, count)
  {
    frame := [ByteOf(slave), 0x03, High(addr), Low(addr), High(count), Low(count)];
    var crc := Crc16(frame);
    frame := frame + [Low(crc)];
    frame := frame + [High(crc)];
  }

  method WriteSingle(slave: int, addr: bv16, value: bv16) returns (frame: seq<Byte>)
    ensures frame == Request(slave, 0x06, addr, value)
  {
    frame := [ByteOf(slave), 0x06, High(addr), Low(addr), High(value), Low(value)];
    var crc := Crc16(frame);
    frame := frame + [Low(crc)];
    frame := frame + [High(crc)];
  }

  function Join(hi: Byte, lo: Byte): bv16 {
    ((hi as bv16) << 8) | (lo as bv16)
  }

  lemma JoinSplits(x: bv16, hi: Byte, lo: Byte)
    ensures Join(High(x), Low(x)) == x
    ensures High(Join(hi, lo)) == hi && Low(Join(hi, lo)) == lo
  {
  }

  /** A request frame determines both its fields and passes the receiver's residue check. */
  lemma RequestRoundTrips(slave: int, code: Byte, first: bv16, second: bv16)
    ensures var f := Request(slave, code, first, second);
      && |f| == 8 && Crc(f) == 0 && f[0] == ByteOf(slave) && f[1] == code
      && Join(f[2], f[3]) == first && Join(f[4], f[5]) == second
  {
    var body := [ByteOf(slave), code, High(first), Low(first), High(second), Low(second)];
    ResidueZeroIffCrc(body, Low(Crc(body)), High(Crc(body)));
    JoinSplits(first, 0, 0);
    JoinSplits(second, 0, 0);
  }

  /** The reply to a one-register read. */
  function Reply(slave: int, value: bv16): seq<Byte> {
    Framed([ByteOf(slave), 0x03, 0x02, High(value), Low(value)])
  }

  method ParseReadU16(data: seq<Byte>, slave: int) returns (r: Option<bv16>)
    ensures r == Parsed(data, slave)
  {
    if |data| < 7 || data[0] != ByteOf(slave) || data[1] != 0x03 {
      return None;
    }
    if data[2] != 2 {
      return None;
    }
    var received := (data[5] as bv16) | ((data[6] as bv16) << 8);
    var crc := Crc16(data[..5]);
    if crc != received {
      return None;
    }
    r := Some(((data[3] as bv16) << 8) | (data[4] as bv16));
  }

  function Parsed(data: seq<Byte>, slave: int): Option<bv16> {
    if |data| < 7 || data[0] != ByteOf(slave) || data[1] != 0x03 || data[2] != 2 then None
    else if Crc(data[..5]) != Join(data[6], data[5]) then None
    else Some(Join(data[3], data[4]))
  }

  lemma ParsedIffResidue(data: seq<Byte>, slave: int)
    requires |data| >= 7
    ensures Parsed(data, slave).Some? <==>
      data[0] == ByteOf(slave) && data[1] == 0x03 && data[2] == 2 && Crc(data[..7]) == 0
  {
    var body := data[..5];
    assert data[..7] == body + [data[5], data[6]];
    ResidueZeroIffCrc(body, data[5], data[6]);
    JoinSplits(Crc(body), data[6], data[5]);
  }

  /** The parser accepts exactly the well-formed replies of the slave, each with its value; trailing bytes are ignored. */
  lemma ParsesExactlyReplies(data: seq<Byte>, slave: int, value: bv16)
    ensures Parsed(data, slave) == Some(value) <==> |data| >= 7 && data[..7] == Reply(slave, value)
  {
    if |data| >= 7 {
      var body := data[..5];
      var sent := [ByteOf(slave), 0x03, 0x02, High(value), Low(value)];
      JoinSplits(value, data[3], data[4]);
      assert data[..7] == body + [data[5], data[6]];
      assert body == [data[0], data[1], data[2], data[3], data[4]];
      CrcBytes(Crc(body), data[6], data[5]);
      if body == sent {
        assert data[..7] == Reply(slave, value) <==> data[5] == Low(Crc(sent)) && data[6] == High(Crc(sent));
      } else {
        assert data[..7][..5] == body && Reply(slave, value)[..5] == sent;
      }
    }
  }

  lemma CrcBytes(crc: bv16, hi: Byte, lo: Byte)
    ensures crc == Join(hi, lo) <==> lo == Low(crc) && hi == High(crc)
  {
    JoinSplits(crc, hi, lo);
  }

  /** Corrupting any one byte, or any two adjacent bytes, of a valid reply makes the parser reject it. */
  lemma BurstIsRejected(data: seq<Byte>, data': seq<Byte>, slave: int, i: nat)
    requires |data| == |data'| == 7 && i + 1 < 7 && Parsed(data, slave).Some? && data != data'
    requires forall k :: 0 <= k < 7 && k != i && k != i + 1 ==> data[k] == data'[k]
    ensures Parsed(data', slave) == None
  {
    assert data[..7] == data && data'[..7] == data';
    ParsedIffResidue(data, slave);
    ParsedIffResidue(data', slave);
    BurstChangesCrc(0xFFFF, data, data', i);
  }
}
