// The BCSP message check: a nibble-table CRC-CCITT, least significant bit first.
// Source: drivers/blue8852be/hci_bcsp.c, lines 76-106.
module Crc {
  import opened Bytes

  const CRC_INIT: bv16 := 0xffff

  // Polynomial 0x1021 with its bits reversed.
  const POLY_REVERSED: bv16 := 0x8408

  const CRC_TABLE: seq<bv16> := [
    0x0000, 0x1081, 0x2102, 0x3183,
    0x4204, 0x5285, 0x6306, 0x7387,
    0x8408, 0x9489, 0xa50a, 0xb58b,
    0xc60c, 0xd68d, 0xe70e, 0xf78f
  ]

  // One table step: feed the low nibble of n.
  function NibbleStep(reg: bv16, n: bv16): bv16 {
    (reg >> 4) ^ CRC_TABLE[((reg ^ n) & 0x000f) as int]
  }

  // Bit k of a number, bit 0 the least significant.
  predicate Bit(d: nat, k: nat) {
    if k == 0 then d % 2 == 1 else Bit(d / 2, k - 1)
  }

  // An octet as a register word, put together bit by bit.
  function Word(d: byte): bv16 {
    (if Bit(d, 0) then 0x01 else 0) | (if Bit(d, 1) then 0x02 else 0)
    | (if Bit(d, 2) then 0x04 else 0) | (if Bit(d, 3) then 0x08 else 0)
    | (if Bit(d, 4) then 0x10 else 0) | (if Bit(d, 5) then 0x20 else 0)
    | (if Bit(d, 6) then 0x40 else 0) | (if Bit(d, 7) then 0x80 else 0)
  }

  // bcsp_crc_update
  function CrcUpdate(reg: bv16, d: byte): bv16 {
    var data := Word(d);
    NibbleStep(NibbleStep(reg, data), data >> 4)
  }

  // The register after a whole message, first byte first.
  function CrcOf(reg: bv16, message: seq<byte>): bv16
    decreases |message|
  {
    if message == [] then reg else CrcOf(CrcUpdate(reg, message[0]), message[1..])
  }

  /** Reference definition: the shift register itself, one bit at a time. */

  function BitStep(reg: bv16, bit: bool): bv16 {
    var feedback := (reg & 1 == 1) != bit;
    (reg >> 1) ^ (if feedback then POLY_REVERSED else 0)
  }

  function CrcBits(reg: bv16, bits: seq<bool>): bv16
    decreases |bits|
  {
    if bits == [] then reg else CrcBits(BitStep(reg, bits[0]), bits[1..])
  }

  // The eight bits of an octet, least significant first.
  function BitsOf(d: byte): seq<bool> {
    [Bit(d, 0), Bit(d, 1), Bit(d, 2), Bit(d, 3), Bit(d, 4), Bit(d, 5), Bit(d, 6), Bit(d, 7)]
  }

  function MessageBits(message: seq<byte>): seq<bool> {
    if message == [] then [] else BitsOf(message[0]) + MessageBits(message[1..])
  }

  // Four bit steps fed with a constant nibble, as one expression.
  function FourBits(reg: bv16, n: bv16): bv16 {
    var r1 := BitStep(reg, n & 1 == 1);
    var r2 := BitStep(r1, n & 2 == 2);
    var r3 := BitStep(r2, n & 4 == 4);
    BitStep(r3, n & 8 == 8)
  }

  // One table step is four turns of the register: a table entry for each low nibble.
  lemma NibbleStepIsFourBits(reg: bv16, n: bv16)
    ensures NibbleStep(reg, n) == FourBits(reg, n)
  {
    var x := (reg ^ n) & 0x000f;
    if x == 0 {} else if x == 1 {} else if x == 2 {} else if x == 3 {}
    else if x == 4 {} else if x == 5 {} else if x == 6 {} else if x == 7 {}
    else if x == 8 {} else if x == 9 {} else if x == 10 {} else if x == 11 {}
    else if x == 12 {} else if x == 13 {} else if x == 14 {} else { assert x == 15; }
  }

  function NibbleBits(n: bv16): seq<bool> {
    [n & 1 == 1, n & 2 == 2, n & 4 == 4, n & 8 == 8]
  }

  lemma OctetBits(d: byte)
    ensures BitsOf(d) == NibbleBits(Word(d)) + NibbleBits(Word(d) >> 4)
  {}

  lemma NibbleStepIsBitSerial(reg: bv16, n: bv16)
    ensures NibbleStep(reg, n) == CrcBits(reg, NibbleBits(n))
  {
    NibbleStepIsFourBits(reg, n);
    var bits := NibbleBits(n);
    var r1 := BitStep(reg, bits[0]);
    var r2 := BitStep(r1, bits[1]);
    var r3 := BitStep(r2, bits[2]);
    assert bits[3..][1..] == [];
    assert CrcBits(r3, bits[3..]) == CrcBits(BitStep(r3, bits[3]), []);
    assert bits[2..][1..] == bits[3..];
    assert CrcBits(r2, bits[2..]) == CrcBits(r3, bits[3..]);
    assert bits[1..][1..] == bits[2..];
    assert CrcBits(r1, bits[1..]) == CrcBits(r2, bits[2..]);
  }

  lemma {:induction false} CrcBitsAppend(reg: bv16, a: seq<bool>, b: seq<bool>)
    ensures CrcBits(reg, a + b) == CrcBits(CrcBits(reg, a), b)
    decreases |a|
  {
    if a == [] {
      assert a + b == b;
    } else {
      CrcBitsAppend(BitStep(reg, a[0]), a[1..], b);
      assert (a + b)[1..] == a[1..] + b;
    }
  }

  lemma TwoStepsAreBitSerial(reg: bv16, v: bv16, w: bv16)
    ensures NibbleStep(NibbleStep(reg, v), w) == CrcBits(reg, NibbleBits(v) + NibbleBits(w))
  {
    hide NibbleStep, NibbleBits;
    NibbleStepIsBitSerial(reg, v);
    NibbleStepIsBitSerial(NibbleStep(reg, v), w);
    CrcBitsAppend(reg, NibbleBits(v), NibbleBits(w));
  }

  // The table update is eight turns of the shift register.
  lemma CrcUpdateIsBitSerial(reg: bv16, d: byte)
    ensures CrcUpdate(reg, d) == CrcBits(reg, BitsOf(d))
  {
    OctetBits(d);
    TwoStepsAreBitSerial(reg, Word(d), Word(d) >> 4);
  }

  // The nibble-table CRC of every message is the bit-serial one.
  lemma {:induction false} CrcIsBitSerial(reg: bv16, message: seq<byte>)
    ensures CrcOf(reg, message) == CrcBits(reg, MessageBits(message))
    decreases |message|
  {
    if message != [] {
      CrcUpdateIsBitSerial(reg, message[0]);
      CrcIsBitSerial(CrcUpdate(reg, message[0]), message[1..]);
      CrcBitsAppend(reg, BitsOf(message[0]), MessageBits(message[1..]));
    }
  }

  lemma {:induction false} CrcAppend(reg: bv16, a: seq<byte>, b: seq<byte>)
    ensures CrcOf(reg, a + b) == CrcOf(CrcOf(reg, a), b)
    decreases |a|
  {
    if a == [] {
      assert a + b == b;
    } else {
      CrcAppend(CrcUpdate(reg, a[0]), a[1..], b);
      assert (a + b)[1..] == a[1..] + b;
    }
  }

  /** Error detection: one turn of the register loses nothing. */

  lemma BitStepInjective(r1: bv16, r2: bv16, b1: bool, b2: bool)
    requires BitStep(r1, b1) == BitStep(r2, b2)
    ensures (r1 == r2) == (b1 == b2)
  {}

  lemma {:induction false} CrcBitsInjective(r1: bv16, r2: bv16, bits: seq<bool>)
    requires CrcBits(r1, bits) == CrcBits(r2, bits)
    ensures r1 == r2
    decreases |bits|
  {
    if bits != [] {
      CrcBitsInjective(BitStep(r1, bits[0]), BitStep(r2, bits[0]), bits[1..]);
      BitStepInjective(r1, r2, bits[0], bits[0]);
    }
  }

  // Eight turns of the register fed with an octet, as bit-vector arithmetic only.
  function EightBits(reg: bv16, v: bv16): bv16 {
    FourBits(FourBits(reg, v), v >> 4)
  }

  lemma CrcUpdateIsEightBits(reg: bv16, d: byte)
    ensures CrcUpdate(reg, d) == EightBits(reg, Word(d))
  {
    var v := Word(d);
    NibbleStepIsFourBits(reg, v);
    NibbleStepIsFourBits(NibbleStep(reg, v), v >> 4);
  }

  // The top nibble of the register after a step is the nibble it consumed.
  lemma FourBitsUndo(r1: bv16, n1: bv16, r2: bv16, n2: bv16)
    requires FourBits(r1, n1) == FourBits(r2, n2)
    ensures r1 >> 4 == r2 >> 4
    ensures (r1 ^ n1) & 0x000f == (r2 ^ n2) & 0x000f
  {}

  lemma TwoNibbles(v: bv16, w: bv16)
    requires v < 256 && w < 256
    requires v & 0x000f == w & 0x000f
    requires (v >> 4) & 0x000f == (w >> 4) & 0x000f
    ensures v == w
  {}

  lemma FirstNibble(reg: bv16, v: bv16, w: bv16)
    requires FourBits(reg, v) >> 4 == FourBits(reg, w) >> 4
    ensures v & 0x000f == w & 0x000f
    ensures FourBits(reg, v) == FourBits(reg, w)
  {}

  lemma SecondNibble(reg: bv16, v: bv16, w: bv16)
    requires FourBits(reg, v) == FourBits(reg, w)
    ensures v & 0x000f == w & 0x000f
  {}

  lemma EightBitsInjective(reg: bv16, v: bv16, w: bv16)
    requires v < 256 && w < 256
    requires EightBits(reg, v) == EightBits(reg, w)
    ensures v == w
  {
    FourBitsUndo(FourBits(reg, v), v >> 4, FourBits(reg, w), w >> 4);
    FirstNibble(reg, v, w);
    SecondNibble(FourBits(reg, v), v >> 4, w >> 4);
    TwoNibbles(v, w);
  }

  function Pow2(n: nat): nat {
    if n == 0 then 1 else 2 * Pow2(n - 1)
  }

  lemma {:induction false} BitsDetermine(d: nat, e: nat, n: nat)
    requires d < Pow2(n) && e < Pow2(n)
    requires forall k: nat :: k < n ==> Bit(d, k) == Bit(e, k)
    ensures d == e
  {
    if n > 0 {
      forall k: nat | k < n - 1
        ensures Bit(d / 2, k) == Bit(e / 2, k)
      {
        assert Bit(d, k + 1) == Bit(e, k + 1);
      }
      BitsDetermine(d / 2, e / 2, n - 1);
      assert Bit(d, 0) == Bit(e, 0);
    }
  }

  lemma OctetsEqual(d: byte, e: byte)
    requires Word(d) == Word(e)
    ensures d == e
  {
    hide Word, NibbleBits;
    OctetBits(d);
    OctetBits(e);
    var a, b := BitsOf(d), BitsOf(e);
    assert a == b;
    assert Pow2(8) == 256 by { assert Pow2(4) == 16; }
    forall k: nat | k < 8
      ensures Bit(d, k) == Bit(e, k)
    {
      assert a[k] == Bit(d, k) && b[k] == Bit(e, k);
    }
    BitsDetermine(d, e, 8);
  }

  lemma WordSmall(d: byte)
    ensures Word(d) < 256
  {}

  // A different octet always leaves a different register.
  lemma CrcUpdateInjectiveInOctet(reg: bv16, d: byte, e: byte)
    requires CrcUpdate(reg, d) == CrcUpdate(reg, e)
    ensures d == e
  {
    CrcUpdateIsEightBits(reg, d);
    CrcUpdateIsEightBits(reg, e);
    WordSmall(d);
    WordSmall(e);
    EightBitsInjective(reg, Word(d), Word(e));
    OctetsEqual(d, e);
  }

  // A message with one octet replaced has another CRC, whatever its length.
  lemma {:induction false} CrcDetectsOneOctet(reg: bv16, message: seq<byte>, i: nat, x: byte)
    requires i < |message| && x != message[i]
    ensures CrcOf(reg, message) != CrcOf(reg, message[i := x])
    decreases |message|
  {
    if i == 0 {
      assert message[i := x][1..] == message[1..];
      if CrcOf(reg, message) == CrcOf(reg, message[i := x]) {
        var r1, r2 := CrcUpdate(reg, message[0]), CrcUpdate(reg, x);
        CrcIsBitSerial(r1, message[1..]);
        CrcIsBitSerial(r2, message[1..]);
        CrcBitsInjective(r1, r2, MessageBits(message[1..]));
        CrcUpdateInjectiveInOctet(reg, message[0], x);
      }
    } else {
      CrcDetectsOneOctet(CrcUpdate(reg, message[0]), message[1..], i - 1, x);
      assert message[i := x][1..] == message[1..][i - 1 := x];
    }
  }

  /** The trailer: the register bit-reversed, high octet first. */

  function BitRev16(x: bv16): bv16 {
    var a := ((x & 0x5555) << 1) | ((x >> 1) & 0x5555);
    var b := ((a & 0x3333) << 2) | ((a >> 2) & 0x3333);
    var c := ((b & 0x0f0f) << 4) | ((b >> 4) & 0x0f0f);
    (c << 8) | (c >> 8)
  }

  // The number whose bits are given, least significant first.
  function FromBits(bits: seq<bool>): nat {
    if bits == [] then 0 else (if bits[0] then 1 else 0) + 2 * FromBits(bits[1..])
  }

  // The eight low bits of a word, least significant first.
  function LowBits(v: bv16): (r: seq<bool>)
    ensures |r| == 8
  {
    [v & 0x01 != 0, v & 0x02 != 0, v & 0x04 != 0, v & 0x08 != 0,
     v & 0x10 != 0, v & 0x20 != 0, v & 0x40 != 0, v & 0x80 != 0]
  }

  // The low octet of a register word.
  function Octet(v: bv16): byte {
    FromBitsBound(LowBits(v));
    FromBits(LowBits(v))
  }

  lemma FromBitsBound(bits: seq<bool>)
    requires |bits| == 8
    ensures FromBits(bits) < 256
  {
    FromBitsBelow(bits);
    assert Pow2(8) == 256 by { assert Pow2(4) == 16; }
  }

  lemma {:induction false} FromBitsBelow(bits: seq<bool>)
    ensures FromBits(bits) < Pow2(|bits|)
  {
    if bits != [] {
      FromBitsBelow(bits[1..]);
    }
  }

  lemma {:induction false} BitOfFromBits(bits: seq<bool>, k: nat)
    requires k < |bits|
    ensures Bit(FromBits(bits), k) == bits[k]
  {
    var n := FromBits(bits);
    assert n / 2 == FromBits(bits[1..]) && (n % 2 == 1) == bits[0];
    if k > 0 {
      BitOfFromBits(bits[1..], k - 1);
    }
  }

  function CrcTrailer(crc: bv16): (t: seq<byte>)
    ensures |t| == 2
  {
    [Octet(BitRev16(crc) >> 8), Octet(BitRev16(crc) & 0xff)]
  }

  // get_unaligned_be16
  function Be16(high: byte, low: byte): bv16 {
    (Word(high) << 8) | Word(low)
  }

  lemma MasksOfWord(v: bv16, d: byte)
    requires Bit(d, 0) == (v & 0x01 != 0) && Bit(d, 1) == (v & 0x02 != 0)
    requires Bit(d, 2) == (v & 0x04 != 0) && Bit(d, 3) == (v & 0x08 != 0)
    requires Bit(d, 4) == (v & 0x10 != 0) && Bit(d, 5) == (v & 0x20 != 0)
    requires Bit(d, 6) == (v & 0x40 != 0) && Bit(d, 7) == (v & 0x80 != 0)
    ensures Word(d) == v & 0xff
  {}

  lemma WordOfOctet(v: bv16)
    ensures Word(Octet(v)) == v & 0xff
  {
    var bits := LowBits(v);
    forall k: nat | k < 8
      ensures Bit(Octet(v), k) == bits[k]
    {
      BitOfFromBits(bits, k);
    }
    assert bits[0] == Bit(Octet(v), 0) && bits[1] == Bit(Octet(v), 1);
    assert bits[2] == Bit(Octet(v), 2) && bits[3] == Bit(Octet(v), 3);
    assert bits[4] == Bit(Octet(v), 4) && bits[5] == Bit(Octet(v), 5);
    assert bits[6] == Bit(Octet(v), 6) && bits[7] == Bit(Octet(v), 7);
    MasksOfWord(v, Octet(v));
  }

  lemma JoinOctets(x: bv16, high: bv16, low: bv16)
    requires high == x >> 8 && low == x & 0xff
    ensures ((high & 0xff) << 8) | (low & 0xff) == x
  {}

  lemma WordsJoined(x: bv16, high: bv16, low: bv16)
    requires ((high & 0xff) << 8) | (low & 0xff) == x
    ensures Be16(Octet(high), Octet(low)) == x
  {
    WordOfOctet(high);
    WordOfOctet(low);
    hide Octet, Word;
  }

  lemma WordSplit(x: bv16)
    ensures Be16(Octet(x >> 8), Octet(x & 0xff)) == x
  {
    hide Octet, Be16;
    JoinOctets(x, x >> 8, x & 0xff);
    WordsJoined(x, x >> 8, x & 0xff);
  }

  // Reading the trailer back gives the bit-reversed register.
  lemma TrailerReadsBack(crc: bv16)
    ensures Be16(CrcTrailer(crc)[0], CrcTrailer(crc)[1]) == BitRev16(crc)
  {
    WordSplit(BitRev16(crc));
  }

  lemma BitRev16Injective(x: bv16, y: bv16)
    requires BitRev16(x) == BitRev16(y)
    ensures x == y
  {}

  lemma SplitJoined(a: bv16, b: bv16, c: bv16, d: bv16)
    requires a < 256 && b < 256 && c < 256 && d < 256
    requires (a << 8) | b == (c << 8) | d
    ensures a == c && b == d
  {}

  lemma Be16Injective(h1: byte, l1: byte, h2: byte, l2: byte)
    requires Be16(h1, l1) == Be16(h2, l2)
    ensures h1 == h2 && l1 == l2
  {
    WordSmall(h1);
    WordSmall(l1);
    WordSmall(h2);
    WordSmall(l2);
    SplitJoined(Word(h1), Word(l1), Word(h2), Word(l2));
    OctetsEqual(h1, h2);
    OctetsEqual(l1, l2);
  }

  /** The trailer on the wire, bit by bit. */

  // Bit k of a register word, counted from the least significant.
  predicate RegisterBit(x: bv16, k: nat)
    requires k < 16
  {
    match k
    case 0 => x & 0x0001 != 0
    case 1 => x & 0x0002 != 0
    case 2 => x & 0x0004 != 0
    case 3 => x & 0x0008 != 0
    case 4 => x & 0x0010 != 0
    case 5 => x & 0x0020 != 0
    case 6 => x & 0x0040 != 0
    case 7 => x & 0x0080 != 0
    case 8 => x & 0x0100 != 0
    case 9 => x & 0x0200 != 0
    case 10 => x & 0x0400 != 0
    case 11 => x & 0x0800 != 0
    case 12 => x & 0x1000 != 0
    case 13 => x & 0x2000 != 0
    case 14 => x & 0x4000 != 0
    case 15 => x & 0x8000 != 0
  }

  lemma ReversedLow(x: bv16, r: bv16)
    requires r == BitRev16(x)
    ensures (r & 0x0001 != 0) == (x & 0x8000 != 0) && (r & 0x0002 != 0) == (x & 0x4000 != 0)
    ensures (r & 0x0004 != 0) == (x & 0x2000 != 0) && (r & 0x0008 != 0) == (x & 0x1000 != 0)
    ensures (r & 0x0010 != 0) == (x & 0x0800 != 0) && (r & 0x0020 != 0) == (x & 0x0400 != 0)
    ensures (r & 0x0040 != 0) == (x & 0x0200 != 0) && (r & 0x0080 != 0) == (x & 0x0100 != 0)
  {}

  lemma ReversedHigh(x: bv16, r: bv16)
    requires r == BitRev16(x)
    ensures (r & 0x0100 != 0) == (x & 0x0080 != 0) && (r & 0x0200 != 0) == (x & 0x0040 != 0)
    ensures (r & 0x0400 != 0) == (x & 0x0020 != 0) && (r & 0x0800 != 0) == (x & 0x0010 != 0)
    ensures (r & 0x1000 != 0) == (x & 0x0008 != 0) && (r & 0x2000 != 0) == (x & 0x0004 != 0)
    ensures (r & 0x4000 != 0) == (x & 0x0002 != 0) && (r & 0x8000 != 0) == (x & 0x0001 != 0)
  {}

  lemma LowBitReversed(x: bv16, r: bv16, k: nat)
    requires r == BitRev16(x) && k < 8
    ensures RegisterBit(r, k) == RegisterBit(x, 15 - k)
  {
    ReversedLow(x, r);
    hide BitRev16;
  }

  lemma HighBitReversed(x: bv16, r: bv16, k: nat)
    requires r == BitRev16(x) && 8 <= k < 16
    ensures RegisterBit(r, k) == RegisterBit(x, 15 - k)
  {
    ReversedHigh(x, r);
    hide BitRev16;
  }

  // Bit k of the reversed register is bit 15 - k of the register.
  lemma BitRev16Reverses(x: bv16, k: nat)
    requires k < 16
    ensures RegisterBit(BitRev16(x), k) == RegisterBit(x, 15 - k)
  {
    var r := BitRev16(x);
    if k < 8 { LowBitReversed(x, r, k); } else { HighBitReversed(x, r, k); }
    hide BitRev16, RegisterBit;
  }

  lemma LowBitsAre(v: bv16, k: nat)
    requires k < 8
    ensures LowBits(v)[k] == RegisterBit(v, k)
  {}

  lemma OctetBit(v: bv16, k: nat)
    requires k < 8
    ensures Bit(Octet(v), k) == RegisterBit(v, k)
  {
    BitOfFromBits(LowBits(v), k);
    LowBitsAre(v, k);
    assert Octet(v) == FromBits(LowBits(v));
    hide Bit, FromBits, RegisterBit;
  }

  lemma HighHalf(v: bv16, h: bv16)
    requires h == v >> 8
    ensures (h & 0x0001 != 0) == (v & 0x0100 != 0) && (h & 0x0002 != 0) == (v & 0x0200 != 0)
    ensures (h & 0x0004 != 0) == (v & 0x0400 != 0) && (h & 0x0008 != 0) == (v & 0x0800 != 0)
    ensures (h & 0x0010 != 0) == (v & 0x1000 != 0) && (h & 0x0020 != 0) == (v & 0x2000 != 0)
    ensures (h & 0x0040 != 0) == (v & 0x4000 != 0) && (h & 0x0080 != 0) == (v & 0x8000 != 0)
  {}

  lemma LowHalf(v: bv16, l: bv16)
    requires l == v & 0xff
    ensures (l & 0x0001 != 0) == (v & 0x0001 != 0) && (l & 0x0002 != 0) == (v & 0x0002 != 0)
    ensures (l & 0x0004 != 0) == (v & 0x0004 != 0) && (l & 0x0008 != 0) == (v & 0x0008 != 0)
    ensures (l & 0x0010 != 0) == (v & 0x0010 != 0) && (l & 0x0020 != 0) == (v & 0x0020 != 0)
    ensures (l & 0x0040 != 0) == (v & 0x0040 != 0) && (l & 0x0080 != 0) == (v & 0x0080 != 0)
  {}

  lemma HighHalfBit(v: bv16, k: nat)
    requires k < 8
    ensures RegisterBit(v >> 8, k) == RegisterBit(v, k + 8)
  {
    HighHalf(v, v >> 8);
  }

  lemma LowHalfBit(v: bv16, k: nat)
    requires k < 8
    ensures RegisterBit(v & 0xff, k) == RegisterBit(v, k)
  {
    LowHalf(v, v & 0xff);
  }

  // The first trailer octet carries register bits 0 to 7, bit 0 as its most significant; the
  // second carries bits 8 to 15 likewise.
  lemma TrailerBits(crc: bv16, k: nat)
    requires k < 8
    ensures Bit(CrcTrailer(crc)[0], 7 - k) == RegisterBit(crc, k)
    ensures Bit(CrcTrailer(crc)[1], 7 - k) == RegisterBit(crc, 8 + k)
  {
    hide BitRev16, Octet, Bit, RegisterBit;
    var r := BitRev16(crc);
    OctetBit(r >> 8, 7 - k);
    OctetBit(r & 0xff, 7 - k);
    HighHalfBit(r, 7 - k);
    LowHalfBit(r, 7 - k);
    BitRev16Reverses(crc, 15 - k);
    BitRev16Reverses(crc, 7 - k);
  }
}
