// The packet format that BCSP and Three-wire (H5) share: SLIP escaping (the PROTOCOL section of
// RFC 1055), a four-octet header with its checksum, and an optional CRC.
// Source: drivers/blue8852be/hci_bcsp.c, lines 110-132 and 163-268; drivers/blue8852be/hci_h5.c,
// lines 42-53 and 641-735.
module Framing {
  import opened Bytes
  import opened Crc

  const DELIMITER: byte := 0xc0
  const ESCAPE: byte := 0xdb
  const ESCAPED_DELIMITER: byte := 0xdc
  const ESCAPED_ESCAPE: byte := 0xdd
  const MAX_PAYLOAD: nat := 0xFFF

  /** Frames and their encoding. */

  // A packet as the link layer sees it. Unreliable packets carry no sequence number.
  datatype Frame = Frame(rel: bool, seqno: nat, ack: nat, crc: bool, chan: nat, payload: seq<byte>)
  {
    predicate WellFormed() {
      seqno < 8 && ack < 8 && chan < 16 && |payload| <= MAX_PAYLOAD && (!rel ==> seqno == 0)
    }
  }

  // What a sender can build and a receiver can complete.
  type GoodFrame = f: Frame | f.WellFormed() witness Frame(false, 0, 0, false, 0, [])

  // bcsp_slip_one_byte
  function EscapeByte(b: byte): seq<byte> {
    if b == DELIMITER then [ESCAPE, ESCAPED_DELIMITER]
    else if b == ESCAPE then [ESCAPE, ESCAPED_ESCAPE]
    else [b]
  }

  function Escape(s: seq<byte>): seq<byte> {
    if s == [] then [] else EscapeByte(s[0]) + Escape(s[1..])
  }

  function FirstOctet(rel: bool, seqno: nat, ack: nat, crc: bool): byte
    requires seqno < 8 && ack < 8
  {
    8 * ack + (if rel then 0x80 + seqno else 0) + (if crc then 0x40 else 0)
  }

  function Checksum(a: byte, b: byte, c: byte): byte {
    255 - (a + b + c) % 256
  }

  function HeaderOctets(h0: byte, chan: nat, len: nat): (h: seq<byte>)
    requires chan < 16 && len <= MAX_PAYLOAD
    ensures |h| == 4
  {
    var h1 := 16 * (len % 16) + chan;
    var h2 := len / 16;
    [h0, h1, h2, Checksum(h0, h1, h2)]
  }

  function Header(f: Frame): (h: seq<byte>)
    requires f.WellFormed()
    ensures |h| == 4
  {
    HeaderOctets(FirstOctet(f.rel, f.seqno, f.ack, f.crc), f.chan, |f.payload|)
  }

  // The unescaped octets of a packet: header, payload and, if enabled, the CRC.
  function Raw(f: Frame): seq<byte>
    requires f.WellFormed()
  {
    var body := Header(f) + f.payload;
    if f.crc then body + CrcTrailer(CrcOf(CRC_INIT, body)) else body
  }

  function Encode(f: Frame): seq<byte>
    requires f.WellFormed()
  {
    [DELIMITER] + Escape(Raw(f)) + [DELIMITER]
  }

  function Encodings(frames: seq<GoodFrame>): (r: seq<seq<byte>>)
    ensures |r| == |frames|
  {
    if frames == [] then [] else [Encode(frames[0])] + Encodings(frames[1..])
  }

  /** Reading header fields. */

  predicate CrcFlag(skb: seq<byte>)
    requires skb != []
  {
    skb[0] / 64 % 2 == 1
  }

  function HdrLen(skb: seq<byte>): (n: nat)
    requires |skb| >= 4
    ensures n <= MAX_PAYLOAD
  {
    var low: nat, high: nat := skb[1], skb[2];
    low / 16 + 16 * high
  }

  predicate ChecksumOk(skb: seq<byte>)
    requires |skb| >= 4
  {
    Checksum(skb[0], skb[1], skb[2]) == skb[3]
  }

  // A header and what follows it, as a frame.
  function ParseOctets(skb: seq<byte>): (f: Frame)
    requires |skb| >= 4
    ensures f.seqno < 8 && f.ack < 8 && f.chan < 16 && f.payload == skb[4..] && (!f.rel ==> f.seqno == 0)
  {
    var rel := skb[0] / 128 == 1;
    Frame(rel, if rel then skb[0] % 8 else 0, skb[0] / 8 % 8, CrcFlag(skb), skb[1] % 16, skb[4..])
  }

  /** Escaping. */

  predicate NoDelimiter(s: seq<byte>) { forall i :: 0 <= i < |s| ==> s[i] != DELIMITER }

  lemma {:induction false} EscapeAppend(a: seq<byte>, b: seq<byte>)
    ensures Escape(a + b) == Escape(a) + Escape(b)
  {
    hide EscapeByte;
    if a == [] {
      assert a + b == b;
    } else {
      EscapeAppend(a[1..], b);
      assert (a + b)[0] == a[0] && (a + b)[1..] == a[1..] + b;
      var first, rest, last := EscapeByte(a[0]), Escape(a[1..]), Escape(b);
      assert first + (rest + last) == first + rest + last;
    }
  }

  // Escaping hides every delimiter and at most doubles the length.
  lemma {:induction false} EscapeIsClean(s: seq<byte>)
    ensures NoDelimiter(Escape(s))
    ensures |s| <= |Escape(s)| <= 2 * |s|
  {
    if s != [] {
      EscapeIsClean(s[1..]);
    }
  }

  lemma EscapeOneMore(s: seq<byte>, b: byte)
    ensures Escape(s + [b]) == Escape(s) + EscapeByte(b)
  {
    EscapeAppend(s, [b]);
    assert [b][1..] == [];
    assert Escape([b]) == EscapeByte(b) + Escape([b][1..]);
  }

  lemma EscapeParts(h: seq<byte>, p: seq<byte>, t: seq<byte>, end: seq<byte>)
    ensures Escape(h + p + t) + end == Escape(h) + (Escape(p) + (Escape(t) + end))
  {
    EscapeAppend(h + p, t);
    EscapeAppend(h, p);
    Regroup(Escape(h), Escape(p), Escape(t), end);
  }

  lemma Regroup(a: seq<byte>, b: seq<byte>, c: seq<byte>, d: seq<byte>)
    ensures a + b + c + d == a + (b + (c + d))
  {}

  /** Headers. */

  lemma OctetFields(rel: bool, seqno: nat, ack: nat, crc: bool)
    requires seqno < 8 && ack < 8 && (!rel ==> seqno == 0)
    ensures var h0 := FirstOctet(rel, seqno, ack, crc);
      && (h0 / 128 == 1 <==> rel) && h0 / 64 % 2 == (if crc then 1 else 0)
      && h0 / 8 % 8 == ack && h0 % 8 == seqno
  {}

  lemma LengthFields(h0: byte, chan: nat, len: nat)
    requires chan < 16 && len <= MAX_PAYLOAD
    ensures var h := HeaderOctets(h0, chan, len);
      h[0] == h0 && ChecksumOk(h) && HdrLen(h) == len && h[1] % 16 == chan
  {}

  lemma HeaderReadsBack(f: Frame)
    requires f.WellFormed()
    ensures ChecksumOk(Header(f)) && HdrLen(Header(f)) == |f.payload| && CrcFlag(Header(f)) == f.crc
    ensures ParseOctets(Header(f) + f.payload) == f
  {
    var h0 := FirstOctet(f.rel, f.seqno, f.ack, f.crc);
    OctetFields(f.rel, f.seqno, f.ack, f.crc);
    LengthFields(h0, f.chan, |f.payload|);
    hide FirstOctet, HeaderOctets, ChecksumOk, HdrLen;
    var skb := Header(f) + f.payload;
    assert skb[4..] == f.payload;
  }

  // No encoded frame outgrows the buffer it is built in.
  lemma EncodedLength(f: Frame)
    requires f.WellFormed()
    ensures |Encode(f)| <= (|f.payload| + 6) * 2 + 2
  {
    EscapeIsClean(Raw(f));
  }

  lemma ParseFields(skb: seq<byte>)
    requires |skb| >= 4
    ensures var f := ParseOctets(skb);
      && f.rel == (skb[0] / 128 == 1) && (f.rel ==> f.seqno == skb[0] % 8)
      && f.ack == skb[0] / 8 % 8 && f.chan == skb[1] % 16 && f.payload == skb[4..]
  {}
}
