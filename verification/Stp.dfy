// MediaTek STP: H4 octets travel in STP packets, each with a header, a payload and a trailer.
// Source: drivers/blue8852be/btmtkuart.c, lines 428-521, 580-581 and 864-896.
module Stp {
  import opened Bytes
  import opened Machine

  const PAD_SIZE: nat := 6
  const MAX_STP: nat := 2048

  // Trailer and header octets gather in the pad; dlen is what is left of the payload.
  datatype StpState = Stp(pad: seq<byte>, cursor: nat, dlen: nat)

  predicate StpOk(s: StpState) { |s.pad| == PAD_SIZE && s.cursor <= PAD_SIZE && (s.dlen > 0 ==> s.cursor == PAD_SIZE) }

  type StpValid = s: StpState | StpOk(s) witness Stp([0, 0, 0, 0, 0, 0], 2, 0)

  // The length the header in the pad announces: twelve bits of a big-endian field.
  function Announced(pad: seq<byte>): nat
    requires |pad| == PAD_SIZE
  {
    var high: nat, low: nat := pad[3], pad[4];
    high % 16 * 256 + low
  }

  // Once the pad is full: a payload is due, unless this was no header.
  function HeaderRead(pad: seq<byte>): StpValid
    requires |pad| == PAD_SIZE
  {
    if pad[2] != 0x80 || Announced(pad) > MAX_STP then Stp(pad, 2, 0) else Stp(pad, PAD_SIZE, Announced(pad))
  }

  // The next octet starts a trailer when the payload is used up.
  function Rewind(s: StpValid): StpValid {
    if s.dlen == 0 && s.cursor == PAD_SIZE then s.(cursor := 0) else s
  }

  function FillPad(s: StpValid, b: byte): StpValid
    requires s.cursor < PAD_SIZE
  {
    var pad := s.pad[s.cursor := b];
    if s.cursor + 1 == PAD_SIZE then HeaderRead(pad) else Stp(pad, s.cursor + 1, 0)
  }

  // One octet: gathered in the pad, or handed on.
  function StpByte(s: StpValid, b: byte): Out<StpValid, byte> {
    var r := Rewind(s);
    if r.cursor < PAD_SIZE then Out(FillPad(r, b), []) else Out(r.(dlen := r.dlen - 1), [b])
  }

  function Strip(s: StpValid, data: seq<byte>): Out<StpValid, byte> { Run(StpByte, s, data) }

  /** STP packets. */

  type Nibble = n: nat | n < 16

  // The type, checksum and trailer are not looked at.
  datatype Segment = Segment(ptype: Nibble, cs: byte, payload: seq<byte>, trailer: seq<byte>)
  {
    predicate WellFormed() { |payload| <= MAX_STP && |trailer| == 2 }
  }

  function SegmentHeader(g: Segment): (h: seq<byte>)
    ensures |h| == 4
  {
    [0x80, g.ptype * 16 + |g.payload| / 256 % 16, |g.payload| % 256, g.cs]
  }

  function EncodeSegment(g: Segment): seq<byte> {
    SegmentHeader(g) + g.payload + g.trailer
  }

  // The pad after octets stored at the cursor.
  function PadWith(pad: seq<byte>, at: nat, s: seq<byte>): (r: seq<byte>)
    requires |pad| == PAD_SIZE && at + |s| <= PAD_SIZE
    ensures |r| == PAD_SIZE
  {
    pad[..at] + s + pad[at + |s|..]
  }

  lemma {:induction false} PadFills(s: StpValid, data: seq<byte>)
    requires s.dlen == 0 && s.cursor + |data| < PAD_SIZE
    ensures Strip(s, data) == Out(Stp(PadWith(s.pad, s.cursor, data), s.cursor + |data|, 0), [])
    decreases |data|
  {
    if data == [] {
      assert PadWith(s.pad, s.cursor, data) == s.pad;
    } else {
      var next := FillPad(s, data[0]);
      PadFills(next, data[1..]);
      assert PadWith(next.pad, next.cursor, data[1..]) == PadWith(s.pad, s.cursor, data);
    }
  }

  lemma PadCompletes(s: StpValid, data: seq<byte>)
    requires s.dlen == 0 && s.cursor < PAD_SIZE && s.cursor + |data| == PAD_SIZE
    ensures Strip(s, data) == Out(HeaderRead(PadWith(s.pad, s.cursor, data)), [])
  {
    var most, last := data[..|data| - 1], data[|data| - 1];
    PadFills(s, most);
    var mid: StpValid := Stp(PadWith(s.pad, s.cursor, most), s.cursor + |most|, 0);
    assert data == most + [last];
    RunAppend(StpByte, s, most, [last]);
    RunOne(StpByte, mid, last);
    assert mid.pad[mid.cursor := last] == PadWith(s.pad, s.cursor, data);
  }

  lemma {:induction false} PayloadPasses(s: StpValid, data: seq<byte>)
    requires s.cursor == PAD_SIZE && |data| <= s.dlen
    ensures Strip(s, data) == Out(s.(dlen := s.dlen - |data|), data)
    decreases |data|
  {
    if data != [] {
      PayloadPasses(s.(dlen := s.dlen - 1), data[1..]);
      assert data == [data[0]] + data[1..];
    }
  }

  lemma HeaderReadsBack(g: Segment, pad: seq<byte>)
    requires g.WellFormed() && |pad| == PAD_SIZE && pad[2..] == SegmentHeader(g)
    ensures HeaderRead(pad) == Stp(pad, PAD_SIZE, |g.payload|)
  {
    var h := SegmentHeader(g);
    assert pad[2] == h[0] && pad[3] == h[1] && pad[4] == h[2];
    TwelveBits(g.ptype, |g.payload|);
  }

  lemma TwelveBits(ptype: Nibble, n: nat)
    requires n < 4096
    ensures (ptype * 16 + n / 256 % 16) % 16 * 256 + n % 256 == n
  {
    assert (ptype * 16 + n / 256) % 16 == n / 256;
  }

  // Where a header is due next: the cursor past the trailer's two places.
  predicate Ready(s: StpState) { s.cursor == 2 && s.dlen == 0 }

  // A whole STP packet hands on exactly its payload.
  lemma SegmentIn(s: StpValid, g: Segment)
    requires Ready(s) && g.WellFormed()
    ensures var out := Strip(s, EncodeSegment(g));
      Ready(out.st) && out.outs == g.payload
  {
    hide SegmentHeader, HeaderRead, StpByte;
    var h := SegmentHeader(g);
    PadCompletes(s, h);
    var pad := PadWith(s.pad, 2, h);
    HeaderReadsBack(g, pad);
    var due: StpValid := Stp(pad, PAD_SIZE, |g.payload|);
    PayloadPasses(due, g.payload);
    var done: StpValid := due.(dlen := 0);
    TrailerIn(done, g.trailer);
    RunAppend(StpByte, due, g.payload, g.trailer);
    RunAppend(StpByte, s, h, g.payload + g.trailer);
    assert EncodeSegment(g) == h + (g.payload + g.trailer);
    assert [] + (g.payload + []) == g.payload;
  }

  lemma TrailerIn(s: StpValid, t: seq<byte>)
    requires s.cursor == PAD_SIZE && s.dlen == 0 && |t| == 2
    ensures var out := Strip(s, t); Ready(out.st) && out.outs == []
  {
    PadFills(Rewind(s), t);
    assert StpByte(s, t[0]) == StpByte(Rewind(s), t[0]);
  }

  // The same from the octets alone: 0x80, a big-endian word whose low twelve bits are the length,
  // an octet of whatever content, as many octets as that, and two more.
  lemma SegmentAsWritten(s: StpValid, h: seq<byte>, payload: seq<byte>, trailer: seq<byte>)
    requires Ready(s) && |h| == 4 && |trailer| == 2 && |payload| <= 2048
    requires h[0] == 0x80 && Word(h[1], h[2]) % 4096 == |payload|
    ensures var out := Strip(s, h + payload + trailer);
      Ready(out.st) && out.outs == payload
  {
    var high: nat := h[1];
    WordSplit(high, h[2]);
    var g := Segment(high / 16, h[3], payload, trailer);
    assert high / 16 * 16 + |payload| / 256 % 16 == high && |payload| % 256 == h[2];
    assert SegmentHeader(g) == h;
    SegmentIn(s, g);
  }

  // A big-endian word.
  function Word(high: nat, low: nat): nat { 256 * high + low }

  lemma WordSplit(high: nat, low: nat)
    requires high < 256 && low < 256
    ensures Word(high, low) % 4096 == high % 16 * 256 + low
    ensures Word(high, low) % 4096 / 256 == high % 16 && Word(high, low) % 4096 % 256 == low
  {
    assert Word(high, low) == high / 16 * 4096 + (high % 16 * 256 + low);
  }

  function Segments(gs: seq<Segment>): (r: seq<seq<byte>>)
    ensures |r| == |gs|
  {
    if gs == [] then [] else [EncodeSegment(gs[0])] + Segments(gs[1..])
  }

  function Payloads(gs: seq<Segment>): (r: seq<seq<byte>>)
    ensures |r| == |gs|
  {
    if gs == [] then [] else [gs[0].payload] + Payloads(gs[1..])
  }

  // Any sequence of STP packets hands on the concatenated payloads.
  lemma {:induction false} SegmentsIn(s: StpValid, gs: seq<Segment>)
    requires Ready(s) && forall g :: g in gs ==> g.WellFormed()
    ensures var out := Strip(s, Concat(Segments(gs)));
      Ready(out.st) && out.outs == Concat(Payloads(gs))
    decreases |gs|
  {
    hide StpByte, EncodeSegment;
    if gs != [] {
      SegmentIn(s, gs[0]);
      var first := Strip(s, EncodeSegment(gs[0]));
      SegmentsIn(first.st, gs[1..]);
      RunAppend(StpByte, s, EncodeSegment(gs[0]), Concat(Segments(gs[1..])));
    }
  }

  /** Resynchronisation. */

  // Four octets that are no header are dropped, and the next four are tried.
  lemma NoHeaderIsDropped(s: StpValid, h: seq<byte>)
    requires Ready(s) && |h| == 4
    requires h[0] != 0x80 || (var high: nat, low: nat := h[1], h[2]; high % 16 * 256 + low) > MAX_STP
    ensures var out := Strip(s, h); Ready(out.st) && out.outs == []
  {
    hide StpByte;
    PadCompletes(s, h);
    var pad := PadWith(s.pad, 2, h);
    assert pad[2] == h[0] && pad[3] == h[1] && pad[4] == h[2];
  }

  /** The sending side. */

  // btmtkuart_send_frame on a typed packet.
  function SendFrame(h4: seq<byte>): seq<byte> {
    EncodeSegment(Segment(0, 0, h4, [0, 0]))
  }

  // The octets that go out around a typed packet of up to twelve bits of length.
  lemma SentOctets(h4: seq<byte>)
    requires |h4| <= 4095
    ensures |SendFrame(h4)| == |h4| + 6 && SendFrame(h4)[4..4 + |h4|] == h4
    ensures SendFrame(h4)[0] == 0x80 && Word(SendFrame(h4)[1], SendFrame(h4)[2]) == |h4|
    ensures SendFrame(h4)[3] == 0 && SendFrame(h4)[4 + |h4|..] == [0, 0]
  {}

  // How many of n octets can at most be payload.
  function Room(s: StpValid, n: nat): nat {
    var r := Rewind(s);
    if r.cursor < PAD_SIZE then (if n <= PAD_SIZE - r.cursor then 0 else n - (PAD_SIZE - r.cursor))
    else if n <= r.dlen then n
    else if n <= r.dlen + PAD_SIZE then r.dlen
    else n - PAD_SIZE
  }

  lemma {:induction false} NoMoreThanRoom(s: StpValid, data: seq<byte>)
    ensures |Strip(s, data).outs| <= Room(s, |data|)
    decreases |data|
  {
    if data != [] {
      hide Announced;
      var first := StpByte(s, data[0]);
      NoMoreThanRoom(first.st, data[1..]);
    }
  }

  // What the driver sends can be read back by the format it receives exactly when the packet
  // is no longer than the receiver's limit; nothing on the sending side checks that.
  lemma SentFrameReadsBack(s: StpValid, h4: seq<byte>)
    requires Ready(s)
    ensures Strip(s, SendFrame(h4)).outs == h4 <==> |h4| <= MAX_STP
  {
    var g := Segment(0, 0, h4, [0, 0]);
    if |h4| <= MAX_STP {
      SegmentIn(s, g);
    } else {
      TooLongIsTorn(s, g);
    }
  }

  lemma TooLongIsTorn(s: StpValid, g: Segment)
    requires Ready(s) && |g.trailer| == 2 && |g.payload| > MAX_STP
    ensures |Strip(s, EncodeSegment(g)).outs| < |g.payload|
  {
    hide SegmentHeader, StpByte;
    var h := SegmentHeader(g);
    PadCompletes(s, h);
    var pad := PadWith(s.pad, 2, h);
    var rest := g.payload + g.trailer;
    RunAppend(StpByte, s, h, rest);
    assert EncodeSegment(g) == h + rest;
    NoMoreThanRoom(HeaderRead(pad), rest);
    assert Announced(pad) <= MAX_STP ==> Room(HeaderRead(pad), |rest|) < |g.payload|;
  }
}
