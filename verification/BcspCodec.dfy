// The byte-at-a-time receiver of BCSP, as functions on values.
// Source: drivers/blue8852be/hci_bcsp.c, lines 425-472 and 574-686.
module BcspCodec {
  import opened Bytes
  import opened Crc
  import opened Machine
  import opened Framing

  const RX_BUFFER: nat := 0x1005

  /** The receiver. An absent buffer is the empty one. */

  datatype Phase = W4PktDelimiter | W4PktStart | W4BcspHdr | W4Data | W4Crc

  datatype RxState = Rx(phase: Phase, count: nat, esc: bool, skb: seq<byte>, crc: bv16)
  {
    // What every run keeps: how many octets are still owed, and the buffer bound.
    predicate Valid() {
      match phase
      case W4PktDelimiter => count == 0 && skb == []
      case W4PktStart => count == 0 && skb == []
      case W4BcspHdr => |skb| + count == 4 && (count == 0 ==> !esc)
      case W4Data =>
        && |skb| >= 4 && ChecksumOk(skb)
        && |skb| + count == 4 + HdrLen(skb) && (count == 0 ==> !esc)
      case W4Crc =>
        && |skb| >= 4 && ChecksumOk(skb) && CrcFlag(skb)
        && |skb| + count == 4 + HdrLen(skb) + 2 && (count == 0 ==> !esc)
    }
  }

  const RX_INIT := Rx(W4PktDelimiter, 0, false, [], 0)

  type RxValid = r: RxState | r.Valid() witness RX_INIT

  // A completed buffer: header and payload.
  type Packet = skb: seq<byte> | 4 <= |skb| <= 4 + MAX_PAYLOAD witness [0, 0, 0, 0]

  type RxOut = Out<RxValid, Packet>

  function Parse(skb: Packet): GoodFrame { ParseOctets(skb) }

  function Reset(rx: RxState): RxValid { Rx(W4PktDelimiter, 0, rx.esc, [], rx.crc) }

  // Store one unescaped octet, feeding the CRC while it still covers the octet.
  function Put(rx: RxValid, b: byte): RxValid
    requires rx.count > 0
  {
    var skb := rx.skb + [b];
    var crc := if CrcFlag(skb) && rx.phase != W4Crc then CrcUpdate(rx.crc, b) else rx.crc;
    Rx(rx.phase, rx.count - 1, false, skb, crc)
  }

  // bcsp_unslip_one_byte
  function Unslip(rx: RxValid, b: byte): RxValid
    requires rx.count > 0
  {
    if !rx.esc then
      if b == ESCAPE then rx.(esc := true) else Put(rx, b)
    else if b == ESCAPED_DELIMITER then Put(rx, DELIMITER)
    else if b == ESCAPED_ESCAPE then Put(rx, ESCAPE)
    else Reset(rx)
  }

  predicate CrcMatches(rx: RxState)
    requires |rx.skb| >= 2
  {
    BitRev16(rx.crc) == Be16(rx.skb[|rx.skb| - 2], rx.skb[|rx.skb| - 1])
  }

  // The transitions taken before an octet is consumed, once nothing is owed.
  function SettleCrc(rx: RxValid): RxOut
    requires rx.phase == W4Crc && rx.count == 0
  {
    Out(Reset(rx), if CrcMatches(rx) then [rx.skb[..|rx.skb| - 2]] else [])
  }

  function SettleData(rx: RxValid): RxOut
    requires rx.phase == W4Data && rx.count == 0
  {
    if CrcFlag(rx.skb) then Out(rx.(phase := W4Crc, count := 2), []) else Out(Reset(rx), [rx.skb])
  }

  function SettleHdr(rx: RxValid): RxOut
    requires rx.phase == W4BcspHdr && rx.count == 0
  {
    if !ChecksumOk(rx.skb) then Out(Reset(rx), [])
    else
      var data := rx.(phase := W4Data, count := HdrLen(rx.skb));
      if data.count == 0 then SettleData(data) else Out(data, [])
  }

  predicate Settled(rx: RxState) { rx.count > 0 || rx.phase in {W4PktDelimiter, W4PktStart} }

  function Settle(rx: RxValid): (out: RxOut)
    ensures Settled(out.st)
  {
    if Settled(rx) then Out(rx, [])
    else if rx.phase == W4BcspHdr then SettleHdr(rx)
    else if rx.phase == W4Data then SettleData(rx)
    else SettleCrc(rx)
  }

  const FRESH_HEADER: RxValid := Rx(W4BcspHdr, 4, false, [], CRC_INIT)

  function Consume(rx: RxValid, b: byte): RxValid
    requires Settled(rx)
  {
    if rx.count > 0 then
      if b == DELIMITER then Rx(W4PktStart, 0, rx.esc, [], rx.crc) else Unslip(rx, b)
    else if b == DELIMITER then rx.(phase := W4PktStart)
    else if rx.phase == W4PktDelimiter then rx
    else Unslip(FRESH_HEADER, b)
  }

  function RxByte(rx: RxValid, b: byte): RxOut {
    var s := Settle(rx);
    Out(Consume(s.st, b), s.outs)
  }

  function Feed(rx: RxValid, data: seq<byte>): RxOut {
    Run(RxByte, rx, data)
  }

  /** The receiver on escaped input. */

  // The buffer after storing the octets of s one at a time.
  function Absorb(rx: RxValid, s: seq<byte>): RxValid
    requires |s| <= rx.count
    decreases |s|
  {
    if s == [] then rx else Absorb(Put(rx, s[0]), s[1..])
  }

  lemma {:induction false} AbsorbIs(rx: RxValid, s: seq<byte>)
    requires s != [] && |s| <= rx.count
    ensures var all := rx.skb + s;
      Absorb(rx, s) == Rx(rx.phase, rx.count - |s|, false, all,
        if CrcFlag(all) && rx.phase != W4Crc then CrcOf(rx.crc, s) else rx.crc)
    decreases |s|
  {
    var next := Put(rx, s[0]);
    assert CrcOf(rx.crc, s) == CrcOf(CrcUpdate(rx.crc, s[0]), s[1..]);
    assert next.skb + s[1..] == rx.skb + s;
    if |s| > 1 {
      AbsorbIs(next, s[1..]);
    } else {
      assert s[1..] == [];
      assert rx.skb + s == next.skb;
    }
  }

  lemma SettledStays(rx: RxValid)
    requires Settled(rx)
    ensures Settle(rx) == Out(rx, [])
  {}

  lemma EscapedOctet(rx: RxValid, b: byte)
    requires rx.count > 0 && !rx.esc
    ensures Feed(rx, EscapeByte(b)) == Out(Put(rx, b), [])
  {
    hide CrcUpdate, Reset, Settle;
    SettledStays(rx);
    var e := EscapeByte(b);
    var r := RxByte(rx, e[0]);
    if |e| == 2 {
      assert r == Out(rx.(esc := true), []);
      assert e[1..] == [e[1]];
      SettledStays(r.st);
      RunOne(RxByte, r.st, e[1]);
    } else {
      RunOne(RxByte, rx, b);
    }
  }

  lemma {:induction false} FeedEscaped(rx: RxValid, s: seq<byte>)
    requires !rx.esc && |s| <= rx.count
    ensures Feed(rx, Escape(s)) == Out(Absorb(rx, s), [])
    decreases |s|
  {
    if s != [] {
      EscapedOctet(rx, s[0]);
      FeedEscaped(Put(rx, s[0]), s[1..]);
      RunAppend(RxByte, rx, EscapeByte(s[0]), Escape(s[1..]));
    }
  }

  // A stretch without delimiters is ignored while the receiver waits for one.
  lemma {:induction false} FeedIgnored(rx: RxValid, s: seq<byte>)
    requires rx.phase == W4PktDelimiter && NoDelimiter(s)
    ensures Feed(rx, s) == Out(rx, [])
    decreases |s|
  {
    if s != [] {
      FeedIgnored(rx, s[1..]);
    }
  }

  // States with the same pending transitions react alike to whatever comes next.
  lemma SameSettle(r1: RxValid, r2: RxValid, data: seq<byte>)
    requires Settle(r1) == Settle(r2) && data != []
    ensures Feed(r1, data) == Feed(r2, data)
  {
    assert RxByte(r1, data[0]) == RxByte(r2, data[0]);
  }

  // The CRC register once the octets of s have been covered, under header h.
  function Covered(h: seq<byte>, crc: bv16, s: seq<byte>): bv16
    requires h != []
  {
    if CrcFlag(h) then CrcOf(crc, s) else crc
  }

  predicate GoodBody(body: seq<byte>) {
    |body| >= 4 && ChecksumOk(body) && |body| == 4 + HdrLen(body)
  }

  // The states after a whole header, after the payload, and after the trailer.
  function HeaderDone(h: seq<byte>): RxValid
    requires |h| == 4
  {
    Rx(W4BcspHdr, 0, false, h, Covered(h, CRC_INIT, h))
  }

  function BodyDone(body: seq<byte>): RxValid
    requires GoodBody(body)
  {
    Rx(W4Data, 0, false, body, Covered(body, CRC_INIT, body))
  }

  function TrailerDone(body: seq<byte>, t: seq<byte>): RxValid
    requires GoodBody(body) && CrcFlag(body) && |t| == 2
  {
    Rx(W4Crc, 0, false, body + t, Covered(body, CRC_INIT, body))
  }

  lemma HeaderAbsorbed(h: seq<byte>)
    requires |h| == 4
    ensures Absorb(FRESH_HEADER, h) == HeaderDone(h)
  {
    hide CrcOf;
    AbsorbIs(FRESH_HEADER, h);
    assert FRESH_HEADER.skb + h == h;
  }

  lemma StartOfHeader(rx: RxValid, e: seq<byte>)
    requires rx.phase == W4PktStart && e != [] && e[0] != DELIMITER
    ensures Feed(rx, e) == Feed(FRESH_HEADER, e)
  {
    assert RxByte(rx, e[0]) == RxByte(FRESH_HEADER, e[0]);
  }

  lemma HeaderIn(rx: RxValid, h: seq<byte>, rest: seq<byte>)
    requires rx.phase == W4PktStart && |h| == 4
    ensures Feed(rx, Escape(h) + rest) == Feed(HeaderDone(h), rest)
  {
    hide CrcOf, Escape, RxByte, Absorb, Run;
    var e := Escape(h);
    EscapeIsClean(h);
    StartOfHeader(rx, e + rest);
    FeedEscaped(FRESH_HEADER, h);
    HeaderAbsorbed(h);
    RunAppend(RxByte, FRESH_HEADER, e, rest);
  }

  lemma PayloadAbsorbed(h: seq<byte>, p: seq<byte>)
    requires |h| == 4 && GoodBody(h + p) && p != []
    ensures Absorb(Rx(W4Data, |p|, false, h, Covered(h, CRC_INIT, h)), p) == BodyDone(h + p)
  {
    var data: RxValid := Rx(W4Data, |p|, false, h, Covered(h, CRC_INIT, h));
    AbsorbIs(data, p);
    CrcAppend(CRC_INIT, h, p);
  }

  lemma PayloadIn(h: seq<byte>, p: seq<byte>, rest: seq<byte>)
    requires |h| == 4 && GoodBody(h + p) && rest != []
    ensures Feed(HeaderDone(h), Escape(p) + rest) == Feed(BodyDone(h + p), rest)
  {
    if p == [] {
      assert h + p == h && Escape(p) + rest == rest;
      SameSettle(HeaderDone(h), BodyDone(h), rest);
    } else {
      var data: RxValid := Rx(W4Data, |p|, false, h, Covered(h, CRC_INIT, h));
      SameSettle(HeaderDone(h), data, Escape(p) + rest);
      FeedEscaped(data, p);
      PayloadAbsorbed(h, p);
      RunAppend(RxByte, data, Escape(p), rest);
    }
  }

  lemma TrailerIn(body: seq<byte>, t: seq<byte>, rest: seq<byte>)
    requires GoodBody(body) && CrcFlag(body) && |t| == 2 && rest != []
    ensures Feed(BodyDone(body), Escape(t) + rest) == Feed(TrailerDone(body, t), rest)
  {
    hide CrcOf, CrcUpdate, BitRev16, Be16, ChecksumOk, HdrLen, RxByte;
    var trailer: RxValid := BodyDone(body).(phase := W4Crc, count := 2);
    SameSettle(BodyDone(body), trailer, Escape(t) + rest);
    FeedEscaped(trailer, t);
    AbsorbIs(trailer, t);
    RunAppend(RxByte, trailer, Escape(t), rest);
  }

  // When the receiver hands up a header and payload that arrive with trailer t.
  predicate Accepts(body: seq<byte>, t: seq<byte>)
    requires body != [] && |t| == if CrcFlag(body) then 2 else 0
  {
    CrcFlag(body) ==> BitRev16(CrcOf(CRC_INIT, body)) == Be16(t[0], t[1])
  }

  lemma AfterTrailer(body: seq<byte>, t: seq<byte>)
    requires GoodBody(body) && CrcFlag(body) && |t| == 2
    ensures var out := RxByte(TrailerDone(body, t), DELIMITER);
      out.st.phase == W4PktStart && out.outs == if Accepts(body, t) then [body] else []
  {
    assert (body + t)[..|body + t| - 2] == body;
  }

  lemma TrailerVerdict(body: seq<byte>, t: seq<byte>)
    requires GoodBody(body) && |t| == if CrcFlag(body) then 2 else 0
    ensures var out := Feed(BodyDone(body), Escape(t) + [DELIMITER]);
      out.st.phase == W4PktStart && out.outs == if Accepts(body, t) then [body] else []
  {
    if CrcFlag(body) {
      TrailerIn(body, t, [DELIMITER]);
      AfterTrailer(body, t);
      RunOne(RxByte, TrailerDone(body, t), DELIMITER);
    } else {
      assert Escape(t) + [DELIMITER] == [DELIMITER];
      RunOne(RxByte, BodyDone(body), DELIMITER);
    }
  }

  lemma BodyIn(rx: RxValid, h: seq<byte>, p: seq<byte>, rest: seq<byte>)
    requires rx.phase == W4PktStart && |h| == 4 && GoodBody(h + p) && rest != []
    ensures Feed(rx, Escape(h) + (Escape(p) + rest)) == Feed(BodyDone(h + p), rest)
  {
    HeaderIn(rx, h, Escape(p) + rest);
    PayloadIn(h, p, rest);
  }

  // The verdict on one delimited packet, right or wrong.
  lemma Verdict(rx: RxValid, body: seq<byte>, t: seq<byte>)
    requires rx.phase == W4PktStart && GoodBody(body) && |t| == if CrcFlag(body) then 2 else 0
    ensures var out := Feed(rx, Escape(body + t) + [DELIMITER]);
      out.st.phase == W4PktStart && out.outs == if Accepts(body, t) then [body] else []
  {
    var h, p := body[..4], body[4..];
    assert body == h + p;
    EscapeParts(h, p, t, [DELIMITER]);
    BodyIn(rx, h, p, Escape(t) + [DELIMITER]);
    TrailerVerdict(body, t);
  }

  lemma BadHeader(rx: RxValid, h: seq<byte>, more: seq<byte>)
    requires rx.phase == W4PktStart && |h| == 4 && !ChecksumOk(h)
    ensures var out := Feed(rx, Escape(h + more) + [DELIMITER]);
      out.st.phase == W4PktStart && out.outs == []
  {
    var end := [DELIMITER];
    EscapeAppend(h, more);
    EscapeIsClean(more);
    assert Escape(h + more) + end == Escape(h) + (Escape(more) + end);
    HeaderIn(rx, h, Escape(more) + end);
    var hdr := HeaderDone(h);
    SameSettle(hdr, Reset(hdr), Escape(more) + end);
    FeedIgnored(Reset(hdr), Escape(more));
    RunAppend(RxByte, Reset(hdr), Escape(more), end);
    RunOne(RxByte, Reset(hdr), DELIMITER);
  }

  /** The claims about the codec. */

  // One delimiter brings every state to the start of a packet.
  lemma Resynchronise(rx: RxValid)
    ensures RxByte(rx, DELIMITER).st.phase == W4PktStart
  {}

  lemma FrameFromStart(rx: RxValid, f: Frame)
    requires rx.phase == W4PktStart && f.WellFormed()
    ensures var out := Feed(rx, Escape(Raw(f)) + [DELIMITER]);
      out.st.phase == W4PktStart && out.outs == [Header(f) + f.payload]
  {
    HeaderReadsBack(f);
    var body := Header(f) + f.payload;
    TrailerReadsBack(CrcOf(CRC_INIT, body));
    var t := if f.crc then CrcTrailer(CrcOf(CRC_INIT, body)) else [];
    assert Raw(f) == body + t;
    Verdict(rx, body, t);
  }

  // Whatever came before, an encoded frame is completed intact, and completed once.
  lemma FrameAfterAnything(rx: RxValid, f: Frame)
    requires f.WellFormed()
    ensures var out := Feed(rx, Encode(f));
      && out.st.phase == W4PktStart
      && out.outs == RxByte(rx, DELIMITER).outs + [Header(f) + f.payload]
      && Parse(Header(f) + f.payload) == f
  {
    HeaderReadsBack(f);
    var tail := Escape(Raw(f)) + [DELIMITER];
    assert Encode(f) == [DELIMITER] + tail;
    RunAppend(RxByte, rx, [DELIMITER], tail);
    RunOne(RxByte, rx, DELIMITER);
    Resynchronise(rx);
    FrameFromStart(RxByte(rx, DELIMITER).st, f);
  }

  // The same however the stretch is cut into receive buffers, whatever noise comes first.
  lemma FrameInAnyChunks(rx: RxValid, noise: seq<byte>, f: Frame, chunks: seq<seq<byte>>)
    requires f.WellFormed()
    ensures Concat(chunks) == noise + Encode(f) ==>
      var out := RunChunks(RxByte, rx, chunks);
      && out.st.phase == W4PktStart
      && out.outs == Feed(rx, noise + [DELIMITER]).outs + [Header(f) + f.payload]
      && Parse(Header(f) + f.payload) == f
  {
    hide Encode, Parse, Header, RxByte;
    ChunksAreOneStretch(RxByte, rx, chunks);
    RunAppend(RxByte, rx, noise, Encode(f));
    var before := Feed(rx, noise);
    FrameAfterAnything(before.st, f);
    RunAppend(RxByte, rx, noise, [DELIMITER]);
    RunOne(RxByte, before.st, DELIMITER);
  }

  lemma FrameInFrameOut(rx: RxValid, f: Frame)
    requires Settle(rx).outs == [] && f.WellFormed()
    ensures var out := Feed(rx, Encode(f));
      Settle(out.st).outs == [] && |out.outs| == 1 && Parse(out.outs[0]) == f
  {
    FrameAfterAnything(rx, f);
  }

  // Back to back, encoded frames come out one for one and in order.
  lemma {:induction false} FramesInFramesOut(rx: RxValid, frames: seq<GoodFrame>)
    requires Settle(rx).outs == []
    ensures var out := Feed(rx, Concat(Encodings(frames)));
      Settle(out.st).outs == [] && Parsed(out.outs) == frames
    decreases |frames|
  {
    hide RxByte, Encode, Parse, Settle, Parsed, Run;
    NothingFed(rx);
    if frames != [] {
      FrameInFrameOut(rx, frames[0]);
      var first := Feed(rx, Encode(frames[0]));
      var more := Concat(Encodings(frames[1..]));
      FramesInFramesOut(first.st, frames[1..]);
      RunAppend(RxByte, rx, Encode(frames[0]), more);
      var rest := Feed(first.st, more).outs;
      ParsedCons(first.outs[0], rest);
      assert first.outs == [first.outs[0]];
      assert frames == [frames[0]] + frames[1..];
    }
  }

  lemma NothingFed(rx: RxValid)
    ensures Feed(rx, []) == Out(rx, []) && Parsed([]) == []
  {}

  lemma ParsedCons(first: Packet, rest: seq<Packet>)
    ensures Parsed([first] + rest) == [Parse(first)] + Parsed(rest)
  {
    hide Parse;
    assert ([first] + rest)[1..] == rest;
  }

  function Parsed(done: seq<Packet>): seq<GoodFrame> {
    if done == [] then [] else [Parse(done[0])] + Parsed(done[1..])
  }

  lemma HeaderOctetReplaced(rx: RxValid, h: seq<byte>, more: seq<byte>, i: nat, x: byte)
    requires rx.phase == W4PktStart && |h| == 4 && ChecksumOk(h) && i < 4 && x != h[i]
    ensures var out := Feed(rx, Escape(h[i := x] + more) + [DELIMITER]);
      out.st.phase == W4PktStart && out.outs == []
  {
    BadHeader(rx, h[i := x], more);
  }

  lemma PayloadOctetReplaced(rx: RxValid, body: seq<byte>, t: seq<byte>, i: nat, x: byte)
    requires rx.phase == W4PktStart && GoodBody(body) && CrcFlag(body) && |t| == 2
    requires Accepts(body, t) && 4 <= i < |body| && x != body[i]
    ensures var out := Feed(rx, Escape(body[i := x] + t) + [DELIMITER]);
      out.st.phase == W4PktStart && out.outs == []
  {
    var bad := body[i := x];
    CrcDetectsOneOctet(CRC_INIT, body, i, x);
    if Accepts(bad, t) {
      BitRev16Injective(CrcOf(CRC_INIT, body), CrcOf(CRC_INIT, bad));
    }
    Verdict(rx, bad, t);
  }

  lemma TrailerOctetReplaced(rx: RxValid, body: seq<byte>, t: seq<byte>, i: nat, x: byte)
    requires rx.phase == W4PktStart && GoodBody(body) && CrcFlag(body) && |t| == 2
    requires Accepts(body, t) && i < 2 && x != t[i]
    ensures var out := Feed(rx, Escape(body + t[i := x]) + [DELIMITER]);
      out.st.phase == W4PktStart && out.outs == []
  {
    var u := t[i := x];
    if Accepts(body, u) {
      Be16Injective(t[0], t[1], u[0], u[1]);
    }
    Verdict(rx, body, u);
  }

  // Replacing one unescaped octet of a CRC-bearing packet makes the receiver drop it.
  lemma OneOctetReplaced(rx: RxValid, f: Frame, i: nat, x: byte)
    requires rx.phase == W4PktStart && f.WellFormed() && f.crc
    ensures i < |Raw(f)| && x != Raw(f)[i] ==>
      var out := Feed(rx, Escape(Raw(f)[i := x]) + [DELIMITER]);
      out.st.phase == W4PktStart && out.outs == []
  {
    hide CrcOf, CrcTrailer, Header, Escape, Be16, BitRev16;
    if i >= |Raw(f)| || x == Raw(f)[i] {
      return;
    }
    var h := Header(f);
    var body := h + f.payload;
    var t := CrcTrailer(CrcOf(CRC_INIT, body));
    HeaderReadsBack(f);
    TrailerReadsBack(CrcOf(CRC_INIT, body));
    if i < 4 {
      assert Raw(f)[i := x] == h[i := x] + (f.payload + t);
      HeaderOctetReplaced(rx, h, f.payload + t, i, x);
    } else if i < |body| {
      assert Raw(f)[i := x] == body[i := x] + t;
      PayloadOctetReplaced(rx, body, t, i, x);
    } else {
      assert Raw(f)[i := x] == body + t[i - |body| := x];
      TrailerOctetReplaced(rx, body, t, i - |body|, x);
    }
  }

  // No run of input outgrows the receive buffer.
  lemma ReceiveBufferBound(rx: RxValid, data: seq<byte>)
    ensures |Feed(rx, data).st.skb| + Feed(rx, data).st.count <= RX_BUFFER
  {
    var st: RxValid := Feed(rx, data).st;
    assert st.Valid();
  }
}
