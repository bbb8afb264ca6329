// The byte-at-a-time receiver of Three-wire (H5), as functions on values. The header decides,
// against the state of the link, whether the rest of a packet is looked at.
// Source: drivers/blue8852be/hci_h5.c, lines 425-597.
module H5Codec {
  import opened Bytes
  import opened Machine
  import opened Framing
  import opened H5Link

  const H5_MAX_LEN: nat := 4 + 0xfff + 2

  datatype Phase = Delimiter | PktStart | Header3Wire | Payload | Crc

  datatype Rx = Rx(phase: Phase, pending: nat, esc: bool, skb: seq<byte>)

  const RX_RESET := Rx(Delimiter, 0, false, [])

  datatype H5State = H5(rx: Rx, link: Link)
  {
    // The octets still owed, and: once past the header, the packet is one the link accepts.
    predicate Valid() {
      match rx.phase
      case Delimiter => rx.pending == 0 && rx.skb == [] && !rx.esc
      case PktStart => rx.pending == 0 && rx.skb == [] && !rx.esc
      case Header3Wire => |rx.skb| + rx.pending == 4 && (rx.pending == 0 ==> !rx.esc)
      case Payload =>
        && |rx.skb| >= 4 && |rx.skb| + rx.pending == 4 + HdrLen(rx.skb) && (rx.pending == 0 ==> !rx.esc)
        && Accepts(link, ParseOctets(rx.skb))
      case Crc =>
        && |rx.skb| >= 4 && |rx.skb| + rx.pending == 4 + HdrLen(rx.skb) + 2 && (rx.pending == 0 ==> !rx.esc)
        && Accepts(link, ParseOctets(rx.skb)) && CrcFlag(rx.skb)
    }
  }

  type H5Valid = s: H5State | s.Valid() witness H5(RX_RESET, OPENED)

  type H5Out = Out<H5Valid, Up>

  function Reset(s: H5State): H5Valid { H5(RX_RESET, s.link) }

  function Put(s: H5Valid, b: byte): H5Valid
    requires s.rx.pending > 0
  {
    s.(rx := Rx(s.rx.phase, s.rx.pending - 1, false, s.rx.skb + [b]))
  }

  // h5_unslip_one_byte
  function Unslip(s: H5Valid, b: byte): H5Valid
    requires s.rx.pending > 0
  {
    if !s.rx.esc then
      if b == ESCAPE then s.(rx := s.rx.(esc := true)) else Put(s, b)
    else if b == ESCAPED_DELIMITER then Put(s, DELIMITER)
    else if b == ESCAPED_ESCAPE then Put(s, ESCAPE)
    else Reset(s)
  }

  predicate Settled(s: H5State) { s.rx.pending > 0 || s.rx.phase in {Delimiter, PktStart} }

  function UpSeq(up: Option<Up>): seq<Up> { if up.Some? then [up.value] else [] }

  // h5_complete_rx_pkt and the reset at its end.
  function Complete(s: H5Valid): H5Out
    requires |s.rx.skb| >= 4
  {
    var r := CompleteRx(s.link, ParseOctets(s.rx.skb));
    Out(H5(RX_RESET, r.link), UpSeq(r.up))
  }

  // The calls of rx_func that consume nothing: h5_rx_3wire_hdr, h5_rx_payload, h5_rx_crc.
  function SettlePayload(s: H5Valid): H5Out
    requires s.rx.phase == Payload && s.rx.pending == 0
  {
    if CrcFlag(s.rx.skb) then Out(s.(rx := s.rx.(phase := Crc, pending := 2)), []) else Complete(s)
  }

  function SettleHeader(s: H5Valid): H5Out
    requires s.rx.phase == Header3Wire && s.rx.pending == 0
  {
    if ChecksumOk(s.rx.skb) && Accepts(s.link, ParseOctets(s.rx.skb)) then
      var p := s.(rx := s.rx.(phase := Payload, pending := HdrLen(s.rx.skb)));
      if p.rx.pending == 0 then SettlePayload(p) else Out(p, [])
    else Out(Reset(s), [])
  }

  function Settle(s: H5Valid): (out: H5Out)
    ensures Settled(out.st)
  {
    if Settled(s) then Out(s, [])
    else if s.rx.phase == Header3Wire then SettleHeader(s)
    else if s.rx.phase == Payload then SettlePayload(s)
    else Complete(s)
  }

  function FreshHeader(link: Link): H5Valid { H5(Rx(Header3Wire, 4, false, []), link) }

  function AtStart(link: Link): H5Valid { H5(Rx(PktStart, 0, false, []), link) }

  function Consume(s: H5Valid, b: byte): H5Valid
    requires Settled(s)
  {
    if b == DELIMITER then AtStart(s.link)
    else if s.rx.pending > 0 then Unslip(s, b)
    else if s.rx.phase == Delimiter then s
    else Unslip(FreshHeader(s.link), b)
  }

  function RxByte(s: H5Valid, b: byte): H5Out {
    var p := Settle(s);
    Out(Consume(p.st, b), p.outs)
  }

  function Feed(s: H5Valid, data: seq<byte>): H5Out {
    Run(RxByte, s, data)
  }

  /** Claims about any input. */

  // One delimiter brings every state to the start of a packet.
  lemma Resynchronise(s: H5Valid)
    ensures RxByte(s, DELIMITER).st.rx == Rx(PktStart, 0, false, [])
  {}

  lemma ReceiveBufferBound(s: H5Valid, data: seq<byte>)
    ensures |Feed(s, data).st.rx.skb| + Feed(s, data).st.rx.pending <= H5_MAX_LEN
  {
    var st: H5Valid := Feed(s, data).st;
    assert st.Valid();
  }

  lemma AcceptedCompletes(l: Link, f: Frame)
    requires f.ack < 8 && Accepts(l, f)
    ensures CompleteRx(l, f) == TakeFrame(l, f)
  {}

  lemma CompleteKeeps(s: H5Valid)
    requires s.rx.phase in {Payload, Crc} && LinkOk(s.link)
    ensures LinkOk(Complete(s).st.link)
    ensures Complete(s).outs != [] ==> s.link.state == Active
  {
    hide CompleteRx, LinkOk;
    AcceptedCompletes(s.link, ParseOctets(s.rx.skb));
    TakeFrameKeeps(s.link, ParseOctets(s.rx.skb));
  }

  // Whatever octet arrives, the link keeps its invariant and hands up packets only while active.
  lemma RxByteKeeps(s: H5Valid, b: byte)
    requires LinkOk(s.link)
    ensures LinkOk(RxByte(s, b).st.link)
    ensures RxByte(s, b).outs != [] ==> s.link.state == Active
  {
    hide LinkOk, Accepts, HdrLen, ChecksumOk, CrcFlag, CompleteRx;
    if !Settled(s) {
      if s.rx.phase == Header3Wire {
        var h := s.rx.skb;
        if ChecksumOk(h) && Accepts(s.link, ParseOctets(h)) && HdrLen(h) == 0 {
          CompleteKeeps(s.(rx := s.rx.(phase := Payload)));
        }
      } else {
        CompleteKeeps(s);
      }
    }
  }

  /** Runs of the whole driver: calls from above, timer events and arbitrary received octets. */

  const START: H5Valid := H5(RX_RESET, OPENED)

  datatype Event = Enq(skb: Skb) | Deq(alloc: Allocs) | Expiry | Octet(b: byte)

  function Do(s: H5Valid, e: Event): H5Out {
    match e
    case Octet(b) => RxByte(s, b)
    case Enq(skb) => Out(Relink(s, Enqueue(s.link, skb)), [])
    case Deq(alloc) => Out(Relink(s, Dequeue(s.link, alloc).link), [])
    case Expiry => Out(Relink(s, Timeout(s.link)), [])
  }

  // None of these touch what a half-received packet was accepted for.
  function Relink(s: H5Valid, l: Link): H5Valid
    requires l.txAck == s.link.txAck && l.state == s.link.state
  {
    H5(s.rx, l)
  }

  lemma DoKeeps(s: H5Valid, e: Event)
    requires LinkOk(s.link)
    ensures LinkOk(Do(s, e).st.link)
    ensures Do(s, e).outs != [] ==> s.link.state == Active
  {
    hide LinkOk, RxByte, Enqueue, Dequeue, Timeout;
    match e
    case Octet(b) => RxByteKeeps(s, b);
    case Enq(skb) => EnqueueKeeps(s.link, skb);
    case Deq(alloc) => DequeueKeeps(s.link, alloc);
    case Expiry => TimeoutKeeps(s.link);
  }

  lemma {:induction false} RunKeepsLink(s: H5Valid, events: seq<Event>)
    requires LinkOk(s.link)
    ensures LinkOk(Run(Do, s, events).st.link)
    decreases |events|
  {
    hide LinkOk, Do;
    if events != [] {
      DoKeeps(s, events[0]);
      RunKeepsLink(Do(s, events[0]).st, events[1..]);
    }
  }

  // After every run from open: no session means nothing reliable queued and the number at zero,
  // at most seven packets are ever outstanding, and whatever happens next hands a packet to the
  // HCI layer only in a session.
  lemma LinkStateInvariant(events: seq<Event>, next: Event)
    ensures var s := Run(Do, START, events).st;
      && (s.link.state != Active ==> s.link.rel == [] && s.link.unack == [] && s.link.txSeq == 0)
      && |s.link.unack| <= 7
      && (Do(s, next).outs != [] ==> s.link.state == Active)
  {
    RunKeepsLink(START, events);
    DoKeeps(Run(Do, START, events).st, next);
    hide Run, Do;
  }

  /** Frames without a CRC: what the driver sends, the driver takes. */

  function Absorb(s: H5Valid, octets: seq<byte>): H5Valid
    requires |octets| <= s.rx.pending
    decreases |octets|
  {
    if octets == [] then s else Absorb(Put(s, octets[0]), octets[1..])
  }

  lemma {:induction false} AbsorbIs(s: H5Valid, octets: seq<byte>)
    requires octets != [] && |octets| <= s.rx.pending
    ensures Absorb(s, octets) ==
      H5(Rx(s.rx.phase, s.rx.pending - |octets|, false, s.rx.skb + octets), s.link)
    decreases |octets|
  {
    hide Accepts, HdrLen, CrcFlag;
    var next := Put(s, octets[0]);
    assert next.rx.skb + octets[1..] == s.rx.skb + octets;
    if |octets| > 1 {
      AbsorbIs(next, octets[1..]);
    } else {
      assert octets[1..] == [] && s.rx.skb + octets == next.rx.skb;
    }
  }

  lemma SettledStays(s: H5Valid)
    requires Settled(s)
    ensures Settle(s) == Out(s, [])
  {}

  lemma EscapedOctet(s: H5Valid, b: byte)
    requires s.rx.pending > 0 && !s.rx.esc
    ensures Feed(s, EscapeByte(b)) == Out(Put(s, b), [])
  {
    hide Reset, Settle, Accepts, HdrLen, CrcFlag;
    SettledStays(s);
    var e := EscapeByte(b);
    var r := RxByte(s, e[0]);
    if |e| == 2 {
      assert r == Out(s.(rx := s.rx.(esc := true)), []);
      assert e[1..] == [e[1]];
      SettledStays(r.st);
      RunOne(RxByte, r.st, e[1]);
    } else {
      RunOne(RxByte, s, b);
    }
  }

  lemma {:induction false} FeedEscaped(s: H5Valid, octets: seq<byte>)
    requires !s.rx.esc && |octets| <= s.rx.pending
    ensures Feed(s, Escape(octets)) == Out(Absorb(s, octets), [])
    decreases |octets|
  {
    hide RxByte, EscapeByte, Accepts, HdrLen, CrcFlag;
    if octets != [] {
      EscapedOctet(s, octets[0]);
      FeedEscaped(Put(s, octets[0]), octets[1..]);
      RunAppend(RxByte, s, EscapeByte(octets[0]), Escape(octets[1..]));
    }
  }

  lemma {:induction false} FeedIgnored(s: H5Valid, octets: seq<byte>)
    requires s.rx.phase == Delimiter && NoDelimiter(octets)
    ensures Feed(s, octets) == Out(s, [])
    decreases |octets|
  {
    if octets != [] {
      FeedIgnored(s, octets[1..]);
    }
  }

  lemma SameSettle(s1: H5Valid, s2: H5Valid, data: seq<byte>)
    requires Settle(s1) == Settle(s2) && data != []
    ensures Feed(s1, data) == Feed(s2, data)
  {
    assert RxByte(s1, data[0]) == RxByte(s2, data[0]);
  }

  function HeaderDone(link: Link, h: seq<byte>): H5Valid
    requires |h| == 4
  {
    H5(Rx(Header3Wire, 0, false, h), link)
  }

  function PayloadDone(link: Link, body: seq<byte>): H5Valid
    requires |body| >= 4 && |body| == 4 + HdrLen(body) && Accepts(link, ParseOctets(body))
  {
    H5(Rx(Payload, 0, false, body), link)
  }

  lemma HeaderIn(link: Link, h: seq<byte>, rest: seq<byte>)
    requires |h| == 4
    ensures Feed(AtStart(link), Escape(h) + rest) == Feed(HeaderDone(link, h), rest)
  {
    var e := Escape(h);
    EscapeIsClean(h);
    assert Feed(AtStart(link), e + rest) == Feed(FreshHeader(link), e + rest) by {
      assert RxByte(AtStart(link), e[0]) == RxByte(FreshHeader(link), e[0]);
    }
    hide Escape, RxByte, Absorb, Run;
    FeedEscaped(FreshHeader(link), h);
    AbsorbIs(FreshHeader(link), h);
    assert [] + h == h;
    RunAppend(RxByte, FreshHeader(link), e, rest);
  }

  lemma PayloadIn(link: Link, h: seq<byte>, p: seq<byte>, rest: seq<byte>)
    requires |h| == 4 && ChecksumOk(h) && |p| == HdrLen(h) && rest != []
    requires Accepts(link, ParseOctets(h + p))
    ensures Feed(HeaderDone(link, h), Escape(p) + rest) == Feed(PayloadDone(link, h + p), rest)
  {
    if p == [] {
      assert h + p == h && Escape(p) + rest == rest;
      SameSettle(HeaderDone(link, h), PayloadDone(link, h), rest);
    } else {
      var data: H5Valid := H5(Rx(Payload, |p|, false, h), link);
      SameSettle(HeaderDone(link, h), data, Escape(p) + rest);
      hide RxByte, Absorb, Run, Escape;
      FeedEscaped(data, p);
      AbsorbIs(data, p);
      RunAppend(RxByte, data, Escape(p), rest);
    }
  }

  lemma AcceptedFrame(link: Link, h: seq<byte>, p: seq<byte>)
    requires |h| == 4 && ChecksumOk(h) && |p| == HdrLen(h) && !CrcFlag(h)
    requires Accepts(link, ParseOctets(h + p))
    ensures var r := CompleteRx(link, ParseOctets(h + p));
      Feed(AtStart(link), Escape(h) + (Escape(p) + [DELIMITER])) == Out(AtStart(r.link), UpSeq(r.up))
  {
    HeaderIn(link, h, Escape(p) + [DELIMITER]);
    PayloadIn(link, h, p, [DELIMITER]);
    hide Accepts, CompleteRx, HdrLen, ChecksumOk, Escape;
    RunOne(RxByte, PayloadDone(link, h + p), DELIMITER);
  }

  lemma RefusedFrame(link: Link, h: seq<byte>, p: seq<byte>)
    requires |h| == 4 && !Accepts(link, ParseOctets(h + p))
    ensures Feed(AtStart(link), Escape(h) + (Escape(p) + [DELIMITER])) == Out(AtStart(link), [])
  {
    HeaderIn(link, h, Escape(p) + [DELIMITER]);
    EscapeIsClean(p);
    var waiting := Reset(HeaderDone(link, h));
    assert !Accepts(link, ParseOctets(h));
    SameSettle(HeaderDone(link, h), waiting, Escape(p) + [DELIMITER]);
    hide Accepts, HdrLen, ChecksumOk, Escape;
    FeedIgnored(waiting, Escape(p));
    RunAppend(RxByte, waiting, Escape(p), [DELIMITER]);
    RunOne(RxByte, waiting, DELIMITER);
  }

  // Whatever came before, an encoded frame without a CRC is taken as one frame: dropped if the
  // link refuses its header, completed otherwise.
  lemma FrameAfterAnything(s: H5Valid, f: Frame)
    requires f.WellFormed() && !f.crc
    ensures var first := RxByte(s, DELIMITER);
      var r := TakeFrame(first.st.link, f);
      Feed(s, Encode(f)) == Out(AtStart(r.link), first.outs + UpSeq(r.up))
  {
    var first := RxByte(s, DELIMITER);
    var link := first.st.link;
    HeaderReadsBack(f);
    Resynchronise(s);
    var h, p := Header(f), f.payload;
    NoTrailer(f);
    if Accepts(link, f) {
      AcceptedFrame(link, h, p);
    } else {
      RefusedFrame(link, h, p);
    }
    hide Accepts, CompleteRx, Escape, Header, RxByte;
    RunAppend(RxByte, s, [DELIMITER], Escape(h) + (Escape(p) + [DELIMITER]));
    RunOne(RxByte, s, DELIMITER);
  }

  lemma NoTrailer(f: Frame)
    requires f.WellFormed() && !f.crc
    ensures Encode(f) == [DELIMITER] + (Escape(Header(f)) + (Escape(f.payload) + [DELIMITER]))
  {
    var h, p := Header(f), f.payload;
    EscapeAppend(h, p);
    hide Header;
    assert Raw(f) == h + p;
    hide Escape;
    assert Escape(h) + Escape(p) + [DELIMITER] == Escape(h) + (Escape(p) + [DELIMITER]);
  }

  // What a list of frames does to the link, and hands up.
  function TakeFrames(l: Link, frames: seq<GoodFrame>): Out<Link, Up>
    decreases |frames|
  {
    if frames == [] then Out(l, [])
    else
      var first := TakeFrame(l, frames[0]);
      var rest := TakeFrames(first.link, frames[1..]);
      Out(rest.st, UpSeq(first.up) + rest.outs)
  }

  lemma DelimiterAgain(l: Link)
    ensures RxByte(AtStart(l), DELIMITER) == Out(AtStart(l), []) && AtStart(l).link == l
  {}

  lemma {:induction false} FramesIn(l: Link, frames: seq<GoodFrame>)
    requires forall f :: f in frames ==> !f.crc
    ensures var r := TakeFrames(l, frames);
      Feed(AtStart(l), Concat(Encodings(frames))) == Out(AtStart(r.st), r.outs)
    decreases |frames|
  {
    hide RxByte, Encode, TakeFrame, AtStart;
    if frames != [] {
      var first := TakeFrame(l, frames[0]);
      DelimiterAgain(l);
      FrameAfterAnything(AtStart(l), frames[0]);
      assert [] + UpSeq(first.up) == UpSeq(first.up);
      FramesIn(first.link, frames[1..]);
      var more := Concat(Encodings(frames[1..]));
      RunAppend(RxByte, AtStart(l), Encode(frames[0]), more);
      assert Encodings(frames)[1..] == Encodings(frames[1..]);
      assert Concat(Encodings(frames)) == Encode(frames[0]) + more;
    }
  }

  lemma Regroup(a: seq<Up>, b: seq<Up>, c: seq<Up>)
    ensures a + b + c == a + (b + c)
  {}

  // Whatever came before, frames sent back to back, in whatever receive buffers, act on the link
  // one after the other, each refused at its header or completed, once, in order.
  lemma OctetsCarryFrames(s: H5Valid, frames: seq<GoodFrame>, chunks: seq<seq<byte>>)
    requires frames != [] && forall f :: f in frames ==> !f.crc
    ensures Concat(chunks) == Concat(Encodings(frames)) ==>
      var first := RxByte(s, DELIMITER);
      var r := TakeFrames(first.st.link, frames);
      RunChunks(RxByte, s, chunks) == Out(AtStart(r.st), first.outs + r.outs)
  {
    hide RxByte, Encode, TakeFrame, AtStart, Run, RunChunks, UpSeq;
    ChunksAreOneStretch(RxByte, s, chunks);
    var begun := RxByte(s, DELIMITER);
    var first := TakeFrame(begun.st.link, frames[0]);
    var more := Concat(Encodings(frames[1..]));
    FrameAfterAnything(s, frames[0]);
    FramesIn(first.link, frames[1..]);
    RunAppend(RxByte, s, Encode(frames[0]), more);
    var rest := TakeFrames(first.link, frames[1..]);
    Regroup(begun.outs, UpSeq(first.up), rest.outs);
  }

  /** Frames with a CRC: the two octets are read, never compared, and stay behind the payload. */

  function TrailerDone(link: Link, body: seq<byte>): H5Valid
    requires |body| >= 6 && |body| == 4 + HdrLen(body) + 2 && Accepts(link, ParseOctets(body)) && CrcFlag(body)
  {
    H5(Rx(Crc, 0, false, body), link)
  }

  function TrailerDue(link: Link, body: seq<byte>): H5Valid
    requires |body| >= 4 && |body| == 4 + HdrLen(body) && Accepts(link, ParseOctets(body)) && CrcFlag(body)
  {
    H5(Rx(Crc, 2, false, body), link)
  }

  lemma TrailerFed(link: Link, body: seq<byte>, t: seq<byte>)
    requires |body| >= 4 && |body| == 4 + HdrLen(body) && Accepts(link, ParseOctets(body))
    requires CrcFlag(body) && |t| == 2
    ensures |body + t| == 4 + HdrLen(body + t) + 2 && Accepts(link, ParseOctets(body + t)) && CrcFlag(body + t)
    ensures Feed(TrailerDue(link, body), Escape(t)) == Out(TrailerDone(link, body + t), [])
  {
    assert Accepts(link, ParseOctets(body + t));
    assert HdrLen(body + t) == HdrLen(body);
    var due := TrailerDue(link, body);
    FeedEscaped(due, t);
    AbsorbIs(due, t);
    hide Feed, Escape, Accepts, Absorb, HdrLen;
  }

  lemma TrailerIn(link: Link, body: seq<byte>, t: seq<byte>, rest: seq<byte>)
    requires |body| >= 4 && |body| == 4 + HdrLen(body) && Accepts(link, ParseOctets(body))
    requires CrcFlag(body) && |t| == 2 && rest != []
    ensures |body + t| == 4 + HdrLen(body + t) + 2 && Accepts(link, ParseOctets(body + t)) && CrcFlag(body + t)
    ensures Feed(PayloadDone(link, body), Escape(t) + rest) == Feed(TrailerDone(link, body + t), rest)
  {
    TrailerFed(link, body, t);
    TrailerStarts(link, body, Escape(t) + rest);
    hide RxByte, Run, Escape, HdrLen, CrcFlag, Accepts, ParseOctets, PayloadDone, TrailerDue, TrailerDone;
    RunAppend(RxByte, TrailerDue(link, body), Escape(t), rest);
  }

  lemma TrailerStarts(link: Link, body: seq<byte>, rest: seq<byte>)
    requires |body| >= 4 && |body| == 4 + HdrLen(body) && Accepts(link, ParseOctets(body)) && CrcFlag(body)
    requires rest != []
    ensures Feed(PayloadDone(link, body), rest) == Feed(TrailerDue(link, body), rest)
  {
    SameSettle(PayloadDone(link, body), TrailerDue(link, body), rest);
  }

  lemma TrailerEnds(link: Link, body: seq<byte>)
    requires |body| >= 6 && |body| == 4 + HdrLen(body) + 2 && Accepts(link, ParseOctets(body)) && CrcFlag(body)
    ensures var r := CompleteRx(link, ParseOctets(body));
      Feed(TrailerDone(link, body), [DELIMITER]) == Out(AtStart(r.link), UpSeq(r.up))
  {
    hide Accepts, CompleteRx, HdrLen;
    RunOne(RxByte, TrailerDone(link, body), DELIMITER);
  }

  lemma AcceptedCrcFrame(link: Link, h: seq<byte>, p: seq<byte>, t: seq<byte>)
    requires |h| == 4 && ChecksumOk(h) && |p| == HdrLen(h) && CrcFlag(h) && |t| == 2
    requires Accepts(link, ParseOctets(h + p))
    ensures var r := CompleteRx(link, ParseOctets(h + p + t));
      Feed(AtStart(link), Escape(h) + (Escape(p) + (Escape(t) + [DELIMITER]))) == Out(AtStart(r.link), UpSeq(r.up))
  {
    assert HdrLen(h + p) == HdrLen(h) && CrcFlag(h + p);
    hide CompleteRx, Escape, RxByte, Run;
    HeaderIn(link, h, Escape(p) + (Escape(t) + [DELIMITER]));
    PayloadIn(link, h, p, Escape(t) + [DELIMITER]);
    hide Accepts, HdrLen, ChecksumOk;
    TrailerIn(link, h + p, t, [DELIMITER]);
    TrailerEnds(link, h + p + t);
  }

  lemma TwoParts(p: seq<byte>, t: seq<byte>, end: seq<byte>)
    ensures Escape(p + t) + end == Escape(p) + (Escape(t) + end)
  {
    EscapeAppend(p, t);
    hide Escape;
  }

  lemma RefusedCrcFrame(link: Link, h: seq<byte>, p: seq<byte>, t: seq<byte>)
    requires |h| == 4 && !Accepts(link, ParseOctets(h + p))
    ensures Feed(AtStart(link), Escape(h) + (Escape(p) + (Escape(t) + [DELIMITER]))) == Out(AtStart(link), [])
  {
    assert !Accepts(link, ParseOctets(h + (p + t)));
    hide Accepts, Escape, Feed, ParseOctets, AtStart;
    RefusedFrame(link, h, p + t);
    TwoParts(p, t, [DELIMITER]);
  }

  lemma CrcFrameAtStart(link: Link, f: Frame, t: seq<byte>)
    requires f.WellFormed() && f.crc && |t| == 2
    ensures var r := TakeFrame(link, f.(payload := f.payload + t));
      Feed(AtStart(link), Escape(Header(f)) + (Escape(f.payload) + (Escape(t) + [DELIMITER])))
        == Out(AtStart(r.link), UpSeq(r.up))
  {
    HeaderReadsBack(f);
    CrcHeader(link, f, t);
    hide CompleteRx, Escape, Header, Feed, HdrLen, ChecksumOk, ParseOctets, AtStart, Accepts, CrcFlag;
    if Accepts(link, f) {
      AcceptedCrcFrame(link, Header(f), f.payload, t);
    } else {
      RefusedCrcFrame(link, Header(f), f.payload, t);
    }
  }

  lemma CrcHeader(link: Link, f: Frame, t: seq<byte>)
    requires f.WellFormed() && f.crc
    ensures var h := Header(f);
      && ParseOctets(h + f.payload) == f && ParseOctets(h + f.payload + t) == f.(payload := f.payload + t)
      && HdrLen(h) == |f.payload| && ChecksumOk(h) && CrcFlag(h)
      && Accepts(link, f) == Accepts(link, f.(payload := f.payload + t))
  {
    HeaderReadsBack(f);
    hide Header, HdrLen, ChecksumOk;
  }

  // Whatever came before, a frame with a CRC is taken like one without, whatever its last two
  // octets are; they come up behind its payload.
  lemma CrcFrameAfterAnything(s: H5Valid, f: Frame, t: seq<byte>)
    requires f.WellFormed() && f.crc && |t| == 2
    ensures var first := RxByte(s, DELIMITER);
      var r := TakeFrame(first.st.link, f.(payload := f.payload + t));
      Feed(s, [DELIMITER] + (Escape(Header(f)) + (Escape(f.payload) + (Escape(t) + [DELIMITER]))))
        == Out(AtStart(r.link), first.outs + UpSeq(r.up))
  {
    var first := RxByte(s, DELIMITER);
    CrcFrameAtStart(first.st.link, f, t);
    Resynchronise(s);
    hide TakeFrame, Escape, Header, RxByte;
    RunAppend(RxByte, s, [DELIMITER], Escape(Header(f)) + (Escape(f.payload) + (Escape(t) + [DELIMITER])));
    RunOne(RxByte, s, DELIMITER);
  }
}
