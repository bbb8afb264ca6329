// H4 reassembly: packets cut out of a byte stream by their type and length field, with optional
// alignment padding behind each. Section 2 of the UART Transport Layer, Bluetooth Core
// Specification Volume 4 Part A, as functions on values.
// Source: drivers/blue8852be/hci_h4.c, lines 87-98 and 154-273; drivers/blue8852be/h4_recv.h,
// lines 11-146, which is the same loop without padding; drivers/blue8852be/hci_nokia.c, 510-529.
module H4 {
  import opened Bytes
  import opened Machine

  // An entry of the packet table. The capacity is the room of the buffer allocated for it.
  datatype Entry = Entry(ptype: byte, hlen: nat, loff: nat, lsize: nat, capacity: nat)
  {
    predicate WellFormed() {
      hlen <= capacity <= 0xffff && (lsize in {1, 2} ==> loff + lsize <= hlen)
    }
  }

  type Table = pkts: seq<Entry> | forall e :: e in pkts ==> e.WellFormed() witness []

  type Align = n: nat | 0 < n < 256 witness 1

  datatype Error = EILSEQ | EMSGSIZE

  // A packet under reassembly, and how long it is expected to be as far as is known.
  datatype Partial = Partial(ptype: byte, expected: nat, data: seq<byte>)

  datatype Packet = Packet(ptype: byte, data: seq<byte>)

  datatype H4State = H4(pkts: Table, alignment: Align, held: Option<Partial>, padding: nat, error: Option<Error>)

  // The first entry of a type.
  function Find(pkts: Table, ptype: byte): (e: Option<Entry>)
    ensures e.Some? ==> e.value in pkts && e.value.ptype == ptype
    ensures e.None? ==> forall x :: x in pkts ==> x.ptype != ptype
  {
    if pkts == [] then None
    else if pkts[0].ptype == ptype then Some(pkts[0])
    else Find(pkts[1..], ptype)
  }

  // The length field of a complete header.
  function Field(e: Entry, data: seq<byte>): nat
    requires e.WellFormed() && e.lsize in {1, 2} && |data| >= e.hlen
  {
    var low: nat := data[e.loff];
    if e.lsize == 1 then low
    else
      var high: nat := data[e.loff + 1];
      low + 256 * high
  }

  // The padding behind a packet of n octets, its type octet included.
  function Pad(alignment: Align, n: nat): nat { (alignment - n % alignment) % alignment }

  function Fail(st: H4State, error: Error): Out<H4State, Packet> {
    Out(st.(held := None, error := Some(error)), [])
  }

  function Deliver(st: H4State, p: Partial): Out<H4State, Packet> {
    Out(st.(held := None, padding := Pad(st.alignment, |p.data| + 1)), [Packet(p.ptype, p.data)])
  }

  // What becomes of a packet that has just grown to p.
  function Arrive(st: H4State, p: Partial): Out<H4State, Packet> {
    if |p.data| < p.expected then Out(st.(held := Some(p)), [])
    else
      var e := Find(st.pkts, p.ptype);
      if e.None? then Fail(st, EILSEQ)
      else if |p.data| == e.value.hlen then HeaderDone(st, p, e.value)
      else Deliver(st, p)
  }

  function HeaderDone(st: H4State, p: Partial, e: Entry): Out<H4State, Packet>
    requires e.WellFormed() && |p.data| == e.hlen
  {
    if e.lsize == 0 then Deliver(st, p)
    else if e.lsize !in {1, 2} then Fail(st, EILSEQ)
    else
      var dlen := Field(e, p.data);
      if e.capacity - e.hlen < dlen then Fail(st, EMSGSIZE)
      else if dlen == 0 then Deliver(st, p)
      else Out(st.(held := Some(p.(expected := p.expected + dlen))), [])
  }

  // One octet at a time. After an error the rest of the buffer is discarded.
  function Octet(st: H4State, b: byte): Out<H4State, Packet> {
    if st.error.Some? then Out(st, [])
    else if st.padding > 0 then Out(st.(padding := st.padding - 1), [])
    else if st.held.Some? then Arrive(st, st.held.value.(data := st.held.value.data + [b]))
    else
      var e := Find(st.pkts, b);
      if e.None? then Fail(st, EILSEQ) else Arrive(st, Partial(b, e.value.hlen, []))
  }

  function Feed(st: H4State, data: seq<byte>): Out<H4State, Packet> { Run(Octet, st, data) }

  // The caller drops the failed buffer; the next one starts afresh.
  function Recover(st: H4State): H4State { st.(error := None) }

  // Buffer after buffer, the way the line discipline hands them over.
  function FeedBuffers(st: H4State, buffers: seq<seq<byte>>): Out<H4State, Packet>
    decreases |buffers|
  {
    if buffers == [] then Out(st, [])
    else
      var first := Feed(st, buffers[0]);
      var rest := FeedBuffers(Recover(first.st), buffers[1..]);
      Out(rest.st, first.outs + rest.outs)
  }

  lemma {:induction false} FailedStays(st: H4State, data: seq<byte>)
    requires st.error.Some?
    ensures Feed(st, data) == Out(st, [])
    decreases |data|
  {
    if data != [] {
      FailedStays(st, data[1..]);
    }
  }

  // However an error-free stream is cut into buffers, the packets and the state left are those
  // of the stream in one piece.
  lemma {:induction false} BuffersDoNotMatter(st: H4State, buffers: seq<seq<byte>>)
    requires st.error.None? && Feed(st, Concat(buffers)).st.error.None?
    ensures FeedBuffers(st, buffers) == Feed(st, Concat(buffers))
    decreases |buffers|
  {
    hide Octet;
    if buffers != [] {
      var first := Feed(st, buffers[0]);
      RunAppend(Octet, st, buffers[0], Concat(buffers[1..]));
      if first.st.error.Some? {
        FailedStays(first.st, Concat(buffers[1..]));
      }
      BuffersDoNotMatter(first.st, buffers[1..]);
    }
  }

  // What the second buffer meets after the first one.
  function Between(st: H4State, a: seq<byte>): H4State { Recover(Feed(st, a).st) }

  lemma TwoBuffers(st: H4State, a: seq<byte>, b: seq<byte>)
    ensures FeedBuffers(st, [a]) == Out(Between(st, a), Feed(st, a).outs)
    ensures FeedBuffers(st, [a, b]) ==
      Out(Between(Between(st, a), b), Feed(st, a).outs + Feed(Between(st, a), b).outs)
  {
    OneBuffer(st, a);
    OneBuffer(Between(st, a), b);
    hide Octet, Run;
    assert [a, b][1..] == [b];
  }

  lemma OneBuffer(st: H4State, a: seq<byte>)
    ensures FeedBuffers(st, [a]) == Out(Between(st, a), Feed(st, a).outs)
  {
    hide Octet, Run;
    assert [a][1..] == [];
    assert Feed(st, a).outs + [] == Feed(st, a).outs;
  }

  // A stretch from between packets that delivers nothing ends in an error, or inside a packet.
  lemma {:induction false} NothingDelivered(st: H4State, data: seq<byte>)
    requires st.error.None? && st.padding == 0 && Feed(st, data).outs == []
    ensures var end := Feed(st, data).st;
      if end.error.Some? then end == st.(held := None, error := end.error)
      else end == st.(held := end.held) && (data != [] ==> end.held.Some?)
    decreases |data|
  {
    if data != [] {
      OctetDeliversNothing(st, data[0]);
      hide Octet;
      var next := Octet(st, data[0]).st;
      if next.error.Some? {
        FailedStays(next, data[1..]);
      } else {
        NothingDelivered(next, data[1..]);
      }
    }
  }

  lemma OctetDeliversNothing(st: H4State, b: byte)
    requires st.error.None? && st.padding == 0 && Octet(st, b).outs == []
    ensures var end := Octet(st, b).st;
      if end.error.Some? then end == st.(held := None, error := end.error)
      else end == st.(held := end.held) && end.held.Some?
  {
    hide Find, Field, Pad;
  }

  // An error leaves the receiver between packets.
  lemma {:induction false} FailsIdle(st: H4State, data: seq<byte>)
    requires st.error.None? && Feed(st, data).st.error.Some?
    ensures Idle(Between(st, data))
    decreases |data|
  {
    var next := Octet(st, data[0]).st;
    if next.error.Some? {
      OctetFailsIdle(st, data[0]);
      hide Octet;
      FailedStays(next, data[1..]);
    } else {
      FailsIdle(next, data[1..]);
    }
  }

  lemma OctetFailsIdle(st: H4State, b: byte)
    requires st.error.None? && Octet(st, b).st.error.Some?
    ensures Idle(Recover(Octet(st, b).st))
  {
    hide Find, Field, Pad;
  }

  // Exactly when a cut makes no difference: there is no error before it, nothing follows it, or
  // what follows meets an error of its own before it delivers anything. An error discards the
  // rest of its buffer, and only that.
  lemma CutMattersExactlyWhen(st: H4State, a: seq<byte>, b: seq<byte>)
    requires st.error.None?
    ensures FeedBuffers(st, [a, b]) == FeedBuffers(st, [a + b]) <==>
      || Feed(st, a).st.error.None?
      || b == []
      || (var out := Feed(Between(st, a), b); out.st.error.Some? && out.outs == [])
  {
    hide Octet, Run;
    TwoBuffers(st, a, b);
    OneBuffer(st, a + b);
    RunAppend(Octet, st, a, b);
    var first, r := Feed(st, a), Between(st, a);
    if first.st.error.Some? {
      FailedStays(first.st, b);
      FailsIdle(st, a);
      assert first.outs + [] == first.outs;
      var more := Feed(r, b).outs;
      assert |first.outs + more| == |first.outs| + |more|;
      if more == [] {
        NothingDelivered(r, b);
      }
      if b == [] {
        NoOctets(r);
      }
    } else {
      assert r == first.st;
    }
  }

  lemma NoOctets(st: H4State)
    ensures Feed(st, []) == Out(st, [])
  {}

  const ONE_KIND: Table := [Entry(1, 0, 0, 0, 0)]

  // There are such cuts.
  lemma ErrorEndsTheBuffer()
    ensures var st := H4(ONE_KIND, 1, None, 0, None);
      && FeedBuffers(st, [[9, 1]]).outs == []
      && FeedBuffers(st, [[9], [1]]).outs == [Packet(1, [])]
  {
    var st := H4(ONE_KIND, 1, None, 0, None);
    RunOne(Octet, st, 9);
    RunOne(Octet, st, 1);
    TwoBuffers(st, [9], [1]);
    OneBuffer(st, [9, 1]);
    RunAppend(Octet, st, [9], [1]);
    FailedStays(st.(error := Some(EILSEQ)), [1]);
    assert [9] + [1] == [9, 1];
  }

  /** Packets that fit the table, and their encoding. */

  predicate Fits(pkts: Table, p: Packet) {
    var e := Find(pkts, p.ptype);
    && e.Some?
    && if e.value.lsize == 0 then |p.data| == e.value.hlen
       else
         && e.value.lsize in {1, 2} && e.value.hlen <= |p.data| <= e.value.capacity
         && |p.data| == e.value.hlen + Field(e.value, p.data)
  }

  // h4_enqueue puts the type in front of the packet.
  function Typed(p: Packet): seq<byte> { [p.ptype] + p.data }

  // nokia_enqueue also fills up to whole words.
  function NokiaEncode(p: Packet): seq<byte> {
    if |Typed(p)| % 2 == 1 then Typed(p) + [0] else Typed(p)
  }

  // The packet followed by its padding, of whatever content.
  predicate Encodes(alignment: Align, p: Packet, s: seq<byte>) {
    Typed(p) <= s && |s| == |Typed(p)| + Pad(alignment, |Typed(p)|)
  }

  lemma NokiaIsAligned(p: Packet)
    ensures Encodes(2, p, NokiaEncode(p)) && |NokiaEncode(p)| % 2 == 0
  {}

  ghost predicate Idle(st: H4State) { st.held.None? && st.padding == 0 && st.error.None? }

  lemma HeldIsReplaced(st: H4State, held: Option<Partial>, p: Partial)
    ensures Arrive(st.(held := held), p) == Arrive(st, p)
  {
    hide Find;
  }

  // A stretch that grows the packet at most to its expected length.
  lemma {:induction false} Fill(st: H4State, p: Partial, s: seq<byte>)
    requires st.held == Some(p) && st.padding == 0 && st.error.None?
    requires |p.data| < p.expected && |p.data| + |s| <= p.expected
    ensures Feed(st, s) == Arrive(st, p.(data := p.data + s))
    decreases |s|
  {
    hide Deliver, HeaderDone, Find;
    if s == [] {
      assert p.data + s == p.data;
    } else {
      var q := p.(data := p.data + [s[0]]);
      assert q.data + s[1..] == p.data + s;
      if |s| > 1 {
        Fill(st.(held := Some(q)), q, s[1..]);
        HeldIsReplaced(st, Some(q), p.(data := p.data + s));
      } else {
        RunOne(Octet, st, s[0]);
        assert s == [s[0]];
      }
    }
  }

  lemma FillFromType(st: H4State, e: Entry, s: seq<byte>)
    requires Idle(st) && Find(st.pkts, e.ptype) == Some(e) && |s| <= e.hlen
    ensures Feed(st, [e.ptype] + s) == Arrive(st, Partial(e.ptype, e.hlen, s))
  {
    hide Deliver, HeaderDone;
    var first := Octet(st, e.ptype);
    var data := [e.ptype] + s;
    assert data[0] == e.ptype && data[1..] == s;
    if e.hlen > 0 {
      Fill(first.st, Partial(e.ptype, e.hlen, []), s);
      assert [] + s == s;
      HeldIsReplaced(st, first.st.held, Partial(e.ptype, e.hlen, s));
    } else {
      assert s == [] && data == [e.ptype];
      RunOne(Octet, st, e.ptype);
    }
  }

  lemma {:induction false} SkipPadding(st: H4State, s: seq<byte>)
    requires st.error.None? && |s| <= st.padding
    ensures Feed(st, s) == Out(st.(padding := st.padding - |s|), [])
    decreases |s|
  {
    if s != [] {
      SkipPadding(st.(padding := st.padding - 1), s[1..]);
    }
  }

  // The state after a packet, before its padding.
  function After(st: H4State, p: Packet): H4State { st.(padding := Pad(st.alignment, |Typed(p)|)) }

  lemma HeaderOfPacket(st: H4State, p: Packet, e: Entry)
    requires Idle(st) && Find(st.pkts, p.ptype) == Some(e) && Fits(st.pkts, p)
    ensures e.hlen <= |p.data|
    ensures var h := p.data[..e.hlen];
      Arrive(st, Partial(p.ptype, e.hlen, h)) ==
      if e.hlen == |p.data| then Out(After(st, p), [p])
      else Out(st.(held := Some(Partial(p.ptype, |p.data|, h))), [])
  {
    hide Find, Pad;
    var h := p.data[..e.hlen];
    if e.hlen == |p.data| {
      assert h == p.data;
    }
    if e.lsize in {1, 2} {
      assert Field(e, h) == Field(e, p.data);
    }
  }

  lemma BodyOfPacket(st: H4State, p: Packet, e: Entry)
    requires Idle(st) && Find(st.pkts, p.ptype) == Some(e) && e.hlen < |p.data|
    ensures Arrive(st, Partial(p.ptype, |p.data|, p.data)) == Out(After(st, p), [p])
  {
    hide Find, Pad;
  }

  // A packet that fits is delivered with its last octet, before its padding.
  lemma PacketIn(st: H4State, p: Packet)
    requires Idle(st) && Fits(st.pkts, p)
    ensures Feed(st, Typed(p)) == Out(After(st, p), [p])
  {
    hide Arrive, After, Octet, Run;
    var e := Find(st.pkts, p.ptype).value;
    HeaderOfPacket(st, p, e);
    hide Fits, Find;
    var h, rest := p.data[..e.hlen], p.data[e.hlen..];
    assert p.data == h + rest;
    FillFromType(st, e, h);
    if rest == [] {
      assert Typed(p) == [e.ptype] + h;
    } else {
      BodyOfPacket(st, p, e);
      var held := Partial(p.ptype, |p.data|, h);
      var mid := st.(held := Some(held));
      assert Typed(p) == ([e.ptype] + h) + rest;
      RunAppend(Octet, st, [e.ptype] + h, rest);
      Fill(mid, held, rest);
      HeldIsReplaced(st, mid.held, Partial(p.ptype, |p.data|, p.data));
    }
  }

  lemma PacketAndPaddingIn(st: H4State, p: Packet, s: seq<byte>)
    requires Idle(st) && Fits(st.pkts, p) && Encodes(st.alignment, p, s)
    ensures Feed(st, s) == Out(st, [p])
  {
    hide Octet, Pad;
    PacketIn(st, p);
    var mid := After(st, p);
    var pad := s[|Typed(p)|..];
    assert s == Typed(p) + pad;
    RunAppend(Octet, st, Typed(p), pad);
    SkipPadding(mid, pad);
  }

  ghost predicate EncodesAll(st: H4State, packets: seq<Packet>, parts: seq<seq<byte>>) {
    && |parts| == |packets|
    && forall i :: 0 <= i < |packets| ==> Fits(st.pkts, packets[i]) && Encodes(st.alignment, packets[i], parts[i])
  }

  // A stream of packets that fit comes out as those packets, in order, with nothing left over.
  lemma {:induction false} StreamIn(st: H4State, packets: seq<Packet>, parts: seq<seq<byte>>)
    requires Idle(st) && EncodesAll(st, packets, parts)
    ensures Feed(st, Concat(parts)) == Out(st, packets)
    decreases |packets|
  {
    hide Octet, Fits, Encodes;
    if packets != [] {
      PacketAndPaddingIn(st, packets[0], parts[0]);
      StreamIn(st, packets[1..], parts[1..]);
      RunAppend(Octet, st, parts[0], Concat(parts[1..]));
    }
  }

  // Whatever the buffers, and wherever they end, be it inside the padding: the packets sent
  // come out, and what follows them is treated as it would be in one piece.
  lemma ReassemblyInAnyBuffers(st: H4State, packets: seq<Packet>, parts: seq<seq<byte>>,
                               tail: seq<byte>, buffers: seq<seq<byte>>)
    requires Idle(st) && EncodesAll(st, packets, parts)
    requires Concat(buffers) == Concat(parts) + tail && Feed(st, tail).st.error.None?
    ensures FeedBuffers(st, buffers) == Out(Feed(st, tail).st, packets + Feed(st, tail).outs)
  {
    hide Octet, Fits, Encodes, Idle;
    StreamIn(st, packets, parts);
    RunAppend(Octet, st, Concat(parts), tail);
    IdleIsClean(st);
    BuffersDoNotMatter(st, buffers);
  }

  function NokiaStream(packets: seq<Packet>): (r: seq<seq<byte>>)
    ensures |r| == |packets| && forall i :: 0 <= i < |r| ==> r[i] == NokiaEncode(packets[i])
  {
    if packets == [] then [] else [NokiaEncode(packets[0])] + NokiaStream(packets[1..])
  }

  // A word-aligned receiver undoes the sender's filling, wherever the buffers end.
  lemma NokiaRoundTrip(st: H4State, packets: seq<Packet>, buffers: seq<seq<byte>>)
    requires Idle(st) && st.alignment == 2 && forall p :: p in packets ==> Fits(st.pkts, p)
    requires Concat(buffers) == Concat(NokiaStream(packets))
    ensures FeedBuffers(st, buffers) == Out(st, packets)
  {
    hide Octet, Fits, Encodes, NokiaEncode, Idle;
    forall i | 0 <= i < |packets|
      ensures Fits(st.pkts, packets[i]) && Encodes(2, packets[i], NokiaStream(packets)[i])
    {
      NokiaIsAligned(packets[i]);
    }
    StreamIn(st, packets, NokiaStream(packets));
    IdleIsClean(st);
    BuffersDoNotMatter(st, buffers);
  }

  lemma IdleIsClean(st: H4State)
    requires Idle(st)
    ensures st.error.None?
  {}

  /** The other direction: what comes out was in the stream. */

  // The packet held has a type of the table and no more than the table allows for.
  ghost predicate Sound(st: H4State) {
    st.held.Some? ==>
      var p := st.held.value;
      var e := Find(st.pkts, p.ptype);
      && e.Some? && |p.data| < p.expected && st.padding == 0 && st.error.None?
      && if |p.data| < e.value.hlen then p.expected == e.value.hlen
         else
           && e.value.lsize in {1, 2} && p.expected <= e.value.capacity
           && p.expected == e.value.hlen + Field(e.value, p.data)
  }

  lemma OctetIsSound(st: H4State, b: byte)
    requires Sound(st)
    ensures Sound(Octet(st, b).st)
    ensures forall p :: p in Octet(st, b).outs ==> Fits(st.pkts, p)
  {
    hide Find, Pad;
  }

  // What is held, as it stood on the wire.
  function Leftover(st: H4State): seq<byte> {
    if st.held.Some? then [st.held.value.ptype] + st.held.value.data else []
  }

  function Wired(packets: seq<Packet>): seq<byte> {
    if packets == [] then [] else Typed(packets[0]) + Wired(packets[1..])
  }

  lemma {:induction false} WiredAppend(a: seq<Packet>, b: seq<Packet>)
    ensures Wired(a + b) == Wired(a) + Wired(b)
    decreases |a|
  {
    if a == [] {
      assert a + b == b;
    } else {
      WiredAppend(a[1..], b);
      assert (a + b)[1..] == a[1..] + b;
    }
  }

  lemma WiredOne(p: Packet)
    ensures Wired([p]) == Typed(p)
  {
    assert [p][1..] == [];
  }

  lemma OctetIsKept(st: H4State, b: byte)
    requires st.alignment == 1 && st.padding == 0 && st.error.None?
    requires Octet(st, b).st.error.None?
    ensures var out := Octet(st, b);
      out.st.padding == 0 && out.st.alignment == 1 && Wired(out.outs) + Leftover(out.st) == Leftover(st) + [b]
  {
    hide Find;
    var out := Octet(st, b);
    if out.outs != [] {
      WiredOne(out.outs[0]);
      assert out.outs == [out.outs[0]];
    }
  }

  lemma Regroup(a: seq<byte>, b: seq<byte>, end: seq<byte>, mid: seq<byte>, start: seq<byte>, data: seq<byte>)
    requires data != [] && a + mid == start + [data[0]] && b + end == mid + data[1..]
    ensures (a + b) + end == start + data
  {
    assert (a + b) + end == a + (b + end) == (a + mid) + data[1..];
    assert data == [data[0]] + data[1..];
  }

  // Without padding, every octet of an error-free stream is in exactly one packet delivered or
  // in what is still held, in order; and every packet delivered fits the table.
  lemma {:induction false} NothingLostOrInvented(st: H4State, data: seq<byte>)
    requires Sound(st) && st.alignment == 1 && st.padding == 0 && st.error.None?
    requires Feed(st, data).st.error.None?
    ensures var out := Feed(st, data);
      && Wired(out.outs) + Leftover(out.st) == Leftover(st) + data
      && forall p :: p in out.outs ==> Fits(st.pkts, p)
    decreases |data|
  {
    if data == [] {
      assert Leftover(st) + data == Leftover(st);
    } else {
      OctetIsSound(st, data[0]);
      var first := Octet(st, data[0]);
      if first.st.error.Some? {
        FailedStays(first.st, data[1..]);
      }
      OctetIsKept(st, data[0]);
      TableStays(st, data[0]);
      hide Octet, Sound, Leftover, Fits;
      NothingLostOrInvented(first.st, data[1..]);
      var rest := Feed(first.st, data[1..]);
      WiredAppend(first.outs, rest.outs);
      Regroup(Wired(first.outs), Wired(rest.outs), Leftover(rest.st), Leftover(first.st), Leftover(st), data);
    }
  }

  lemma TableStays(st: H4State, b: byte)
    ensures Octet(st, b).st.pkts == st.pkts && Octet(st, b).st.alignment == st.alignment
  {
    hide Find, Pad, Field;
  }

  /** The octets of a packet, spelled out. */

  // A header that says, in the octets of its length field, that n octets follow it.
  predicate Announces(e: Entry, header: seq<byte>, n: nat) {
    && e.WellFormed() && |header| == e.hlen && e.lsize in {0, 1, 2}
    && (e.lsize == 0 ==> n == 0)
    && (e.lsize == 1 ==> header[e.loff] == n)
    && (e.lsize == 2 ==> header[e.loff] == n % 256 && header[e.loff + 1] == n / 256)
  }

  // Where two entries share a type, the first one counts.
  lemma {:induction false} FindIsFirst(pkts: Table, i: nat)
    requires i < |pkts| && forall j :: 0 <= j < i ==> pkts[j].ptype != pkts[i].ptype
    ensures Find(pkts, pkts[i].ptype) == Some(pkts[i])
    decreases i
  {
    if i > 0 {
      assert pkts[0].ptype != pkts[i].ptype;
      FindIsFirst(pkts[1..], i - 1);
    }
  }

  lemma FieldIsAnnounced(e: Entry, header: seq<byte>, payload: seq<byte>)
    requires Announces(e, header, |payload|) && e.lsize in {1, 2}
    ensures Field(e, header + payload) == |payload| && Field(e, header) == |payload|
  {}

  lemma AnnouncedFits(pkts: Table, e: Entry, header: seq<byte>, payload: seq<byte>)
    requires Find(pkts, e.ptype) == Some(e) && Announces(e, header, |payload|)
    requires e.hlen + |payload| <= e.capacity
    ensures Fits(pkts, Packet(e.ptype, header + payload))
  {
    hide Find;
    if e.lsize == 0 {
      assert header + payload == header;
    } else {
      FieldIsAnnounced(e, header, payload);
      hide Field;
    }
  }

  lemma Multiples(k: int, a: nat)
    ensures k >= 2 ==> k * a >= 2 * a
    ensures k < 0 ==> k * a <= 0 - a
  {
    if k >= 2 {
      assert (k - 2) * a >= 0;
    } else if k < 0 {
      assert (-k - 1) * a >= 0;
    }
  }

  lemma Distributes(k: int, q: int, a: nat)
    ensures k * a - q * a == (k - q) * a
  {}

  lemma RemainderAndRest(a: nat, q: int, r: nat, m: nat, k: int)
    requires r < a && m < a && q * a + r + m == k * a
    ensures r + m == 0 || r + m == a
  {
    Distributes(k, q, a);
    Multiples(k - q, a);
    assert k - q == 0 ==> (k - q) * a == 0;
    assert k - q == 1 ==> (k - q) * a == a;
  }

  // The padding is the least that makes a whole number of units.
  lemma PadIsLeast(alignment: Align, n: nat, m: nat)
    requires m < alignment && (n + m) % alignment == 0
    ensures Pad(alignment, n) == m
  {
    var r := n % alignment;
    RemainderAndRest(alignment, n / alignment, r, m, (n + m) / alignment);
    WholeUnit(alignment, r, m);
  }

  lemma WholeUnit(a: Align, r: nat, m: nat)
    requires m < a && (r + m == 0 || r + m == a)
    ensures (a - r) % a == m
  {
    if r == 0 {
      assert m == 0 && (a - r) % a == a % a;
      SelfRemainder(a);
    } else {
      SmallRemainder(m, a);
    }
  }

  lemma SelfRemainder(a: Align)
    ensures a % a == 0
  {}

  lemma SmallRemainder(m: nat, a: Align)
    requires m < a
    ensures m % a == m
  {
    DivisionIs(m, a);
    Multiples(m / a + 1, a);
    assert (m / a + 1) * a == (m / a) * a + a;
  }

  lemma DivisionIs(m: nat, a: Align)
    ensures m == (m / a) * a + m % a && 0 <= m % a && m / a >= 0
  {}

  // Type, header, as many octets as the header says in its length field, least significant
  // octet first, and filling up to a whole number of units: the packet is delivered once, and
  // nothing is left.
  lemma PacketAsWritten(st: H4State, i: nat, header: seq<byte>, payload: seq<byte>, filling: seq<byte>)
    requires Idle(st) && i < |st.pkts| && forall j :: 0 <= j < i ==> st.pkts[j].ptype != st.pkts[i].ptype
    requires Announces(st.pkts[i], header, |payload|) && |header| + |payload| <= st.pkts[i].capacity
    requires |filling| < st.alignment && (1 + |header| + |payload| + |filling|) % st.alignment == 0
    ensures Feed(st, [st.pkts[i].ptype] + header + payload + filling)
      == Out(st, [Packet(st.pkts[i].ptype, header + payload)])
  {
    var e := st.pkts[i];
    FindIsFirst(st.pkts, i);
    AnnouncedFits(st.pkts, e, header, payload);
    hide Find, Announces, Fits, Pad, Feed, Idle;
    var p := Packet(e.ptype, header + payload);
    assert Typed(p) + filling == [e.ptype] + header + payload + filling;
    PadIsLeast(st.alignment, |Typed(p)|, |filling|);
    PacketAndPaddingIn(st, p, Typed(p) + filling);
  }

  // A header that announces more than there is room for ends the buffer: nothing is delivered,
  // and nothing is held.
  lemma TooLongAsWritten(st: H4State, i: nat, header: seq<byte>, n: nat, rest: seq<byte>)
    requires Idle(st) && i < |st.pkts| && forall j :: 0 <= j < i ==> st.pkts[j].ptype != st.pkts[i].ptype
    requires Announces(st.pkts[i], header, n) && |header| + n > st.pkts[i].capacity
    ensures Feed(st, [st.pkts[i].ptype] + header + rest) == Out(st.(error := Some(EMSGSIZE)), [])
  {
    var e := st.pkts[i];
    FindIsFirst(st.pkts, i);
    FillFromType(st, e, header);
    assert Field(e, header) == n;
    hide Find, Octet, Run;
    RunAppend(Octet, st, [e.ptype] + header, rest);
    FailedStays(st.(error := Some(EMSGSIZE)), rest);
  }

  // So does an octet that is the type of no entry, where a packet should begin.
  lemma UnknownTypeAsWritten(st: H4State, b: byte, rest: seq<byte>)
    requires Idle(st) && forall e :: e in st.pkts ==> e.ptype != b
    ensures Feed(st, [b] + rest) == Out(st.(error := Some(EILSEQ)), [])
  {
    assert ([b] + rest)[0] == b && ([b] + rest)[1..] == rest;
    FailedStays(st.(error := Some(EILSEQ)), rest);
  }
}
