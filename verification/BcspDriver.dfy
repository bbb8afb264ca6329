// struct bcsp_struct and its operations, updated in place as the driver does. Each method is
// tied to the functions of BcspLink and BcspCodec.
// Source: drivers/blue8852be/hci_bcsp.c.
module BcspDriver {
  import opened Bytes
  import opened Crc
  import opened Machine
  import opened Framing
  import opened BcspCodec
  import opened BcspLink
  import opened GoBackN

  function UpSeq(up: Option<Up>): seq<Up> { if up.Some? then [up.value] else [] }

  // What a completed buffer does to the link, and what it hands up.
  function CompleteStep(l: Link, skb: Packet): Out<Link, Up> {
    var r := CompleteRx(l, Parse(skb));
    Out(r.link, UpSeq(r.up))
  }

  function CompleteAll(l: Link, done: seq<Packet>): Out<Link, Up> {
    Run(CompleteStep, l, done)
  }

  // The same on frames, as the endpoints exchange them.
  function CompleteFrames(l: Link, frames: seq<GoodFrame>): Out<Link, Up>
    decreases |frames|
  {
    if frames == [] then Out(l, [])
    else
      var r := CompleteRx(l, frames[0]);
      var rest := CompleteFrames(r.link, frames[1..]);
      Out(rest.st, UpSeq(r.up) + rest.outs)
  }

  // Octets and frames agree: whatever frames a peer encodes, received in whatever pieces, the
  // link and the HCI layer see exactly those frames, each once, in order.
  lemma OctetsCarryFrames(rx: RxValid, l: Link, frames: seq<GoodFrame>, chunks: seq<seq<byte>>)
    requires Settle(rx).outs == []
    requires Concat(chunks) == Concat(Encodings(frames))
    ensures var out := RunChunks(RxByte, rx, chunks);
      Settle(out.st).outs == [] && CompleteAll(l, out.outs) == CompleteFrames(l, frames)
  {
    ChunksAreOneStretch(RxByte, rx, chunks);
    FramesInFramesOut(rx, frames);
    CompleteParsed(l, Feed(rx, Concat(chunks)).outs);
  }

  lemma {:induction false} CompleteParsed(l: Link, done: seq<Packet>)
    ensures CompleteAll(l, done) == CompleteFrames(l, Parsed(done))
    decreases |done|
  {
    hide CompleteRx, Parse;
    if done != [] {
      CompleteParsed(CompleteStep(l, done[0]).st, done[1..]);
    }
  }

  lemma NothingCompleted(l: Link)
    ensures CompleteAll(l, []) == Out(l, [])
  {}

  lemma OneCompleted(l: Link, skb: Packet)
    ensures var r := CompleteRx(l, Parse(skb));
      CompleteAll(l, [skb]) == Out(r.link, UpSeq(r.up))
  {
    hide CompleteRx, Parse;
    RunOne(CompleteStep, l, skb);
  }

  lemma EncodeUnfolded(f: Frame)
    requires f.WellFormed()
    ensures var body := Header(f) + f.payload;
      Encode(f) == [DELIMITER]
        + Escape(if f.crc then body + CrcTrailer(CrcOf(CRC_INIT, body)) else body) + [DELIMITER]
  {
    hide CrcOf, Escape, CrcTrailer;
  }

  lemma NothingYet(register: bv16)
    ensures Escape([]) == [] && CrcOf(register, []) == register
  {}

  lemma EscapePair(a: byte, b: byte)
    ensures Escape([a, b]) == EscapeByte(a) + EscapeByte(b)
  {
    EscapeOneMore([], a);
    EscapeOneMore([a], b);
    assert [] + [a] == [a] && [a] + [b] == [a, b];
  }

  lemma CrcOneMore(register: bv16, s: seq<byte>, b: byte)
    ensures CrcOf(register, s + [b]) == CrcUpdate(CrcOf(register, s), b)
  {
    CrcAppend(register, s, [b]);
    var mid := CrcOf(register, s);
    assert [b][1..] == [];
    assert CrcOf(mid, [b]) == CrcOf(CrcUpdate(mid, b), [b][1..]);
  }

  class Bcsp {
    var unack: seq<RelSkb>
    var rel: seq<RelSkb>
    var unrel: seq<UnrelSkb>

    var rxCount: nat
    var rxSkb: seq<byte>
    var rxseqTxack: Seq8
    var rxack: Seq8
    var timerArmed: bool

    var rxState: Phase
    var rxEsc: bool

    var useCrc: bool
    var messageCrc: bv16
    var txackReq: bool
    var msgqTxseq: Seq8

    const hciextn: bool

    function LinkView(): Link
      reads this
    {
      Link(Config(useCrc, hciextn), unack, rel, unrel, msgqTxseq, rxseqTxack, rxack, txackReq, timerArmed)
    }

    function RxView(): RxState
      reads this
    {
      Rx(rxState, rxCount, rxEsc, rxSkb, messageCrc)
    }

    ghost predicate Valid()
      reads this
    {
      RxView().Valid()
    }

    // bcsp_open
    constructor (txcrc: bool, hciextn: bool)
      ensures Valid() && RxView() == RX_INIT
      ensures LinkView() == Opened(Config(txcrc, hciextn))
    {
      this.hciextn := hciextn;
      useCrc := txcrc;
      unack, rel, unrel := [], [], [];
      rxCount, rxSkb, rxState, rxEsc, messageCrc := 0, [], W4PktDelimiter, false, 0;
      rxseqTxack, rxack, msgqTxseq := 0, 0, 0;
      txackReq, timerArmed := false, false;
    }

    method EnqueuePkt(skb: Skb)
      modifies `rel, `unrel
      ensures LinkView() == Enqueue(old(LinkView()), skb)
    {
      if |skb.data| > 0xFFF {
        return;
      }
      match skb.kind {
        case AclData => rel := rel + [skb];
        case Command => rel := rel + [skb];
        case ScoData => unrel := unrel + [skb];
        case _ =>
      }
    }

    // The outcome of bcsp_prepare_pkt; None when the type is unknown or the allocation fails.
    method PreparePkt(kind: PktType, payload: seq<byte>, alloc: bool) returns (nskb: Option<seq<byte>>)
      requires |payload| <= MAX_PAYLOAD
      modifies `msgqTxseq, `txackReq
      ensures nskb.Some? <==> alloc && kind in {AclData, Command, ScoData, BcspLe, BcspAck}
      ensures nskb == None ==> msgqTxseq == old(msgqTxseq) && txackReq == old(txackReq)
      ensures nskb.Some? ==>
        && nskb.value == Encode(FrameOf(Config(useCrc, hciextn), old(msgqTxseq), rxseqTxack, Skb(kind, payload)))
        && txackReq == false
        && msgqTxseq == if Reliable(kind) then Next(old(msgqTxseq)) else old(msgqTxseq)
    {
      hide Escape, CrcTrailer, CrcOf, Encode, Raw, HeaderOctets;
      ghost var frame := FrameOf(Config(useCrc, hciextn), msgqTxseq, rxseqTxack, Skb(kind, payload));
      var chan: nat, reliable: bool;
      match kind {
        case AclData => chan, reliable := 6, true;
        case Command => chan, reliable := 5, true;
        case ScoData => chan, reliable := 7, false;
        case BcspLe => chan, reliable := 1, false;
        case BcspAck => chan, reliable := 0, false;
        case _ => return None;
      }

      var data := payload;
      if hciextn && chan == 5 && |data| >= 4 && data[1] / 4 == 0x3f {
        var desc := data[3];
        if desc / 16 == 0xc {
          data := data[4..];
          chan := desc % 16;
        }
      }
      assert data == frame.payload && chan == frame.chan;

      if !alloc {
        return None;
      }

      var hdr := BuildHeader(reliable, chan, |data|);
      assert hdr == Header(frame);
      EncodeUnfolded(frame);
      var buffer := PutPacket(hdr, data);
      nskb := Some(buffer);
    }

    // The part of bcsp_prepare_pkt that fills in the header and takes a sequence number.
    method BuildHeader(reliable: bool, chan: nat, len: nat) returns (hdr: seq<byte>)
      requires chan < 16 && len <= MAX_PAYLOAD
      modifies `msgqTxseq, `txackReq
      ensures txackReq == false
      ensures msgqTxseq == if reliable then Next(old(msgqTxseq)) else old(msgqTxseq)
      ensures var h0 := FirstOctet(reliable, if reliable then old(msgqTxseq) else 0, rxseqTxack, useCrc);
        hdr == HeaderOctets(h0, chan, len)
    {
      var h0: nat := 8 * rxseqTxack;
      txackReq := false;
      if reliable {
        h0 := h0 + 0x80 + msgqTxseq;
        msgqTxseq := Next(msgqTxseq);
      }
      if useCrc {
        h0 := h0 + 0x40;
      }
      var h1 := 16 * (len % 16) + chan;
      var h2 := len / 16;
      hdr := [h0, h1, h2, 255 - (h0 + h1 + h2) % 256];
    }

    // The part of bcsp_prepare_pkt that fills the buffer: delimiters, header, payload, CRC.
    method PutPacket(hdr: seq<byte>, data: seq<byte>) returns (buffer: seq<byte>)
      ensures var body := hdr + data;
        buffer == [DELIMITER]
          + Escape(if useCrc then body + CrcTrailer(CrcOf(CRC_INIT, body)) else body) + [DELIMITER]
    {
      hide CrcUpdate, CrcOf, BitRev16, Octet, Escape, EscapeByte;
      var crc;
      buffer, crc := PutOctets([DELIMITER], CRC_INIT, hdr);
      buffer, crc := PutOctets(buffer, crc, data);
      EscapeAppend(hdr, data);
      CrcAppend(CRC_INIT, hdr, data);
      assert buffer == [DELIMITER] + Escape(hdr + data);
      if useCrc {
        EscapeAppend(hdr + data, CrcTrailer(crc));
        EscapePair(Octet(BitRev16(crc) >> 8), Octet(BitRev16(crc) & 0xff));
        buffer := buffer + EscapeByte(Octet(BitRev16(crc) >> 8));
        buffer := buffer + EscapeByte(Octet(BitRev16(crc) & 0xff));
        assert buffer == [DELIMITER] + Escape(hdr + data + CrcTrailer(crc));
      }
      buffer := buffer + [DELIMITER];
    }

    method PutOctets(start: seq<byte>, register: bv16, s: seq<byte>) returns (buffer: seq<byte>, crc: bv16)
      ensures buffer == start + Escape(s)
      ensures useCrc ==> crc == CrcOf(register, s)
    {
      hide CrcUpdate, CrcOf, Escape, EscapeByte;
      NothingYet(register);
      buffer, crc := start, register;
      for i := 0 to |s|
        invariant buffer == start + Escape(s[..i])
        invariant useCrc ==> crc == CrcOf(register, s[..i])
      {
        assert s[..i] + [s[i]] == s[..i + 1];
        EscapeOneMore(s[..i], s[i]);
        CrcOneMore(register, s[..i], s[i]);
        buffer := buffer + EscapeByte(s[i]);
        if useCrc {
          crc := CrcUpdate(crc, s[i]);
        }
      }
      assert s[..|s|] == s;
    }

    // bcsp_dequeue; alloc says which allocations would succeed.
    method DequeuePkt(alloc: Allocs) returns (nskb: Option<seq<byte>>)
      modifies `unrel, `rel, `unack, `timerArmed, `msgqTxseq, `txackReq
      ensures var s := Dequeue(old(LinkView()), alloc);
        LinkView() == s.link && nskb == if s.frame.Some? then Some(Encode(s.frame.value)) else None
    {
      hide Encode, FrameOf, Reliable;
      if unrel != [] {
        nskb := SendUnreliable(alloc.unrel);
        if nskb.Some? {
          return;
        }
      }
      if |unack| < TX_WINDOW && rel != [] {
        nskb := SendReliable(alloc.rel);
        if nskb.Some? {
          return;
        }
      }
      if txackReq {
        ReliableKinds();
        nskb := PreparePkt(BcspAck, [], alloc.ack);
        return;
      }
      nskb := None;
    }

    // The part of bcsp_dequeue for the unreliable queue; the packet goes back if it cannot be built.
    method SendUnreliable(alloc: bool) returns (nskb: Option<seq<byte>>)
      requires unrel != []
      modifies `unrel, `msgqTxseq, `txackReq
      ensures nskb.Some? <==> alloc
      ensures !alloc ==> LinkView() == old(LinkView())
      ensures alloc ==>
        && LinkView() == old(LinkView()).(unrel := old(unrel)[1..], ackReq := false)
        && nskb.value == Encode(FrameOf(Config(useCrc, hciextn), old(msgqTxseq), rxseqTxack, old(unrel)[0]))
    {
      hide Encode, FrameOf, Reliable;
      ReliableKinds();
      assert unrel == [unrel[0]] + unrel[1..];
      var skb := unrel[0];
      unrel := unrel[1..];
      nskb := PreparePkt(skb.kind, skb.data, alloc);
      if nskb.None? {
        unrel := [skb] + unrel;
      }
    }

    // The part of bcsp_dequeue for the window.
    method SendReliable(alloc: bool) returns (nskb: Option<seq<byte>>)
      requires rel != []
      modifies `rel, `unack, `timerArmed, `msgqTxseq, `txackReq
      ensures nskb.Some? <==> alloc
      ensures !alloc ==> LinkView() == old(LinkView())
      ensures alloc ==>
        && LinkView() == old(LinkView()).(rel := old(rel)[1..], unack := old(unack) + [old(rel)[0]],
             txseq := Next(old(msgqTxseq)), ackReq := false, timer := true)
        && nskb.value == Encode(FrameOf(Config(useCrc, hciextn), old(msgqTxseq), rxseqTxack, old(rel)[0]))
    {
      hide Encode, FrameOf, Reliable;
      ReliableKinds();
      assert rel == [rel[0]] + rel[1..];
      var skb := rel[0];
      rel := rel[1..];
      nskb := PreparePkt(skb.kind, skb.data, alloc);
      if nskb.Some? {
        unack := unack + [skb];
        timerArmed := true;
      } else {
        rel := [skb] + rel;
      }
    }

    method PktCull()
      modifies `unack, `timerArmed
      ensures LinkView() == Cull(old(LinkView()))
    {
      hide Behind;
      var n := |unack|;
      var toRemove := n;
      var seqno := msgqTxseq;
      while toRemove > 0
        invariant 0 <= toRemove <= n && unack == old(unack) && timerArmed == old(timerArmed)
        invariant seqno == (msgqTxseq - (n - toRemove)) % 8
        invariant n - toRemove <= Behind(msgqTxseq, rxack)
      {
        if rxack == seqno {
          break;
        }
        StillBehind(msgqTxseq, rxack, n - toRemove);
        StepBack(msgqTxseq, n - toRemove);
        toRemove := toRemove - 1;
        seqno := Previous(seqno);
      }
      if rxack == seqno {
        ReachedAck(msgqTxseq, rxack, n - toRemove);
      } else {
        StillBehind(msgqTxseq, rxack, n);
      }
      assert toRemove == CullCount(n, msgqTxseq, rxack);

      var i := 0;
      while i < toRemove
        invariant i <= toRemove && unack == old(unack)[i..] && timerArmed == old(timerArmed)
      {
        unack := unack[1..];
        i := i + 1;
      }
      if unack == [] {
        timerArmed := false;
      }
    }

    method TimedEvent()
      modifies `unack, `rel, `msgqTxseq, `timerArmed
      ensures LinkView() == Timeout(old(LinkView()))
    {
      timerArmed := false;
      ghost var all := unack + rel;
      while unack != []
        invariant !timerArmed && unack + rel == all
        invariant |unack| <= old(|unack|)
        invariant msgqTxseq == (old(msgqTxseq) - (old(|unack|) - |unack|)) % 8
        decreases |unack|
      {
        var skb := unack[|unack| - 1];
        unack := unack[..|unack| - 1];
        StepBack(old(msgqTxseq), old(|unack|) - |unack| - 1);
        msgqTxseq := Previous(msgqTxseq);
        rel := [skb] + rel;
      }
      assert rel == all;
    }

    // bcsp_complete_rx_pkt on the buffer rxSkb; up is what is passed to the HCI layer.
    method CompleteRxPkt() returns (up: Option<Up>)
      requires 4 <= |rxSkb| <= 4 + MAX_PAYLOAD && rxCount == 0
      modifies this
      ensures var r := CompleteRx(old(LinkView()), Parse(old(rxSkb)));
        LinkView() == r.link && up == r.up
      ensures RxView() == Rx(W4PktDelimiter, 0, old(rxEsc), [], old(messageCrc))
    {
      hide UpOf, HandleLe, Cull, ParseOctets, TakeSequence, InOrder;
      ParseFields(rxSkb);
      ghost var f := Parse(rxSkb);
      var reliable := rxSkb[0] / 128 == 1;
      var drop := SequenceAndAck(f);
      up := None;
      if !drop {
        up := PassUp(reliable, rxSkb[1] % 16, rxSkb[4..]);
      }
      rxState := W4PktDelimiter;
      rxSkb := [];
    }

    // The part of bcsp_complete_rx_pkt that looks at the numbers; true for out of order.
    method SequenceAndAck(ghost f: Frame) returns (drop: bool)
      requires 4 <= |rxSkb| <= 4 + MAX_PAYLOAD && f == Parse(rxSkb)
      modifies `rxseqTxack, `txackReq, `rxack, `unack, `timerArmed
      ensures LinkView() == Cull(TakeSequence(old(LinkView()), f).(rxack := f.ack))
      ensures drop <==> f.rel && !InOrder(old(LinkView()), f)
    {
      hide ParseOctets, Cull;
      ParseFields(rxSkb);
      drop := false;
      if rxSkb[0] / 128 == 1 {
        if rxSkb[0] % 8 == rxseqTxack {
          rxseqTxack := Next(rxseqTxack);
        } else {
          drop := true;
        }
        txackReq := true;
      }
      rxack := rxSkb[0] / 8 % 8;
      assert LinkView() == TakeSequence(old(LinkView()), f).(rxack := f.ack);
      PktCull();
    }

    // The part of bcsp_complete_rx_pkt that looks at the channel.
    method PassUp(reliable: bool, chan: nat, payload: seq<byte>) returns (up: Option<Up>)
      requires chan < 16
      modifies `unrel
      ensures up == UpOf(reliable, Wire(chan, payload), hciextn)
      ensures LinkView() ==
        if chan == 1 && !reliable then HandleLe(old(LinkView()), payload) else old(LinkView())
    {
      if chan == 6 && reliable {
        return Some(Up(AclData, payload));
      } else if chan == 5 && reliable {
        return Some(Up(Event, payload));
      } else if chan == 7 {
        return Some(Up(ScoData, payload));
      }
      if chan == 1 && !reliable && payload == CONF_PKT {
        unrel := [Skb(BcspLe, CONF_RSP_PKT)] + unrel;
      }
      if chan == 0 || chan == 1 || !hciextn {
        return None;
      }
      var pulled := [0xc0 + chan] + payload;
      assert [0xff, |pulled| % 256] + pulled == [0xff, (|payload| + 1) % 256, 0xc0 + chan] + payload;
      up := Some(Up(Event, [0xff, |pulled| % 256] + pulled));
    }

    method UnslipOneByte(b: byte)
      requires Valid() && rxCount > 0
      modifies `rxEsc, `rxSkb, `messageCrc, `rxCount, `rxState
      ensures RxView() == Unslip(old(RxView()), b)
    {
      if !rxEsc {
        if b == 0xdb {
          rxEsc := true;
        } else {
          StoreOctet(b);
        }
      } else {
        match b {
          case 0xdc =>
            StoreOctet(0xc0);
            rxEsc := false;
          case 0xdd =>
            StoreOctet(0xdb);
            rxEsc := false;
          case _ =>
            rxSkb := [];
            rxState := W4PktDelimiter;
            rxCount := 0;
        }
      }
    }

    method StoreOctet(b: byte)
      requires Valid() && rxCount > 0
      modifies `rxSkb, `messageCrc, `rxCount
      ensures RxView() == Put(old(RxView()), b).(esc := rxEsc)
    {
      rxSkb := rxSkb + [b];
      if rxSkb[0] / 64 % 2 == 1 && rxState != W4Crc {
        messageCrc := CrcUpdate(messageCrc, b);
      }
      rxCount := rxCount - 1;
    }

    // One turn of the loop in bcsp_recv on octet b: nothing is consumed by a state change.
    method Turn(b: byte) returns (used: bool, up: Option<Up>)
      requires Valid()
      modifies this
      ensures Valid()
      ensures var m := Micro(old(RxView()), b);
        && RxView() == m.rx && used == m.used
        && Out(LinkView(), UpSeq(up)) == CompleteAll(old(LinkView()), m.done)
    {
      hide Unslip, EndOfStage;
      used, up := true, None;
      if rxCount > 0 {
        if b == 0xc0 {
          rxSkb := [];
          rxState := W4PktStart;
          rxCount := 0;
        } else {
          UnslipOneByte(b);
        }
        return;
      }
      if rxState == W4PktDelimiter {
        if b == 0xc0 {
          rxState := W4PktStart;
        }
      } else if rxState == W4PktStart {
        if b != 0xc0 {
          rxState := W4BcspHdr;
          rxCount := 4;
          rxEsc := false;
          messageCrc := CRC_INIT;
          rxSkb := [];
          used := false;
        }
      } else {
        up := FinishStage();
        used := false;
      }
    }

    // The cases of the switch in bcsp_recv for a stage that has all its octets.
    method FinishStage() returns (up: Option<Up>)
      requires Valid() && !Settled(RxView())
      modifies this
      ensures Valid()
      ensures var m := EndOfStage(old(RxView()));
        && RxView() == m.rx
        && Out(LinkView(), UpSeq(up)) == CompleteAll(old(LinkView()), m.done)
    {
      hide CompleteAll, CrcMatches, ChecksumOk;
      NothingCompleted(LinkView());
      up := None;
      if rxState == W4BcspHdr {
        FinishHeader();
      } else if rxState == W4Data {
        if rxSkb[0] / 64 % 2 == 1 {
          rxState := W4Crc;
          rxCount := 2;
        } else {
          OneCompleted(LinkView(), rxSkb);
          up := CompleteRxPkt();
        }
      } else {
        up := FinishTrailer();
      }
    }

    method FinishHeader()
      requires Valid() && rxState == W4BcspHdr && rxCount == 0
      modifies `rxSkb, `rxState, `rxCount
      ensures RxView() == EndOfStage(old(RxView())).rx
    {
      var sum: int := rxSkb[0] as int + rxSkb[1] as int + rxSkb[2] as int;
      if 255 - sum % 256 != rxSkb[3] {
        DropRx();
      } else {
        var low: nat, high: nat := rxSkb[1], rxSkb[2];
        rxState := W4Data;
        rxCount := low / 16 + 16 * high;
      }
    }

    method FinishTrailer() returns (up: Option<Up>)
      requires Valid() && rxState == W4Crc && rxCount == 0
      modifies this
      ensures var m := EndOfStage(old(RxView()));
        && RxView() == m.rx
        && Out(LinkView(), UpSeq(up)) == CompleteAll(old(LinkView()), m.done)
    {
      hide CompleteAll, BitRev16, Be16;
      NothingCompleted(LinkView());
      up := None;
      if BitRev16(messageCrc) != Be16(rxSkb[|rxSkb| - 2], rxSkb[|rxSkb| - 1]) {
        DropRx();
      } else {
        rxSkb := rxSkb[..|rxSkb| - 2];
        OneCompleted(LinkView(), rxSkb);
        up := CompleteRxPkt();
      }
    }

    method DropRx()
      modifies `rxSkb, `rxState, `rxCount
      ensures RxView() == Reset(old(RxView()))
    {
      rxSkb := [];
      rxState := W4PktDelimiter;
      rxCount := 0;
    }

    // bcsp_recv; ups is everything passed to the HCI layer, in order.
    method Recv(data: seq<byte>) returns (ups: seq<Up>)
      requires Valid()
      modifies this
      ensures Valid()
      ensures var out := Feed(old(RxView()), data);
        && RxView() == out.st
        && Out(LinkView(), ups) == CompleteAll(old(LinkView()), out.outs)
    {
      hide Micro, CompleteStep;
      ups := [];
      var i := 0;
      ghost var done: seq<Packet> := [];
      while i < |data|
        invariant 0 <= i <= |data| && Valid()
        invariant Feed(old(RxView()), data) == Continue<RxValid, byte, Packet>(RxByte, done, RxView(), data[i..])
        invariant Out(LinkView(), ups) == CompleteAll(old(LinkView()), done)
        decreases |data| - i, Rank(rxState, rxCount)
      {
        MicroIsSound(done, RxView(), data[i..]);
        MicroProgress(RxView(), data[i]);
        assert data[i..][1..] == data[i + 1..];
        ghost var more := Micro(RxView(), data[i]).done;
        var used, up := Turn(data[i]);
        RunAppend(CompleteStep, old(LinkView()), done, more);
        done := done + more;
        ups := ups + UpSeq(up);
        if used {
          i := i + 1;
        }
      }
      assert data[i..] == [] && done + [] == done;
    }
  }

  /** One turn of the receive loop: the state it leaves, the buffer it completes, and whether
      it consumed the octet. */

  datatype Move = Move(rx: RxValid, done: seq<Packet>, used: bool)

  function Micro(rx: RxValid, b: byte): Move {
    if rx.count > 0 || rx.phase == W4PktDelimiter || (rx.phase == W4PktStart && b == DELIMITER) then
      Move(Consume(rx, b), [], true)
    else if rx.phase == W4PktStart then Move(FRESH_HEADER, [], false)
    else EndOfStage(rx)
  }

  function EndOfStage(rx: RxValid): (m: Move)
    requires !Settled(rx)
    ensures !m.used
  {
    if rx.phase == W4BcspHdr then
      Move(if ChecksumOk(rx.skb) then rx.(phase := W4Data, count := HdrLen(rx.skb)) else Reset(rx), [], false)
    else if rx.phase == W4Crc then
      Move(Reset(rx), if CrcMatches(rx) then [rx.skb[..|rx.skb| - 2]] else [], false)
    else if CrcFlag(rx.skb) then Move(rx.(phase := W4Crc, count := 2), [], false)
    else Move(Reset(rx), [rx.skb], false)
  }

  // The loop's turns add up to the octet-at-a-time receiver.
  lemma MicroIsSound(done: seq<Packet>, rx: RxValid, rest: seq<byte>)
    requires rest != []
    ensures var m := Micro(rx, rest[0]);
      Continue(RxByte, done, rx, rest) ==
      Continue(RxByte, done + m.done, m.rx, if m.used then rest[1..] else rest)
  {
    MicroIsByte(rx, rest[0]);
    hide Micro, RxByte, Run;
    var m := Micro(rx, rest[0]);
    if m.used {
      Advance(RxByte, done, rx, rest);
    } else {
      Shift(RxByte, done, rx, rest, m.rx, m.done);
    }
  }

  lemma MicroSettles(rx: RxValid, b: byte)
    requires !Settled(rx)
    ensures var m := Micro(rx, b);
      !m.used && Settle(rx) == Out(Settle(m.rx).st, m.done + Settle(m.rx).outs)
  {
    hide CrcMatches, ChecksumOk, CrcFlag, HdrLen;
  }

  lemma MicroIsByte(rx: RxValid, b: byte)
    ensures var m := Micro(rx, b);
      if m.used then m.done == [] && RxByte(rx, b) == Out(m.rx, [])
      else RxByte(rx, b) == Out(RxByte(m.rx, b).st, m.done + RxByte(m.rx, b).outs)
  {
    hide Unslip, SettleHdr, SettleData, SettleCrc;
    if !Settled(rx) {
      MicroSettles(rx, b);
    }
  }

  // The transitions that consume nothing can follow one another only so often.
  function Rank(phase: Phase, count: nat): nat {
    if count > 0 then 0
    else match phase
      case W4BcspHdr => 3
      case W4Data => 2
      case W4Crc => 1
      case W4PktStart => 1
      case W4PktDelimiter => 0
  }

  lemma MicroProgress(rx: RxValid, b: byte)
    ensures var m := Micro(rx, b);
      m.used || Rank(m.rx.phase, m.rx.count) < Rank(rx.phase, rx.count)
  {}

  lemma ReliableKinds()
    ensures Reliable(AclData) && Reliable(Command)
    ensures !Reliable(ScoData) && !Reliable(BcspLe) && !Reliable(BcspAck)
  {}
}
