// struct h5 and its operations, updated in place as the driver does. Each method is tied to
// the functions of H5Link and H5Codec.
// Source: drivers/blue8852be/hci_h5.c, lines 63-103, 125-210 and 284-796.
module H5Driver {
  import opened Bytes
  import opened Machine
  import opened Framing
  import opened GoBackN
  import opened H5Link
  import opened H5Codec

  class H5Dev {
    var unack: seq<RelSkb>
    var rel: seq<RelSkb>
    var unrel: seq<UnrelSkb>

    var rxEsc: bool
    var txAckReq: bool

    var rxSkb: seq<byte>
    var rxPending: nat
    var rxAck: Seq8
    var rxFunc: Phase

    var timerArmed: bool

    var txSeq: Seq8
    var txAck: Seq8
    var txWin: Seq8

    var state: LinkState
    var sleep: Sleep

    function LinkView(): Link
      reads this
    {
      Link(unack, rel, unrel, txSeq, txAck, rxAck, txWin, state, sleep, txAckReq, timerArmed)
    }

    function RxView(): Rx
      reads this
    {
      Rx(rxFunc, rxPending, rxEsc, rxSkb)
    }

    function View(): H5State
      reads this
    {
      H5(RxView(), LinkView())
    }

    ghost predicate Valid()
      reads this
    {
      View().Valid()
    }

    // h5_open
    constructor ()
      ensures Valid() && View() == H5(RX_RESET, OPENED)
    {
      unack, rel, unrel := [], [], [Skb(LINK_PKT, SYNC_REQ)];
      rxSkb, rxPending, rxEsc, rxFunc := [], 0, false, Delimiter;
      rxAck, txSeq, txAck, txWin := 0, 0, 0, TX_WIN_MAX;
      state, sleep, txAckReq, timerArmed := Uninitialized, Awake, false, true;
    }

    method LinkCtrl(data: seq<byte>)
      requires |data| <= MAX_PAYLOAD
      modifies `unrel
      ensures LinkView() == LinkControl(old(LinkView()), data)
    {
      unrel := unrel + [Skb(LINK_PKT, data)];
    }

    method TimedEvent()
      modifies `unack, `rel, `unrel, `txSeq, `timerArmed, `sleep
      ensures LinkView() == Timeout(old(LinkView()))
    {
      timerArmed := false;
      if state == Uninitialized {
        LinkCtrl(SYNC_REQ);
      }
      if state == Initialized {
        var confReq: seq<byte> := ConfReq(LinkView());
        LinkCtrl(confReq);
      }
      if state != Active {
        timerArmed := true;
        return;
      }
      if sleep != Awake {
        sleep := Sleeping;
        return;
      }
      ghost var all := unack + rel;
      ghost var before := LinkView();
      while unack != []
        invariant LinkView() == before.(unack := unack, rel := rel, txSeq := txSeq)
        invariant unack + rel == all && |unack| <= |before.unack|
        invariant txSeq == (before.txSeq - (|before.unack| - |unack|)) % 8
        decreases |unack|
      {
        var skb := unack[|unack| - 1];
        unack := unack[..|unack| - 1];
        StepBack(before.txSeq, |before.unack| - |unack| - 1);
        txSeq := Previous(txSeq);
        rel := [skb] + rel;
      }
      assert rel == all;
    }

    method PeerHasReset()
      modifies `state, `timerArmed, `rel, `unrel, `unack, `txSeq, `txAck
      ensures LinkView() == PeerReset(old(LinkView()))
    {
      state := Uninitialized;
      timerArmed := false;
      rel, unrel, unack := [], [], [];
      txSeq, txAck := 0, 0;
    }

    method PktCull()
      modifies `unack, `timerArmed
      ensures LinkView() == Cull(old(LinkView()))
    {
      hide Behind;
      var n := |unack|;
      var toRemove := n;
      if toRemove == 0 {
        return;
      }
      var seqno := txSeq;
      while toRemove > 0
        invariant 0 <= toRemove <= n && unack == old(unack) && timerArmed == old(timerArmed)
        invariant seqno == (txSeq - (n - toRemove)) % 8
        invariant n - toRemove <= Behind(txSeq, rxAck)
      {
        if rxAck == seqno {
          break;
        }
        StillBehind(txSeq, rxAck, n - toRemove);
        StepBack(txSeq, n - toRemove);
        toRemove := toRemove - 1;
        seqno := Previous(seqno);
      }
      if rxAck == seqno {
        ReachedAck(txSeq, rxAck, n - toRemove);
      } else {
        StillBehind(txSeq, rxAck, n);
      }
      assert toRemove == CullCount(n, txSeq, rxAck);

      var i := 0;
      while i < toRemove
        invariant i <= toRemove && unack == old(unack)[i..] && timerArmed == old(timerArmed)
      {
        unack := unack[1..];
        i := i + 1;
      }
      if unack == [] {
        timerArmed := false;
      }
    }

    // h5_handle_internal_rx on a link control message of len octets.
    method HandleInternalRx(data: seq<byte>, len: nat)
      requires len <= |data|
      modifies `unrel, `state, `timerArmed, `rel, `unack, `txSeq, `txAck, `txWin, `sleep
      ensures LinkView() == HandleLink(old(LinkView()), data, len)
    {
      if len < 2 {
        return;
      }
      var confReq: seq<byte> := ConfReq(LinkView());
      if data[..2] == SYNC_REQ {
        if state == Active {
          PeerHasReset();
        }
        LinkCtrl(SYNC_RSP);
      } else if data[..2] == SYNC_RSP {
        if state == Active {
          PeerHasReset();
        }
        state := Initialized;
        LinkCtrl(confReq);
      } else if data[..2] == CONF_REQ {
        LinkCtrl(CONF_RSP);
        LinkCtrl(confReq);
      } else if data[..2] == CONF_RSP {
        if len > 2 {
          txWin := data[2] % 8;
        }
        state := Active;
      } else if data[..2] == SLEEP_REQ {
        sleep := Sleeping;
      } else if data[..2] == WOKEN_REQ {
        sleep := Awake;
      } else if data[..2] == WAKEUP_REQ {
        LinkCtrl(WOKEN_REQ);
        sleep := Awake;
      }
    }

    method ResetRx()
      modifies `rxSkb, `rxFunc, `rxPending, `rxEsc
      ensures RxView() == RX_RESET
    {
      rxSkb := [];
      rxFunc := Delimiter;
      rxPending := 0;
      rxEsc := false;
    }

    // h5_complete_rx_pkt
    method CompleteRxPkt() returns (up: Option<Up>)
      requires |rxSkb| >= 4 && |rxSkb| == 4 + HdrLen(rxSkb) + if CrcFlag(rxSkb) then 2 else 0
      modifies this
      ensures var r := CompleteRx(old(LinkView()), ParseOctets(old(rxSkb)));
        View() == H5(RX_RESET, r.link) && up == r.up
    {
      hide Cull, HandleLink, HdrLen, PassedUp;
      ghost var f := ParseOctets(rxSkb);
      LengthIs(rxSkb);
      hide ParseOctets, MessageLen;
      ParseFields(rxSkb);
      TakeNumbers(rxSkb[0] / 128 == 1, rxSkb[0] / 8 % 8);
      up := Dispatch(rxSkb[1] % 16);
      ResetRx();
    }

    // What the header says about numbers, before the packet is looked at.
    method TakeNumbers(reliable: bool, ack: Seq8)
      modifies `txAck, `txAckReq, `rxAck, `unack, `timerArmed
      ensures var l := old(LinkView());
        LinkView() == Cull((if reliable then l.(txAck := Next(l.txAck), ackReq := true) else l).(rxAck := ack))
    {
      hide Cull;
      if reliable {
        txAck := Next(txAck);
        txAckReq := true;
      }
      rxAck := ack;
      PktCull();
    }

    // What is done with the packet by its type.
    method Dispatch(ptype: nat) returns (up: Option<Up>)
      requires |rxSkb| >= 4 && HdrLen(rxSkb) <= |rxSkb| - 4
      modifies `unrel, `state, `timerArmed, `rel, `unack, `txSeq, `txAck, `txWin, `sleep
      ensures up == if PassedUp(ptype) then Some(Up(ptype, rxSkb[4..])) else None
      ensures LinkView() ==
        if !PassedUp(ptype) && ptype == LINK_PKT then HandleLink(old(LinkView()), rxSkb[4..], HdrLen(rxSkb))
        else old(LinkView())
    {
      hide HandleLink;
      up := None;
      if ptype in {EVENT_PKT, ACLDATA_PKT, SCODATA_PKT, ISODATA_PKT} {
        up := Some(Up(ptype, rxSkb[4..]));
      } else if ptype == LINK_PKT {
        var low: nat, high: nat := rxSkb[1], rxSkb[2];
        HandleInternalRx(rxSkb[4..], low / 16 + 16 * high);
      }
    }

    // One call of the function rx_func points at; used says whether it consumed the octet c.
    method RxFunc(c: byte) returns (used: bool, up: Option<Up>)
      requires Valid() && rxPending == 0
      modifies this
      ensures Valid()
      ensures var m := Micro(old(View()), c);
        View() == m.st && used == m.used && UpSeq(up) == m.outs
    {
      hide CompleteRx, HdrLen, Accepts;
      used, up := false, None;
      if rxFunc == Delimiter {
        if c == DELIMITER {
          rxFunc := PktStart;
        }
        used := true;
      } else if rxFunc == PktStart {
        if c == DELIMITER {
          used := true;
        } else {
          rxFunc := Header3Wire;
          rxPending := 4;
          rxSkb := [];
        }
      } else if rxFunc == Header3Wire {
        Rx3WireHdr();
      } else if rxFunc == Payload {
        if rxSkb[0] / 64 % 2 == 1 {
          rxFunc := Crc;
          rxPending := 2;
        } else {
          up := CompleteRxPkt();
        }
      } else {
        up := CompleteRxPkt();
      }
    }

    // h5_rx_3wire_hdr
    method Rx3WireHdr()
      requires Valid() && rxFunc == Header3Wire && rxPending == 0
      modifies `rxSkb, `rxFunc, `rxPending, `rxEsc
      ensures Valid() && View() == HeaderMove(old(View()))
    {
      hide ParseOctets;
      ParseFields(rxSkb);
      var reliable, seqno, ptype := rxSkb[0] / 128 == 1, rxSkb[0] % 8, rxSkb[1] % 16;
      var sum: int := rxSkb[0] as int + rxSkb[1] as int + rxSkb[2] as int + rxSkb[3] as int;
      ChecksumBySum(rxSkb);
      if sum % 256 != 0xff {
        ResetRx();
      } else if reliable && seqno != txAck {
        ResetRx();
      } else if state != Active && ptype != LINK_PKT {
        ResetRx();
      } else {
        var low: nat, high: nat := rxSkb[1], rxSkb[2];
        rxFunc := Payload;
        rxPending := low / 16 + 16 * high;
      }
    }

    method UnslipOneByte(c: byte)
      requires Valid() && rxPending > 0
      modifies `rxSkb, `rxFunc, `rxPending, `rxEsc
      ensures View() == Unslip(old(View()), c)
    {
      var octet := c;
      if !rxEsc && c == ESCAPE {
        rxEsc := true;
        return;
      }
      if rxEsc {
        rxEsc := false;
        if c == ESCAPED_DELIMITER {
          octet := DELIMITER;
        } else if c == ESCAPED_ESCAPE {
          octet := ESCAPE;
        } else {
          ResetRx();
          return;
        }
      }
      rxSkb := rxSkb + [octet];
      rxPending := rxPending - 1;
    }

    // h5_recv; ups is everything passed to the HCI layer, in order.
    method Recv(data: seq<byte>) returns (ups: seq<Up>)
      requires Valid()
      modifies this
      ensures Valid() && Out(View(), ups) == Feed(old(View()), data)
    {
      hide Micro, RxByte, Unslip, Run;
      ups := [];
      var i := 0;
      while i < |data|
        invariant 0 <= i <= |data| && Valid()
        invariant Feed(old(View()), data) == Continue<H5Valid, byte, Up>(RxByte, ups, View(), data[i..])
        decreases |data| - i, Rank(rxFunc, rxPending)
      {
        MicroIsSound(ups, View(), data[i..]);
        MicroProgress(View(), data[i]);
        assert data[i..][1..] == data[i + 1..];
        var used, up := Turn(data[i]);
        ups := ups + UpSeq(up);
        if used {
          i := i + 1;
        }
      }
      RunNothing(View());
      assert data[i..] == [] && ups + [] == ups;
    }

    // One turn of the loop in h5_recv: a packet cut short is dropped before its delimiter is used.
    method Turn(c: byte) returns (used: bool, up: Option<Up>)
      requires Valid()
      modifies this
      ensures Valid()
      ensures var m := Micro(old(View()), c);
        View() == m.st && used == m.used && UpSeq(up) == m.outs
    {
      hide Unslip, Accepts, EndOfStage;
      if rxPending > 0 {
        if c == DELIMITER {
          ResetRx();
          return false, None;
        }
        UnslipOneByte(c);
        return true, None;
      }
      used, up := RxFunc(c);
    }

    method EnqueuePkt(skb: Skb)
      modifies `rel, `unrel
      ensures LinkView() == Enqueue(old(LinkView()), skb)
    {
      if |skb.data| > 0xfff {
        return;
      }
      if state != Active {
        return;
      }
      if skb.ptype == ACLDATA_PKT || skb.ptype == COMMAND_PKT {
        rel := rel + [skb];
      } else if skb.ptype == SCODATA_PKT || skb.ptype == ISODATA_PKT {
        unrel := unrel + [skb];
      }
    }

    // h5_prepare_pkt; None when the type is not a sendable one or the allocation fails.
    method PreparePkt(ptype: nat, data: seq<byte>, alloc: bool) returns (nskb: Option<seq<byte>>)
      requires |data| <= MAX_PAYLOAD && ptype < 16
      modifies `txSeq, `txAckReq
      ensures nskb.Some? <==>
        alloc && ptype in {ACLDATA_PKT, COMMAND_PKT, SCODATA_PKT, ISODATA_PKT, LINK_PKT, ACK_PKT}
      ensures nskb == None ==> txSeq == old(txSeq) && txAckReq == old(txAckReq)
      ensures nskb.Some? ==>
        && nskb.value == Encode(FrameOf(old(txSeq), txAck, Skb(ptype, data)))
        && txAckReq == false
        && txSeq == if Reliable(ptype) then Next(old(txSeq)) else old(txSeq)
    {
      hide Escape, Encode, HeaderOctets, FirstOctet;
      ghost var frame := FrameOf(txSeq, txAck, Skb(ptype, data));
      if ptype !in {ACLDATA_PKT, COMMAND_PKT, SCODATA_PKT, ISODATA_PKT, LINK_PKT, ACK_PKT} {
        return None;
      }
      if !alloc {
        return None;
      }
      var reliable := ptype == ACLDATA_PKT || ptype == COMMAND_PKT;
      ghost var number: Seq8 := if reliable then txSeq else 0;
      var hdr := BuildHeader(reliable, ptype, |data|);
      assert hdr == HeaderOctets(FirstOctet(reliable, number, txAck, false), ptype, |data|) == Header(frame);

      var buffer := PutOctets([DELIMITER], hdr);
      buffer := PutOctets(buffer, data);
      NoTrailer(frame);
      Group(Escape(hdr), Escape(data));
      nskb := Some(buffer + [DELIMITER]);
    }

    // The part of h5_prepare_pkt that fills in the header and takes a sequence number.
    method BuildHeader(reliable: bool, ptype: nat, len: nat) returns (hdr: seq<byte>)
      requires ptype < 16 && len <= MAX_PAYLOAD
      modifies `txSeq, `txAckReq
      ensures txAckReq == false
      ensures txSeq == if reliable then Next(old(txSeq)) else old(txSeq)
      ensures var h0 := FirstOctet(reliable, if reliable then old(txSeq) else 0, txAck, false);
        hdr == HeaderOctets(h0, ptype, len)
    {
      var h0: nat := 8 * txAck;
      txAckReq := false;
      if reliable {
        h0 := h0 + 128 + txSeq;
        txSeq := Next(txSeq);
      }
      var h1 := ptype + 16 * (len % 16);
      var h2 := len / 16;
      hdr := [h0, h1, h2, 255 - (h0 + h1 + h2) % 256];
    }

    method PutOctets(start: seq<byte>, octets: seq<byte>) returns (buffer: seq<byte>)
      ensures buffer == start + Escape(octets)
    {
      hide Escape, EscapeByte;
      NothingYet();
      buffer := start;
      for i := 0 to |octets|
        invariant buffer == start + Escape(octets[..i])
      {
        assert octets[..i] + [octets[i]] == octets[..i + 1];
        EscapeOneMore(octets[..i], octets[i]);
        buffer := buffer + EscapeByte(octets[i]);
      }
      assert octets[..|octets|] == octets;
    }

    // h5_dequeue; alloc says which allocations would succeed.
    method DequeuePkt(alloc: Allocs) returns (nskb: Option<seq<byte>>)
      modifies `unrel, `rel, `unack, `timerArmed, `txSeq, `txAckReq, `sleep
      ensures var s := Dequeue(old(LinkView()), alloc);
        LinkView() == s.link && nskb == if s.frame.Some? then Some(Encode(s.frame.value)) else None
    {
      hide Encode, FrameOf;
      if sleep != Awake {
        if sleep == WakingUp {
          return None;
        }
        sleep := WakingUp;
        timerArmed := true;
        nskb := PreparePkt(LINK_PKT, WAKEUP_REQ, alloc.wakeup);
        return;
      }
      if unrel != [] {
        nskb := SendUnreliable(alloc.unrel);
        if nskb.Some? {
          return;
        }
      }
      if |unack| < txWin && rel != [] {
        nskb := SendReliable(alloc.rel);
        if nskb.Some? {
          return;
        }
      }
      if txAckReq {
        nskb := PreparePkt(ACK_PKT, [], alloc.ack);
        return;
      }
      nskb := None;
    }

    // The part of h5_dequeue for the unreliable queue; the packet goes back if it cannot be built.
    method SendUnreliable(alloc: bool) returns (nskb: Option<seq<byte>>)
      requires unrel != []
      modifies `unrel, `txSeq, `txAckReq
      ensures nskb.Some? <==> alloc
      ensures !alloc ==> LinkView() == old(LinkView())
      ensures alloc ==>
        && LinkView() == old(LinkView()).(unrel := old(unrel)[1..], ackReq := false)
        && nskb.value == Encode(FrameOf(old(txSeq), txAck, old(unrel)[0]))
    {
      hide Encode, FrameOf;
      assert unrel == [unrel[0]] + unrel[1..];
      var skb := unrel[0];
      unrel := unrel[1..];
      nskb := PreparePkt(skb.ptype, skb.data, alloc);
      if nskb.None? {
        unrel := [skb] + unrel;
      }
    }

    // The part of h5_dequeue for the window.
    method SendReliable(alloc: bool) returns (nskb: Option<seq<byte>>)
      requires rel != []
      modifies `rel, `unack, `timerArmed, `txSeq, `txAckReq
      ensures nskb.Some? <==> alloc
      ensures !alloc ==> LinkView() == old(LinkView())
      ensures alloc ==>
        && LinkView() == old(LinkView()).(rel := old(rel)[1..], unack := old(unack) + [old(rel)[0]],
             txSeq := Next(old(txSeq)), ackReq := false, timer := true)
        && nskb.value == Encode(FrameOf(old(txSeq), txAck, old(rel)[0]))
    {
      hide Encode, FrameOf;
      assert rel == [rel[0]] + rel[1..];
      var skb := rel[0];
      rel := rel[1..];
      nskb := PreparePkt(skb.ptype, skb.data, alloc);
      if nskb.Some? {
        unack := unack + [skb];
        timerArmed := true;
      } else {
        rel := [skb] + rel;
      }
    }
  }

  lemma Group(a: seq<byte>, b: seq<byte>)
    ensures [DELIMITER] + a + b + [DELIMITER] == [DELIMITER] + (a + (b + [DELIMITER]))
  {}

  lemma NothingYet()
    ensures Escape([]) == []
  {}

  lemma RunNothing(s: H5Valid)
    ensures Run(RxByte, s, []) == Out(s, [])
  {}

  lemma LengthIs(skb: seq<byte>)
    requires |skb| >= 4 && |skb| == 4 + HdrLen(skb) + if CrcFlag(skb) then 2 else 0
    ensures MessageLen(ParseOctets(skb)) == HdrLen(skb) <= |skb| - 4
  {}

  lemma ChecksumBySum(h: seq<byte>)
    requires |h| >= 4
    ensures ChecksumOk(h) <==>
      (h[0] as int + h[1] as int + h[2] as int + h[3] as int) % 256 == 0xff
  {}

  /** One turn of the receive loop. */

  datatype Move = Move(st: H5Valid, outs: seq<Up>, used: bool)

  function Micro(s: H5Valid, c: byte): Move {
    if s.rx.pending > 0 then
      if c == DELIMITER then Move(Reset(s), [], false) else Move(Unslip(s, c), [], true)
    else if s.rx.phase == Delimiter then
      Move(if c == DELIMITER then AtStart(s.link) else s, [], true)
    else if s.rx.phase == PktStart then
      if c == DELIMITER then Move(s, [], true) else Move(FreshHeader(s.link), [], false)
    else EndOfStage(s)
  }

  function HeaderMove(s: H5Valid): H5Valid
    requires s.rx.phase == Header3Wire && s.rx.pending == 0
  {
    if ChecksumOk(s.rx.skb) && Accepts(s.link, ParseOctets(s.rx.skb)) then
      s.(rx := s.rx.(phase := Payload, pending := HdrLen(s.rx.skb)))
    else Reset(s)
  }

  function EndOfStage(s: H5Valid): (m: Move)
    requires !Settled(s)
    ensures !m.used
  {
    if s.rx.phase == Header3Wire then Move(HeaderMove(s), [], false)
    else if s.rx.phase == Payload && CrcFlag(s.rx.skb) then
      Move(s.(rx := s.rx.(phase := Crc, pending := 2)), [], false)
    else Move(Complete(s).st, Complete(s).outs, false)
  }

  // The loop's turns add up to the octet-at-a-time receiver.
  lemma MicroIsSound(done: seq<Up>, s: H5Valid, rest: seq<byte>)
    requires rest != []
    ensures var m := Micro(s, rest[0]);
      Continue(RxByte, done, s, rest) ==
      Continue(RxByte, done + m.outs, m.st, if m.used then rest[1..] else rest)
  {
    MicroIsByte(s, rest[0]);
    hide Micro, RxByte, Run;
    var m := Micro(s, rest[0]);
    if m.used {
      Advance(RxByte, done, s, rest);
    } else {
      Shift(RxByte, done, s, rest, m.st, m.outs);
    }
  }

  lemma MicroSettles(s: H5Valid, c: byte)
    requires !Settled(s)
    ensures var m := Micro(s, c);
      !m.used && Settle(s) == Out(Settle(m.st).st, m.outs + Settle(m.st).outs)
  {
    hide ChecksumOk, CrcFlag, HdrLen, Accepts, Complete;
  }

  lemma MicroIsByte(s: H5Valid, c: byte)
    ensures var m := Micro(s, c);
      if m.used then m.outs == [] && RxByte(s, c) == Out(m.st, [])
      else RxByte(s, c) == Out(RxByte(m.st, c).st, m.outs + RxByte(m.st, c).outs)
  {
    hide Unslip, SettleHeader, SettlePayload, Complete;
    if !Settled(s) {
      MicroSettles(s, c);
    }
  }

  // The transitions that consume nothing can follow one another only so often.
  function Rank(phase: Phase, pending: nat): nat {
    if pending > 0 then 1
    else match phase
      case Delimiter => 0
      case PktStart => 2
      case Crc => 2
      case Payload => 3
      case Header3Wire => 4
  }

  lemma MicroProgress(s: H5Valid, c: byte)
    ensures var m := Micro(s, c);
      m.used || Rank(m.st.rx.phase, m.st.rx.pending) < Rank(s.rx.phase, s.rx.pending)
  {
    hide Unslip, CompleteRx;
  }
}
