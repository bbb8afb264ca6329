// The numbers and octets of Three-wire, spelled out: which packets reach the HCI layer, how each
// link control message is answered, and what is queued and sent.
// Source: drivers/blue8852be/hci_h5.c, lines 147-210, 326-423, 447-510 and 599-796.
module H5Wire {
  import opened Bytes
  import opened Framing
  import opened GoBackN
  import opened H5Link

  /** Which packets reach the HCI layer. */

  // A frame is looked at if it is in order where it is reliable, and the link is active or the
  // frame is link control; otherwise it changes nothing.
  predicate LookedAt(l: Link, f: Frame) {
    (f.rel ==> f.seqno == l.txAck) && (l.state == Active || f.chan == 15)
  }

  // Of those, exactly the packet types 2 (ACL), 3 (SCO), 4 (event) and 5 (ISO) are handed up,
  // under their own type and with everything behind the header.
  lemma HandedUpExactly(l: Link, f: Frame)
    requires f.ack < 8
    ensures TakeFrame(l, f).up ==
      if LookedAt(l, f) && (f.chan == 2 || f.chan == 3 || f.chan == 4 || f.chan == 5)
      then Some(Up(f.chan, f.payload)) else None
    ensures !LookedAt(l, f) ==> TakeFrame(l, f).link == l
  {
    hide CullCount, HandleLink;
  }

  // Every reliable frame that is looked at asks for an acknowledgement and moves the number on;
  // every frame that is looked at brings its acknowledge number.
  lemma Numbers(l: Link, f: Frame)
    requires f.ack < 8 && LookedAt(l, f) && f.chan != 15
    ensures var n := TakeFrame(l, f).link;
      && n.txAck == (if f.rel then (l.txAck + 1) % 8 else l.txAck) && n.ackReq == (f.rel || l.ackReq)
      && n.rxAck == f.ack && n.rel == l.rel && n.unrel == l.unrel && n.txSeq == l.txSeq
      && n.state == l.state && n.sleep == l.sleep && n.txWin == l.txWin
  {
    hide CullCount, HandleLink;
  }

  /** Link control. */

  // The window, as the third octet of a configuration request.
  function Window(l: Link): byte { l.txWin }

  lemma RequestIs(l: Link)
    ensures ConfReq(l) == [0x03, 0xfc, Window(l)]
  {}

  lemma PairIs(data: seq<byte>, x: byte, y: byte)
    requires |data| >= 2
    ensures [x, y] <= data <==> data[0] == x && data[1] == y
  {
    assert [x, y] == data[..2] <==> data[0] == x && data[1] == y;
  }

  lemma Pairs(data: seq<byte>)
    requires |data| >= 2
    ensures StartsWith(data, SYNC_REQ) <==> data[0] == 0x01 && data[1] == 0x7e
    ensures StartsWith(data, SYNC_RSP) <==> data[0] == 0x02 && data[1] == 0x7d
    ensures StartsWith(data, CONF_REQ) <==> data[0] == 0x03 && data[1] == 0xfc
    ensures StartsWith(data, CONF_RSP) <==> data[0] == 0x04 && data[1] == 0x7b
    ensures StartsWith(data, WAKEUP_REQ) <==> data[0] == 0x05 && data[1] == 0xfa
    ensures StartsWith(data, WOKEN_REQ) <==> data[0] == 0x06 && data[1] == 0xf9
    ensures StartsWith(data, SLEEP_REQ) <==> data[0] == 0x07 && data[1] == 0x78
  {
    PairIs(data, 0x01, 0x7e);
    PairIs(data, 0x02, 0x7d);
    PairIs(data, 0x03, 0xfc);
    PairIs(data, 0x04, 0x7b);
    PairIs(data, 0x05, 0xfa);
    PairIs(data, 0x06, 0xf9);
    PairIs(data, 0x07, 0x78);
  }

  // What is queued and how the link stands after each message.
  lemma Answers(l: Link, data: seq<byte>, len: nat)
    requires 2 <= len <= |data|
    ensures var n := HandleLink(l, data, len);
      var kept := if l.state == Active then [] else l.unrel;
      && (data[..2] == [0x01, 0x7e] ==>
          && n.unrel == kept + [Skb(15, [0x02, 0x7d])]
          && n.state == if l.state == Active then Uninitialized else l.state)
      && (data[..2] == [0x02, 0x7d] ==>
          n.unrel == kept + [Skb(15, [0x03, 0xfc, Window(l)])] && n.state == Initialized)
      && (data[..2] == [0x03, 0xfc] ==>
          n == l.(unrel := l.unrel + [Skb(15, [0x04, 0x7b]), Skb(15, [0x03, 0xfc, Window(l)])]))
      && (data[..2] == [0x04, 0x7b] ==>
          n == l.(txWin := if len > 2 then data[2] % 8 else l.txWin, state := Active))
      && (data[..2] == [0x05, 0xfa] ==>
          n == l.(unrel := l.unrel + [Skb(15, [0x06, 0xf9])], sleep := Awake))
      && (data[..2] == [0x06, 0xf9] ==> n == l.(sleep := Awake))
      && (data[..2] == [0x07, 0x78] ==> n == l.(sleep := Sleeping))
  {
    Pairs(data);
    RequestIs(l);
    RequestIs(ResetIfActive(l).(state := Initialized));
    assert data[..2] == [data[0], data[1]];
    assert l.unrel + [Skb(15, [0x04, 0x7b])] + [Skb(15, [0x03, 0xfc, Window(l)])]
      == l.unrel + [Skb(15, [0x04, 0x7b]), Skb(15, [0x03, 0xfc, Window(l)])];
  }

  // Anything else, and anything shorter, is ignored.
  lemma OthersIgnored(l: Link, data: seq<byte>, len: nat)
    requires len <= |data|
    requires len < 2 || data[..2] !in
      {[0x01, 0x7e], [0x02, 0x7d], [0x03, 0xfc], [0x04, 0x7b], [0x05, 0xfa], [0x06, 0xf9], [0x07, 0x78]}
    ensures HandleLink(l, data, len) == l
  {
    if len >= 2 {
      Pairs(data);
      assert data[..2] == [data[0], data[1]];
    }
    hide StartsWith;
  }

  // A frame of link control that is looked at hands its payload to link control, without the
  // two octets of a CRC.
  lemma LinkFrameAnswered(l: Link, f: Frame)
    requires f.ack < 8 && f.chan == 15 && !f.rel
    ensures exists seen: Link ::
      && seen == l.(rxAck := f.ack, unack := seen.unack, timer := seen.timer)
      && TakeFrame(l, f).link
         == HandleLink(seen, f.payload, if f.crc && |f.payload| >= 2 then |f.payload| - 2 else |f.payload|)
  {
    hide CullCount, HandleLink;
    var seen := Cull(l.(rxAck := f.ack));
    assert seen == l.(rxAck := f.ack, unack := seen.unack, timer := seen.timer);
  }

  /** What is queued and sent. */

  // Only an active link takes packets, of up to 4095 octets: commands (1) and ACL data (2)
  // behind the reliable packets, SCO (3) and ISO (5) data behind the unreliable ones.
  lemma Queued(l: Link, ptype: nat, data: seq<byte>)
    ensures l.state == Active && |data| <= 4095 && ptype in {1, 2} ==>
      Enqueue(l, Skb(ptype, data)) == l.(rel := l.rel + [Skb(ptype, data)])
    ensures l.state == Active && |data| <= 4095 && ptype in {3, 5} ==>
      Enqueue(l, Skb(ptype, data)) == l.(unrel := l.unrel + [Skb(ptype, data)])
    ensures l.state != Active || |data| > 4095 || ptype !in {1, 2, 3, 5} ==> Enqueue(l, Skb(ptype, data)) == l
  {}

  // The packet type stands in the header; commands and ACL data are reliable; nothing is sent
  // with a CRC.
  lemma WireTypes(txSeq: Seq8, txAck: Seq8, ptype: nat, data: seq<byte>)
    requires |data| <= 4095 && ptype < 16
    ensures FrameOf(txSeq, txAck, Skb(ptype, data)) ==
      Frame(ptype == 1 || ptype == 2, if ptype == 1 || ptype == 2 then txSeq else 0, txAck, false, ptype, data)
  {}

  // When every allocation succeeds: a sleeping peer is woken before anything else, and nothing is
  // sent until it is awake; then the oldest unreliable packet, else the oldest reliable one while
  // the window has room, else a bare acknowledgement if one is owed.
  lemma SentNext(l: Link)
    ensures var s := Dequeue(l, Allocs(true, true, true, true));
      && (l.sleep == WakingUp ==> s == Sent(l, None))
      && (l.sleep == Sleeping ==>
          && s.frame == Some(Frame(false, 0, l.txAck, false, 15, [0x05, 0xfa]))
          && s.link == l.(sleep := WakingUp, timer := true, ackReq := false))
      && (l.sleep == Awake && l.unrel != [] ==>
          && s.frame == Some(Frame(false, 0, l.txAck, false, l.unrel[0].ptype, l.unrel[0].data))
          && s.link == l.(unrel := l.unrel[1..], ackReq := false))
      && (l.sleep == Awake && l.unrel == [] && l.rel != [] && |l.unack| < l.txWin ==>
          && s.frame == Some(Frame(true, l.txSeq, l.txAck, false, l.rel[0].ptype, l.rel[0].data))
          && s.link == l.(rel := l.rel[1..], unack := l.unack + [l.rel[0]], txSeq := (l.txSeq + 1) % 8,
                          ackReq := false, timer := true))
      && (l.sleep == Awake && l.unrel == [] && (l.rel == [] || |l.unack| >= l.txWin) ==>
          && s.frame == (if l.ackReq then Some(Frame(false, 0, l.txAck, false, 0, [])) else None)
          && s.link == l.(ackReq := false))
  {}

  // While the link is coming up the timer repeats the request and stays armed; in a session it
  // gives up waking a peer, or puts everything outstanding back.
  lemma TimerFires(l: Link)
    ensures l.state == Uninitialized ==>
      Timeout(l) == l.(unrel := l.unrel + [Skb(15, [0x01, 0x7e])], timer := true)
    ensures l.state == Initialized ==>
      Timeout(l) == l.(unrel := l.unrel + [Skb(15, [0x03, 0xfc, Window(l)])], timer := true)
    ensures l.state == Active && l.sleep != Awake ==> Timeout(l) == l.(sleep := Sleeping, timer := false)
    ensures l.state == Active && l.sleep == Awake ==>
      Timeout(l) == l.(unack := [], rel := l.unack + l.rel, txSeq := (l.txSeq - |l.unack|) % 8, timer := false)
  {
    RequestIs(l);
  }
}
