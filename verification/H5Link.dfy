// The Three-wire (H5) link: the sliding window, link establishment and sleep, as functions on
// values. Sections 6 and 8 of the Three-wire UART Transport Layer, Bluetooth Core Specification
// Volume 4 Part D. Source: drivers/blue8852be/hci_h5.c, lines 125-210, 284-423 and 599-796.
module H5Link {
  import opened Bytes
  import opened Framing
  import opened GoBackN

  // Packet types, as they stand in the header.
  const ACK_PKT: nat := 0
  const COMMAND_PKT: nat := 1
  const ACLDATA_PKT: nat := 2
  const SCODATA_PKT: nat := 3
  const EVENT_PKT: nat := 4
  const ISODATA_PKT: nat := 5
  const LINK_PKT: nat := 15

  const TX_WIN_MAX: Seq8 := 4

  datatype Skb = Skb(ptype: nat, data: seq<byte>)

  type RelSkb = s: Skb | s.ptype in {ACLDATA_PKT, COMMAND_PKT} && |s.data| <= MAX_PAYLOAD
    witness Skb(ACLDATA_PKT, [])
  type UnrelSkb = s: Skb | s.ptype in {SCODATA_PKT, ISODATA_PKT, LINK_PKT} && |s.data| <= MAX_PAYLOAD
    witness Skb(LINK_PKT, [])

  datatype LinkState = Uninitialized | Initialized | Active

  datatype Sleep = Awake | Sleeping | WakingUp

  datatype Link = Link(unack: seq<RelSkb>, rel: seq<RelSkb>, unrel: seq<UnrelSkb>,
                       txSeq: Seq8, txAck: Seq8, rxAck: Seq8, txWin: Seq8,
                       state: LinkState, sleep: Sleep, ackReq: bool, timer: bool)

  const SYNC_REQ: seq<byte> := [0x01, 0x7e]
  const SYNC_RSP: seq<byte> := [0x02, 0x7d]
  const CONF_REQ: seq<byte> := [0x03, 0xfc]
  const CONF_RSP: seq<byte> := [0x04, 0x7b]
  const WAKEUP_REQ: seq<byte> := [0x05, 0xfa]
  const WOKEN_REQ: seq<byte> := [0x06, 0xf9]
  const SLEEP_REQ: seq<byte> := [0x07, 0x78]

  // h5_link_control
  function LinkControl(l: Link, data: seq<byte>): Link
    requires |data| <= MAX_PAYLOAD
  {
    l.(unrel := l.unrel + [Skb(LINK_PKT, data)])
  }

  // A configuration request carries the window in its first field.
  function ConfReq(l: Link): seq<byte> { CONF_REQ + [l.txWin] }

  // h5_open
  const OPENED: Link :=
    Link([], [], [Skb(LINK_PKT, SYNC_REQ)], 0, 0, 0, TX_WIN_MAX, Uninitialized, Awake, false, true)

  /** Sending. */

  // h5_enqueue
  function Enqueue(l: Link, skb: Skb): Link {
    if |skb.data| > MAX_PAYLOAD || l.state != Active then l
    else if skb.ptype in {ACLDATA_PKT, COMMAND_PKT} then l.(rel := l.rel + [skb])
    else if skb.ptype in {SCODATA_PKT, ISODATA_PKT} then l.(unrel := l.unrel + [skb])
    else l
  }

  predicate Reliable(ptype: nat) { ptype in {ACLDATA_PKT, COMMAND_PKT} }

  function FrameOf(txSeq: Seq8, txAck: Seq8, skb: Skb): (f: GoodFrame)
    requires |skb.data| <= MAX_PAYLOAD && skb.ptype < 16
  {
    var rel := Reliable(skb.ptype);
    Frame(rel, if rel then txSeq else 0, txAck, false, skb.ptype, skb.data)
  }

  // Which of the allocations a dequeue may try succeed.
  datatype Allocs = Allocs(wakeup: bool, unrel: bool, rel: bool, ack: bool)

  datatype Sent = Sent(link: Link, frame: Option<GoodFrame>)

  // h5_prepare_pkt for a packet that takes no sequence number.
  function SendPlain(l: Link, skb: Skb, alloc: bool): Sent
    requires |skb.data| <= MAX_PAYLOAD && skb.ptype < 16 && !Reliable(skb.ptype)
  {
    if alloc then Sent(l.(ackReq := false), Some(FrameOf(l.txSeq, l.txAck, skb))) else Sent(l, None)
  }

  // h5_dequeue
  function Dequeue(l: Link, alloc: Allocs): Sent {
    if l.sleep == WakingUp then Sent(l, None)
    else if l.sleep == Sleeping then
      SendPlain(l.(sleep := WakingUp, timer := true), Skb(LINK_PKT, WAKEUP_REQ), alloc.wakeup)
    else if l.unrel != [] && alloc.unrel then
      SendPlain(l.(unrel := l.unrel[1..]), l.unrel[0], true)
    else if |l.unack| < l.txWin && l.rel != [] && alloc.rel then
      Sent(l.(rel := l.rel[1..], unack := l.unack + [l.rel[0]], txSeq := Next(l.txSeq),
              ackReq := false, timer := true),
           Some(FrameOf(l.txSeq, l.txAck, l.rel[0])))
    else if l.ackReq then SendPlain(l, Skb(ACK_PKT, []), alloc.ack)
    else Sent(l, None)
  }

  // h5_timed_event
  function Timeout(l: Link): Link {
    if l.state == Uninitialized then LinkControl(l.(timer := true), SYNC_REQ)
    else if l.state == Initialized then LinkControl(l.(timer := true), ConfReq(l))
    else if l.sleep != Awake then l.(sleep := Sleeping, timer := false)
    else l.(unack := [], rel := l.unack + l.rel, txSeq := (l.txSeq - |l.unack|) % 8, timer := false)
  }

  /** Receiving. */

  // h5_pkt_cull: with nothing outstanding the timer is left alone.
  function Cull(l: Link): Link {
    var unack := l.unack[CullCount(|l.unack|, l.txSeq, l.rxAck)..];
    l.(unack := unack, timer := l.timer && (l.unack == [] || unack != []))
  }

  // h5_peer_reset
  function PeerReset(l: Link): Link {
    l.(state := Uninitialized, timer := false, rel := [], unrel := [], unack := [], txSeq := 0, txAck := 0)
  }

  function ResetIfActive(l: Link): Link { if l.state == Active then PeerReset(l) else l }

  predicate StartsWith(data: seq<byte>, msg: seq<byte>) { msg <= data }

  // h5_handle_internal_rx on a link control message of len octets.
  function HandleLink(l: Link, data: seq<byte>, len: nat): Link
    requires len <= |data|
  {
    if len < 2 then l
    else if StartsWith(data, SYNC_REQ) then LinkControl(ResetIfActive(l), SYNC_RSP)
    else if StartsWith(data, SYNC_RSP) then LinkControl(ResetIfActive(l).(state := Initialized), ConfReq(l))
    else if StartsWith(data, CONF_REQ) then LinkControl(LinkControl(l, CONF_RSP), ConfReq(l))
    else if StartsWith(data, CONF_RSP) then
      l.(txWin := if len > 2 then data[2] % 8 else l.txWin, state := Active)
    else if StartsWith(data, SLEEP_REQ) then l.(sleep := Sleeping)
    else if StartsWith(data, WOKEN_REQ) then l.(sleep := Awake)
    else if StartsWith(data, WAKEUP_REQ) then LinkControl(l, WOKEN_REQ).(sleep := Awake)
    else l
  }

  datatype Up = Up(ptype: nat, data: seq<byte>)

  datatype Received = Received(link: Link, up: Option<Up>)

  predicate PassedUp(ptype: nat) { ptype in {EVENT_PKT, ACLDATA_PKT, SCODATA_PKT, ISODATA_PKT} }

  // The two CRC octets, when there are any, stay at the end of what follows the header.
  function MessageLen(f: Frame): nat {
    if f.crc && |f.payload| >= 2 then |f.payload| - 2 else |f.payload|
  }

  // The decision taken once the header is complete.
  predicate Accepts(l: Link, f: Frame) {
    (f.rel ==> f.seqno == l.txAck) && (l.state == Active || f.chan == LINK_PKT)
  }

  // h5_complete_rx_pkt, for a packet whose header was accepted.
  function CompleteRx(l: Link, f: Frame): Received
    requires f.ack < 8
  {
    var l1 := if f.rel then l.(txAck := Next(l.txAck), ackReq := true) else l;
    var l2 := Cull(l1.(rxAck := f.ack));
    if PassedUp(f.chan) then Received(l2, Some(Up(f.chan, f.payload)))
    else Received(if f.chan == LINK_PKT then HandleLink(l2, f.payload, MessageLen(f)) else l2, None)
  }

  // A whole frame: dropped at the header, or completed.
  function TakeFrame(l: Link, f: Frame): Received
    requires f.ack < 8
  {
    if Accepts(l, f) then CompleteRx(l, f) else Received(l, None)
  }

  /** Link establishment. */

  // Outside an active session nothing reliable is queued and numbering starts at zero; the
  // window never lets more than seven packets out.
  ghost predicate LinkOk(l: Link) {
    && (l.state != Active ==> l.rel == [] && l.unack == [] && l.txSeq == 0)
    && |l.unack| <= 7
  }

  lemma EnqueueKeeps(l: Link, skb: Skb)
    requires LinkOk(l)
    ensures LinkOk(Enqueue(l, skb))
    ensures l.state != Active ==> Enqueue(l, skb) == l
  {}

  lemma DequeueKeeps(l: Link, alloc: Allocs)
    requires LinkOk(l)
    ensures LinkOk(Dequeue(l, alloc).link)
    ensures var f := Dequeue(l, alloc).frame; f.Some? && f.value.rel ==> l.state == Active
  {}

  lemma TimeoutKeeps(l: Link)
    requires LinkOk(l)
    ensures LinkOk(Timeout(l))
  {}

  lemma HandleLinkKeeps(l: Link, data: seq<byte>, len: nat)
    requires LinkOk(l) && len <= |data|
    ensures LinkOk(HandleLink(l, data, len))
  {}

  lemma TakeFrameKeeps(l: Link, f: Frame)
    requires LinkOk(l) && f.ack < 8
    ensures LinkOk(TakeFrame(l, f).link)
    ensures TakeFrame(l, f).up.Some? ==> l.state == Active
  {
    hide CullCount, HandleLink;
    var l2 := Cull((if f.rel then l.(txAck := Next(l.txAck), ackReq := true) else l).(rxAck := f.ack));
    HandleLinkKeeps(l2, f.payload, MessageLen(f));
  }

  // A synchronisation message in an active session ends it cleanly: nothing but the answer is
  // left to send, and both numbers start over.
  lemma SyncStartsOver(l: Link, f: Frame)
    requires LinkOk(l) && l.state == Active && f.ack < 8 && Accepts(l, f)
    requires f.chan == LINK_PKT && MessageLen(f) >= 2
    requires StartsWith(f.payload, SYNC_REQ) || StartsWith(f.payload, SYNC_RSP)
    ensures var n := TakeFrame(l, f).link;
      && n.rel == [] && n.unack == [] && n.txSeq == 0 && n.txAck == 0
      && (StartsWith(f.payload, SYNC_REQ) ==> n.state == Uninitialized && n.unrel == [Skb(LINK_PKT, SYNC_RSP)])
      && (StartsWith(f.payload, SYNC_RSP) ==> n.state == Initialized && n.unrel == [Skb(LINK_PKT, ConfReq(l))])
  {
    hide CullCount;
    assert SYNC_REQ[0] != SYNC_RSP[0];
  }
}
