// The reliable link of BCSP: queues, sequence numbers, acknowledgements and the
// retransmission timer, as functions on values.
// Source: drivers/blue8852be/hci_bcsp.c, lines 134-210, 270-423, 474-572 and 688-708.
module BcspLink {
  import opened Bytes
  import opened Framing
  import opened GoBackN

  const TX_WINDOW: nat := 4

  datatype PktType = Command | AclData | ScoData | Event | BcspAck | BcspLe | Unknown(code: nat)

  datatype Skb = Skb(kind: PktType, data: seq<byte>)

  // What the queues can hold: enqueue turns everything else away.
  type RelSkb = s: Skb | s.kind in {AclData, Command} && |s.data| <= MAX_PAYLOAD
    witness Skb(AclData, [])
  type UnrelSkb = s: Skb | s.kind in {ScoData, BcspLe} && |s.data| <= MAX_PAYLOAD
    witness Skb(ScoData, [])

  datatype Config = Config(useCrc: bool, hciextn: bool)

  datatype Link = Link(cfg: Config, unack: seq<RelSkb>, rel: seq<RelSkb>, unrel: seq<UnrelSkb>,
                       txseq: Seq8, txack: Seq8, rxack: Seq8, ackReq: bool, timer: bool)

  function Opened(cfg: Config): Link {
    Link(cfg, [], [], [], 0, 0, 0, false, false)
  }

  /** Sending. */

  // bcsp_enqueue
  function Enqueue(l: Link, skb: Skb): Link {
    if |skb.data| > MAX_PAYLOAD then l
    else if skb.kind in {AclData, Command} then l.(rel := l.rel + [skb])
    else if skb.kind == ScoData then l.(unrel := l.unrel + [skb])
    else l
  }

  // A packet on the wire, once the channel is chosen.
  datatype Wire = Wire(chan: nat, payload: seq<byte>)

  function Channel(kind: PktType): nat {
    match kind
    case AclData => 6
    case Command => 5
    case ScoData => 7
    case BcspLe => 1
    case _ => 0
  }

  // A vendor command whose descriptor octet names a channel is sent on that channel, unwrapped.
  predicate IsExtension(skb: Skb, hciextn: bool) {
    && hciextn && skb.kind == Command && |skb.data| >= 4
    && skb.data[1] / 4 == 0x3f && skb.data[3] / 16 == 0xc
  }

  function WireOf(skb: Skb, hciextn: bool): (w: Wire)
    ensures w.chan < 16 && |w.payload| <= |skb.data|
  {
    if IsExtension(skb, hciextn) then Wire(skb.data[3] % 16, skb.data[4..])
    else Wire(Channel(skb.kind), skb.data)
  }

  predicate Reliable(kind: PktType) { kind in {AclData, Command} }

  function FrameOf(cfg: Config, txseq: Seq8, txack: Seq8, skb: Skb): (f: GoodFrame)
    requires |skb.data| <= MAX_PAYLOAD
  {
    var w := WireOf(skb, cfg.hciextn);
    var rel := Reliable(skb.kind);
    Frame(rel, if rel then txseq else 0, txack, cfg.useCrc, w.chan, w.payload)
  }

  // Which of the allocations a dequeue may try succeed.
  datatype Allocs = Allocs(unrel: bool, rel: bool, ack: bool)

  const ACK_SKB := Skb(BcspAck, [])

  datatype Sent = Sent(link: Link, frame: Option<GoodFrame>)

  // bcsp_dequeue: unreliable packets first, then the window, then a bare acknowledgement.
  function Dequeue(l: Link, alloc: Allocs): Sent {
    if l.unrel != [] && alloc.unrel then
      Sent(l.(unrel := l.unrel[1..], ackReq := false), Some(FrameOf(l.cfg, l.txseq, l.txack, l.unrel[0])))
    else if |l.unack| < TX_WINDOW && l.rel != [] && alloc.rel then
      Sent(l.(rel := l.rel[1..], unack := l.unack + [l.rel[0]], txseq := Next(l.txseq),
              ackReq := false, timer := true),
           Some(FrameOf(l.cfg, l.txseq, l.txack, l.rel[0])))
    else if l.ackReq && alloc.ack then
      Sent(l.(ackReq := false), Some(FrameOf(l.cfg, l.txseq, l.txack, ACK_SKB)))
    else Sent(l, None)
  }

  // bcsp_timed_event: everything sent but not acknowledged goes back to the front of the queue.
  function Timeout(l: Link): Link {
    l.(unack := [], rel := l.unack + l.rel, txseq := (l.txseq - |l.unack|) % 8, timer := false)
  }

  /** Acknowledgements. */

  // bcsp_pkt_cull
  function Cull(l: Link): Link {
    var unack := l.unack[CullCount(|l.unack|, l.txseq, l.rxack)..];
    l.(unack := unack, timer := l.timer && unack != [])
  }

  /** Receiving. */

  datatype Up = Up(kind: PktType, data: seq<byte>)

  // What reaches the HCI layer from a packet that is in order or unreliable.
  function UpOf(rel: bool, w: Wire, hciextn: bool): Option<Up>
    requires w.chan < 16
  {
    if w.chan == 6 && rel then Some(Up(AclData, w.payload))
    else if w.chan == 5 && rel then Some(Up(Event, w.payload))
    else if w.chan == 7 then Some(Up(ScoData, w.payload))
    else if w.chan == 0 || w.chan == 1 || !hciextn then None
    else Some(Up(Event, [0xff, (|w.payload| + 1) % 256, 0xc0 + w.chan] + w.payload))
  }

  const CONF_PKT: seq<byte> := [0xad, 0xef, 0xac, 0xed]
  const CONF_RSP_PKT: seq<byte> := [0xde, 0xad, 0xd0, 0xd0]

  // bcsp_handle_le_pkt
  function HandleLe(l: Link, payload: seq<byte>): Link {
    if payload == CONF_PKT then l.(unrel := [Skb(BcspLe, CONF_RSP_PKT)] + l.unrel) else l
  }

  datatype Received = Received(link: Link, up: Option<Up>)

  predicate InOrder(l: Link, f: Frame) { f.seqno == l.txack }

  // A reliable packet in order advances the expected number; every reliable packet is acknowledged.
  function TakeSequence(l: Link, f: Frame): Link {
    if !f.rel then l
    else if InOrder(l, f) then l.(txack := Next(l.txack), ackReq := true)
    else l.(ackReq := true)
  }

  // bcsp_complete_rx_pkt
  function CompleteRx(l: Link, f: Frame): Received
    requires f.WellFormed()
  {
    var l2 := Cull(TakeSequence(l, f).(rxack := f.ack));
    if f.rel && !InOrder(l, f) then Received(l2, None)
    else
      Received(if f.chan == 1 && !f.rel then HandleLe(l2, f.payload) else l2,
               UpOf(f.rel, Wire(f.chan, f.payload), l.cfg.hciextn))
  }
}
