// The octets of the packet format and the numbers of BCSP, spelled out: what a header says, how
// octets are escaped, which channel carries what, and what every packet does to the link and
// hands to the HCI layer.
// Source: drivers/blue8852be/hci_bcsp.c, lines 110-315, 347-424, 425-572 and 604-650;
// drivers/blue8852be/hci_h5.c, lines 42-53 and 641-735, for the format.
module BcspWire {
  import opened Bytes
  import opened Crc
  import opened Framing
  import opened GoBackN
  import opened BcspLink
  import opened BcspCodec

  /** The packet format. */

  lemma LengthDigits(n: nat)
    requires n <= 4095
    ensures n / 16 < 256 && n % 16 + 16 * (n / 16) == n
  {}

  // A length of twelve bits: four in the high half of one octet, eight in the next.
  function Length(x: nat, y: nat): nat { x / 16 + 16 * y }

  function Sum(h: seq<byte>): nat
    requires |h| >= 4
  {
    var a: nat, b: nat, c: nat, d: nat := h[0], h[1], h[2], h[3];
    a + b + c + d
  }

  // The four header octets: sequence and acknowledge number, CRC and reliable flags, channel,
  // length, and a checksum that makes the octets add up to 255.
  lemma HeaderBits(f: GoodFrame)
    ensures var h := Header(f);
      && |h| == 4
      && h[0] % 8 == (if f.rel then f.seqno else 0) && h[0] / 8 % 8 == f.ack
      && (h[0] / 64 % 2 == 1 <==> f.crc) && (h[0] / 128 == 1 <==> f.rel)
      && h[1] % 16 == f.chan && Length(h[1], h[2]) == |f.payload|
      && Sum(h) % 256 == 255
  {
    var h := Header(f);
    HeaderIs(f);
    FirstOctetBits(f.rel, f.seqno, f.ack, f.crc);
    LengthBits(|f.payload|, f.chan);
    ChecksumAddsUp(h);
    hide Checksum, FirstOctet, Sum, Header, Length;
  }

  lemma HeaderIs(f: GoodFrame)
    ensures var h := Header(f);
      && h[0] == FirstOctet(f.rel, f.seqno, f.ack, f.crc)
      && h[1] == 16 * (|f.payload| % 16) + f.chan && h[2] == |f.payload| / 16
      && h[3] == Checksum(h[0], h[1], h[2])
  {
    hide Checksum, FirstOctet;
  }

  lemma LengthBits(n: nat, chan: nat)
    requires n <= 4095 && chan < 16
    ensures (16 * (n % 16) + chan) % 16 == chan && Length(16 * (n % 16) + chan, n / 16) == n
  {
    LengthDigits(n);
  }

  lemma FirstOctetBits(rel: bool, seqno: nat, ack: nat, crc: bool)
    requires seqno < 8 && ack < 8
    ensures var h := FirstOctet(rel, seqno, ack, crc);
      && h % 8 == (if rel then seqno else 0) && h / 8 % 8 == ack
      && (h / 64 % 2 == 1 <==> crc) && (h / 128 == 1 <==> rel)
  {}

  lemma ChecksumAddsUp(h: seq<byte>)
    requires |h| >= 4
    ensures Checksum(h[0], h[1], h[2]) == h[3] <==> Sum(h) % 256 == 255
  {
    var t: nat := Sum(h) - h[3];
    assert t % 256 < 256 && (t % 256 + h[3]) % 256 == Sum(h) % 256;
  }

  // Header, payload and trailer between two delimiters, escaped octet by octet.
  lemma PacketOctets(f: GoodFrame)
    ensures Encode(f) == [0xc0] + Escape(Raw(f)) + [0xc0]
    ensures !f.crc ==> Raw(f) == Header(f) + f.payload
    ensures f.crc ==> Raw(f) == Header(f) + f.payload + CrcTrailer(CrcOf(0xffff, Header(f) + f.payload))
  {}

  lemma EscapeOctets(s: seq<byte>, b: byte)
    ensures Escape([]) == []
    ensures Escape(s + [0xc0]) == Escape(s) + [0xdb, 0xdc]
    ensures Escape(s + [0xdb]) == Escape(s) + [0xdb, 0xdd]
    ensures b != 0xc0 && b != 0xdb ==> Escape(s + [b]) == Escape(s) + [b]
  {
    EscapeOneMore(s, 0xc0);
    EscapeOneMore(s, 0xdb);
    EscapeOneMore(s, b);
    hide Escape;
  }

  // An escape followed by anything but the two codes drops the packet up to the next delimiter.
  lemma BadEscapeDrops(rx: RxValid, b: byte)
    requires rx.count > 0 && rx.esc && b !in {0xc0, 0xdc, 0xdd}
    ensures var out := RxByte(rx, b);
      out.outs == [] && out.st.phase == W4PktDelimiter && out.st.count == 0 && out.st.skb == []
  {}

  // A header whose octets do not add up to 255 drops the packet, before its payload is read.
  lemma BadChecksumDrops(rx: RxValid, b: byte)
    requires rx.phase == W4BcspHdr && rx.count == 0
    requires Sum(rx.skb) % 256 != 255
    ensures var out := RxByte(rx, b);
      && out.outs == [] && out.st.count == 0 && out.st.skb == []
      && out.st.phase == if b == 0xc0 then W4PktStart else W4PktDelimiter
  {
    ChecksumAddsUp(rx.skb);
    hide Checksum, Sum;
  }

  /** Which channel carries what. */

  lemma WireChannels(cfg: Config, txseq: Seq8, txack: Seq8, data: seq<byte>)
    requires |data| <= 4095
    ensures FrameOf(cfg, txseq, txack, Skb(AclData, data)) == Frame(true, txseq, txack, cfg.useCrc, 6, data)
    ensures FrameOf(cfg, txseq, txack, Skb(ScoData, data)) == Frame(false, 0, txack, cfg.useCrc, 7, data)
    ensures FrameOf(cfg, txseq, txack, Skb(BcspLe, data)) == Frame(false, 0, txack, cfg.useCrc, 1, data)
    ensures FrameOf(cfg, txseq, txack, Skb(BcspAck, [])) == Frame(false, 0, txack, cfg.useCrc, 0, [])
  {}

  // A command goes on channel 5, unless extensions are enabled and it is a vendor command whose
  // descriptor octet is 0xc0 to 0xcf: then what is behind the descriptor goes on that channel.
  lemma WireCommands(cfg: Config, txseq: Seq8, txack: Seq8, data: seq<byte>)
    requires |data| <= 4095
    ensures cfg.hciextn && |data| >= 4 && 0xfc <= data[1] && 0xc0 <= data[3] < 0xd0 ==>
      FrameOf(cfg, txseq, txack, Skb(Command, data)) == Frame(true, txseq, txack, cfg.useCrc, data[3] - 0xc0, data[4..])
    ensures !(cfg.hciextn && |data| >= 4 && 0xfc <= data[1] && 0xc0 <= data[3] < 0xd0) ==>
      FrameOf(cfg, txseq, txack, Skb(Command, data)) == Frame(true, txseq, txack, cfg.useCrc, 5, data)
  {}

  /** What a packet does. */

  // ACL data comes up from channel 6 and events from channel 5, reliable and in order only.
  lemma HandedUpReliable(l: Link, f: GoodFrame)
    requires f.rel
    ensures f.seqno != l.txack ==> CompleteRx(l, f).up == None
    ensures f.seqno == l.txack && f.chan == 6 ==> CompleteRx(l, f).up == Some(Up(AclData, f.payload))
    ensures f.seqno == l.txack && f.chan == 5 ==> CompleteRx(l, f).up == Some(Up(Event, f.payload))
    ensures f.seqno == l.txack && f.chan == 7 ==> CompleteRx(l, f).up == Some(Up(ScoData, f.payload))
  {
    hide CullCount;
  }

  lemma HandedUpUnreliable(l: Link, f: GoodFrame)
    requires !f.rel
    ensures f.chan == 7 ==> CompleteRx(l, f).up == Some(Up(ScoData, f.payload))
    ensures f.chan in {0, 1} ==> CompleteRx(l, f).up == None
    ensures !l.cfg.hciextn && f.chan != 7 ==> CompleteRx(l, f).up == None
  {
    hide CullCount, HandleLe;
  }

  // With extensions enabled every other channel comes up as a vendor event: its code 0xff, its
  // length modulo 256, the descriptor, and the payload.
  lemma HandedUpAsVendorEvent(l: Link, f: GoodFrame)
    requires l.cfg.hciextn && (f.rel ==> f.seqno == l.txack)
    requires f.chan !in {0, 1, 7} && !(f.rel && f.chan in {5, 6})
    ensures CompleteRx(l, f).up
      == Some(Up(Event, [0xff, (1 + |f.payload|) % 256, 0xc0 + f.chan] + f.payload))
  {
    hide CullCount;
  }

  // Every reliable packet asks for an acknowledgement, and one in order moves the number on; an
  // unreliable packet does neither. The link keeps the acknowledge number of every packet.
  lemma Numbers(l: Link, f: GoodFrame)
    ensures var n := CompleteRx(l, f).link;
      && n.txack == (if f.rel && f.seqno == l.txack then (l.txack + 1) % 8 else l.txack)
      && n.ackReq == (f.rel || l.ackReq) && n.rxack == f.ack && n.txseq == l.txseq && n.rel == l.rel
  {
    hide CullCount, UpOf;
  }

  // The four octets ad ef ac ed on channel 1 are answered with de ad d0 d0, ahead of everything
  // else; nothing else changes what is waiting unreliably.
  lemma ConfirmationAnswered(l: Link, f: GoodFrame)
    ensures CompleteRx(l, f).link.unrel ==
      if !f.rel && f.chan == 1 && f.payload == [0xad, 0xef, 0xac, 0xed]
      then [Skb(BcspLe, [0xde, 0xad, 0xd0, 0xd0])] + l.unrel
      else l.unrel
  {
    hide CullCount, UpOf;
  }

  /** What is sent, and when. */

  // Up to 4095 octets are taken; ACL data and commands behind the reliable packets, SCO data
  // behind the unreliable ones.
  lemma Queued(l: Link, kind: PktType, data: seq<byte>)
    ensures |data| <= 4095 && kind in {AclData, Command} ==>
      Enqueue(l, Skb(kind, data)) == l.(rel := l.rel + [Skb(kind, data)])
    ensures |data| <= 4095 && kind == ScoData ==>
      Enqueue(l, Skb(kind, data)) == l.(unrel := l.unrel + [Skb(kind, data)])
    ensures |data| > 4095 || kind !in {AclData, Command, ScoData} ==> Enqueue(l, Skb(kind, data)) == l
  {}

  // When every allocation succeeds: the oldest unreliable packet first, else the oldest reliable
  // one while fewer than four are outstanding, else a bare acknowledgement if one is owed.
  lemma SentNext(l: Link)
    ensures var s := Dequeue(l, Allocs(true, true, true));
      && (l.unrel != [] ==>
          && s.frame == Some(FrameOf(l.cfg, l.txseq, l.txack, l.unrel[0]))
          && s.link == l.(unrel := l.unrel[1..], ackReq := false))
      && (l.unrel == [] && l.rel != [] && |l.unack| < 4 ==>
          && s.frame == Some(FrameOf(l.cfg, l.txseq, l.txack, l.rel[0]))
          && s.link.rel == l.rel[1..] && s.link.unack == l.unack + [l.rel[0]]
          && s.link.txseq == (l.txseq + 1) % 8 && !s.link.ackReq && s.link.timer)
      && (l.unrel == [] && (l.rel == [] || |l.unack| >= 4) ==>
          && (s.frame.Some? <==> l.ackReq) && s.link == l.(ackReq := false)
          && (l.ackReq ==> s.frame == Some(FrameOf(l.cfg, l.txseq, l.txack, Skb(BcspAck, [])))))
  {
    hide FrameOf;
  }
}
