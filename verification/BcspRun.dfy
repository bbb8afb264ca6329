// Two BCSP endpoints joined by two lossy channels: every run delivers in order and exactly
// once, and from every reachable state everything submitted can still be delivered.
// Source: drivers/blue8852be/hci_bcsp.c, lines 134-161, 270-391, 474-572 and 688-708.
module BcspRun {
  import opened Bytes
  import opened Framing
  import opened BcspLink
  import opened GoBackN

  // A frame under way, with the absolute numbers it was sent under.
  type Moving = Flight<GoodFrame, Wire>

  // An endpoint with its history: the reliable packets submitted to it, how many of them are
  // released, the reliable packets it accepted, and everything it handed to the HCI layer, from
  // reliable frames (ups) and from unreliable ones (loose), whether it accepted them or not.
  datatype Peer = Peer(link: Link, sent: seq<RelSkb>, culled: nat, accepted: seq<Wire>,
                       ups: seq<Up>, loose: seq<Up>)

  // The frames under way from a to b, and from b to a.
  datatype World = World(a: Peer, b: Peer, ab: seq<Moving>, ba: seq<Moving>)

  function Fresh(cfg: Config): Peer { Peer(Opened(cfg), [], 0, [], [], []) }

  function Start(cfgA: Config, cfgB: Config): World { World(Fresh(cfgA), Fresh(cfgB), [], []) }

  /** What an endpoint does, with the history kept alongside. */

  function SubmitTo(p: Peer, skb: Skb): Peer {
    p.(link := Enqueue(p.link, skb),
       sent := if |skb.data| <= MAX_PAYLOAD && Reliable(skb.kind) then p.sent + [skb] else p.sent)
  }

  datatype Transmission = Transmission(peer: Peer, out: seq<Moving>)

  function Carry(f: GoodFrame, k: nat, a: nat): Moving { Flight(f, Wire(f.chan, f.payload), f.rel, k, a) }

  function Transmit(p: Peer, alloc: Allocs): Transmission {
    var s := Dequeue(p.link, alloc);
    Transmission(p.(link := s.link),
      if s.frame.None? then []
      else [Carry(s.frame.value, p.culled + |p.link.unack|, |p.accepted|)])
  }

  // The timer can only fire while it is armed.
  function Expire(p: Peer): Peer {
    if p.link.timer then p.(link := Timeout(p.link)) else p
  }

  function Take(p: Peer, f: GoodFrame): Peer
  {
    var r := CompleteRx(p.link, f);
    var taken := f.rel && InOrder(p.link, f);
    Peer(r.link, p.sent,
         p.culled + CullCount(|p.link.unack|, p.link.txseq, f.ack),
         if taken then p.accepted + [Wire(f.chan, f.payload)] else p.accepted,
         if f.rel && r.up.Some? then p.ups + [r.up.value] else p.ups,
         if !f.rel && r.up.Some? then p.loose + [r.up.value] else p.loose)
  }

  /** Steps and runs. */

  datatype Act = Submit(skb: Skb) | Send(alloc: Allocs) | Timer | Receive | Lose(i: nat)

  datatype Side = A | B

  datatype Step = Step(side: Side, act: Act)

  function Flip(w: World): World { World(w.b, w.a, w.ba, w.ab) }

  // A step of endpoint a; one that is not enabled changes nothing. Lose drops a frame on the
  // way from a to b, at any place.
  function ActA(w: World, act: Act): World {
    match act
    case Submit(skb) => w.(a := SubmitTo(w.a, skb))
    case Send(alloc) =>
      var t := Transmit(w.a, alloc);
      w.(a := t.peer, ab := w.ab + t.out)
    case Timer => w.(a := Expire(w.a))
    case Receive => if w.ba == [] then w else w.(a := Take(w.a, w.ba[0].frame), ba := w.ba[1..])
    case Lose(i) => if i < |w.ab| then w.(ab := Without(w.ab, i)) else w
  }

  /** The invariant. */

  function Wires(skbs: seq<RelSkb>, hciextn: bool): (r: seq<Wire>)
    ensures |r| == |skbs|
  {
    seq(|skbs|, i requires 0 <= i < |skbs| => WireOf(skbs[i], hciextn))
  }

  // What accepted packets give the HCI layer, in order.
  function UpsOf(wires: seq<Wire>, hciextn: bool): seq<Up>
    requires forall w :: w in wires ==> w.chan < 16
  {
    if wires == [] then []
    else
      var last := wires[|wires| - 1];
      var up := UpOf(true, last, hciextn);
      UpsOf(wires[..|wires| - 1], hciextn) + if up.Some? then [up.value] else []
  }

  // Queue conservation: released, unacknowledged and waiting packets are exactly those
  // submitted, in order; the transmit number is the absolute one modulo 8; the timer guards
  // every unacknowledged packet.
  ghost predicate SenderOk(p: Peer) {
    var l := p.link;
    && p.culled <= |p.sent| && l.unack + l.rel == p.sent[p.culled..]
    && |l.unack| <= TX_WINDOW
    && l.txseq == (p.culled + |l.unack|) % 8
    && (l.unack != [] ==> l.timer)
  }

  // The acknowledged number is the count of accepted packets modulo 8, and the HCI layer got
  // what those packets carry.
  ghost predicate ReceiverOk(p: Peer) {
    && p.link.txack == |p.accepted| % 8
    && (forall w :: w in p.accepted ==> w.chan < 16)
    && p.ups == UpsOf(p.accepted, p.link.cfg.hciextn)
  }

  // A driver never asks for a configuration response.
  ghost predicate UnrelOk(p: Peer) {
    forall skb :: skb in p.link.unrel && skb.kind == BcspLe ==> skb.data != CONF_PKT
  }

  ghost predicate PeerOk(p: Peer) { SenderOk(p) && ReceiverOk(p) && UnrelOk(p) }

  // A frame under way carries its absolute numbers modulo 8, and asks for nothing.
  ghost predicate FlightOk(fl: Moving) {
    var f := fl.frame;
    && f.rel == fl.rel && f.ack == fl.a % 8
    && fl.msg == Wire(f.chan, f.payload)
    && (fl.rel ==> f.seqno == fl.k % 8)
    && (!fl.rel && f.chan == 1 ==> f.payload != CONF_PKT)
  }

  function SentWires(p: Peer): seq<Wire> { Wires(p.sent, p.link.cfg.hciextn) }

  ghost predicate Path(from: Peer, to: Peer, fwd: seq<Moving>, bwd: seq<Moving>) {
    && Stream(TX_WINDOW, SentWires(from), from.culled, to.accepted, fwd, bwd)
    && forall i :: 0 <= i < |fwd| ==> FlightOk(fwd[i])
  }

  ghost predicate Inv(w: World) {
    PeerOk(w.a) && PeerOk(w.b) && Path(w.a, w.b, w.ab, w.ba) && Path(w.b, w.a, w.ba, w.ab)
  }

  lemma FlipKeeps(w: World)
    ensures Inv(Flip(w)) == Inv(w) && Flip(Flip(w)) == w
  {}

  lemma WiresAppend(skbs: seq<RelSkb>, more: seq<RelSkb>, hciextn: bool)
    ensures Wires(skbs + more, hciextn) == Wires(skbs, hciextn) + Wires(more, hciextn)
  {
    hide WireOf;
  }

  lemma SubmitIsSafe(w: World, skb: Skb)
    requires Inv(w)
    ensures Inv(ActA(w, Submit(skb)))
  {
    hide UpsOf, WireOf, FlightOk, Stream, Wires;
    var a := SubmitTo(w.a, skb);
    var more := a.sent[|w.a.sent|..];
    assert a.sent == w.a.sent + more;
    assert a.sent[a.culled..] == w.a.sent[w.a.culled..] + more;
    WiresAppend(w.a.sent, more, w.a.link.cfg.hciextn);
    StreamSubmit(TX_WINDOW, SentWires(w.a), w.a.culled, w.b.accepted, w.ab, w.ba, Wires(more, w.a.link.cfg.hciextn));
  }

  lemma LoseIsSafe(w: World, i: nat)
    requires Inv(w)
    ensures Inv(ActA(w, Lose(i)))
  {
    hide PeerOk, FlightOk, Stream;
    if i < |w.ab| {
      StreamLose(TX_WINDOW, SentWires(w.a), w.a.culled, w.b.accepted, w.ab, w.ba, i);
      StreamLose(TX_WINDOW, SentWires(w.b), w.b.culled, w.a.accepted, w.ba, w.ab, i);
    }
  }

  lemma TimerIsSafe(w: World)
    requires Inv(w)
    ensures Inv(ActA(w, Timer))
  {
    hide UpsOf, WireOf, Stream, FlightOk;
    var l := w.a.link;
    NumberRolledBack(w.a.culled, |l.unack|);
    var t := Timeout(l);
    assert t.unack + t.rel == l.unack + l.rel;
  }

  lemma NumberRolledBack(c: nat, n: nat)
    ensures ((c + n) % 8 - n) % 8 == c % 8
  {}

  lemma FrameFacts(cfg: Config, txseq: Seq8, txack: Seq8, skb: Skb)
    requires |skb.data| <= MAX_PAYLOAD
    ensures var f := FrameOf(cfg, txseq, txack, skb);
      && f.rel == Reliable(skb.kind) && f.ack == txack && (f.rel ==> f.seqno == txseq)
      && Wire(f.chan, f.payload) == WireOf(skb, cfg.hciextn)
      && (!f.rel && f.chan == 1 ==> skb.kind == BcspLe && f.payload == skb.data)
  {}

  // One dequeue: what it puts on the wire, and that it keeps the endpoint's invariant.
  ghost predicate TransmitOk(p: Peer, t: Transmission) {
    && PeerOk(t.peer) && t.peer.sent == p.sent && t.peer.culled == p.culled
    && t.peer.accepted == p.accepted && t.peer.link.cfg == p.link.cfg && |t.out| <= 1
    && (t.out != [] ==>
        var fl := t.out[0];
        && FlightOk(fl) && fl.a == |p.accepted|
        && (fl.rel ==> p.culled <= fl.k < p.culled + TX_WINDOW && fl.k < |p.sent| && fl.msg == SentWires(p)[fl.k]))
  }

  lemma UnreliableOut(p: Peer, alloc: Allocs)
    requires PeerOk(p) && p.link.unrel != [] && alloc.unrel
    ensures TransmitOk(p, Transmit(p, alloc))
  {
    hide UpsOf, FrameOf, WireOf;
    var l := p.link;
    assert l.unrel == [l.unrel[0]] + l.unrel[1..];
    FrameFacts(l.cfg, l.txseq, l.txack, l.unrel[0]);
  }

  lemma ReliableOut(p: Peer, alloc: Allocs)
    requires PeerOk(p) && (p.link.unrel == [] || !alloc.unrel)
    requires |p.link.unack| < TX_WINDOW && p.link.rel != [] && alloc.rel
    ensures TransmitOk(p, Transmit(p, alloc))
  {
    hide UpsOf, FrameOf, WireOf, Reliable;
    var l := p.link;
    FrameFacts(l.cfg, l.txseq, l.txack, l.rel[0]);
    MoveOne(l.unack, l.rel, p.sent, p.culled);
    assert ((p.culled + |l.unack|) % 8 + 1) % 8 == (p.culled + |l.unack| + 1) % 8;
    hide Next;
    ReliableKind(l.rel[0]);
    assert Next(l.txseq) == (p.culled + |l.unack| + 1) % 8 by { NextIs(l.txseq); }
  }

  lemma NextIs(s: Seq8)
    ensures Next(s) == (s + 1) % 8
  {}

  lemma ReliableKind(skb: RelSkb)
    ensures Reliable(skb.kind)
  {}

  lemma TransmitIsLocal(p: Peer, alloc: Allocs)
    requires PeerOk(p)
    ensures TransmitOk(p, Transmit(p, alloc))
  {
    var l := p.link;
    if l.unrel != [] && alloc.unrel {
      UnreliableOut(p, alloc);
    } else if |l.unack| < TX_WINDOW && l.rel != [] && alloc.rel {
      ReliableOut(p, alloc);
    } else {
      hide UpsOf, FrameOf, WireOf;
      FrameFacts(l.cfg, l.txseq, l.txack, ACK_SKB);
    }
  }

  lemma SendIsSafe(w: World, alloc: Allocs)
    requires Inv(w)
    ensures Inv(ActA(w, Send(alloc)))
  {
    TransmitIsLocal(w.a, alloc);
    hide PeerOk, FlightOk, Wires, Transmit, Stream;
    var t := Transmit(w.a, alloc);
    if t.out != [] {
      assert t.out == [t.out[0]];
      StreamSend(TX_WINDOW, SentWires(w.a), w.a.culled, w.b.accepted, w.ab, w.ba, t.out[0]);
      StreamAnswer(TX_WINDOW, SentWires(w.b), w.b.culled, w.a.accepted, w.ba, w.ab, t.out[0]);
    } else {
      assert w.ab + t.out == w.ab;
    }
  }

  // What a frame does to the link, in absolute terms.
  lemma CompleteIsAbsolute(p: Peer, fl: Moving)
    requires PeerOk(p) && FlightOk(fl)
    requires p.culled <= fl.a <= p.culled + TX_WINDOW
    requires fl.rel ==> |p.accepted| <= fl.k + TX_WINDOW && fl.k <= |p.accepted| + TX_WINDOW
    ensures CullCount(|p.link.unack|, p.link.txseq, fl.frame.ack)
      == if fl.a <= p.culled + |p.link.unack| then fl.a - p.culled else 0
    ensures fl.rel ==> (InOrder(p.link, fl.frame) <==> fl.k == |p.accepted|)
  {
    hide UpsOf, WireOf, CullCount;
    if fl.rel {
      NumberIsUnambiguous(TX_WINDOW, fl.k, |p.accepted|);
    }
    CullIsAbsolute(TX_WINDOW, p.culled, |p.link.unack|, fl.a);
  }

  lemma LinkAfterFrame(l: Link, f: Frame)
    requires f.WellFormed() && (!f.rel && f.chan == 1 ==> f.payload != CONF_PKT)
    ensures var n := CompleteRx(l, f).link;
      var r := CullCount(|l.unack|, l.txseq, f.ack);
      && n.cfg == l.cfg && n.unack == l.unack[r..] && n.rel == l.rel && n.unrel == l.unrel
      && n.txseq == l.txseq && n.timer == (l.timer && n.unack != [])
      && n.txack == if f.rel && InOrder(l, f) then Next(l.txack) else l.txack
    ensures f.rel && InOrder(l, f) ==>
      CompleteRx(l, f).up == UpOf(true, Wire(f.chan, f.payload), l.cfg.hciextn)
    ensures f.rel && !InOrder(l, f) ==> CompleteRx(l, f).up == None
  {
    hide UpOf, CullCount;
  }

  ghost predicate TakeOk(p: Peer, fl: Moving, q: Peer) {
    && q.sent == p.sent && q.link.cfg == p.link.cfg
    && q.culled == (if fl.a <= p.culled + |p.link.unack| then fl.a else p.culled)
    && q.accepted == if fl.rel && fl.k == |p.accepted| then p.accepted + [Wire(fl.frame.chan, fl.frame.payload)]
                     else p.accepted
  }

  lemma TakeIsLocal(p: Peer, fl: Moving)
    requires PeerOk(p) && FlightOk(fl)
    requires p.culled <= fl.a <= p.culled + TX_WINDOW && fl.a <= |p.sent|
    requires fl.rel ==> |p.accepted| <= fl.k + TX_WINDOW && fl.k <= |p.accepted| + TX_WINDOW
    ensures PeerOk(Take(p, fl.frame)) && TakeOk(p, fl, Take(p, fl.frame))
  {
    CompleteIsAbsolute(p, fl);
    TakeKeepsSender(p, fl.frame);
    TakeKeepsReceiver(p, fl.frame);
    TakeKeepsRest(p, fl.frame);
    assert fl.frame.rel == fl.rel;
    hide SenderOk, ReceiverOk, UnrelOk, FlightOk, Take;
  }

  // The fields of an endpoint after a frame.
  lemma TakeKeepsRest(p: Peer, f: Frame)
    requires UnrelOk(p) && f.WellFormed() && (!f.rel && f.chan == 1 ==> f.payload != CONF_PKT)
    ensures var q := Take(p, f);
      && UnrelOk(q) && q.sent == p.sent && q.link.cfg == p.link.cfg
      && q.culled == p.culled + CullCount(|p.link.unack|, p.link.txseq, f.ack)
      && q.accepted == if f.rel && InOrder(p.link, f) then p.accepted + [Wire(f.chan, f.payload)] else p.accepted
  {
    LinkAfterFrame(p.link, f);
    hide CullCount, CompleteRx, InOrder;
  }

  lemma TakeKeepsSender(p: Peer, f: Frame)
    requires SenderOk(p) && f.WellFormed() && (!f.rel && f.chan == 1 ==> f.payload != CONF_PKT)
    ensures SenderOk(Take(p, f))
  {
    hide WireOf, UpOf, CullCount, CompleteRx, InOrder;
    var l := p.link;
    LinkAfterFrame(l, f);
    var r := CullCount(|l.unack|, l.txseq, f.ack);
    DropMore(l.unack, l.rel, p.sent, p.culled, r);
  }

  lemma TakeKeepsReceiver(p: Peer, f: Frame)
    requires ReceiverOk(p) && f.WellFormed() && (!f.rel && f.chan == 1 ==> f.payload != CONF_PKT)
    ensures ReceiverOk(Take(p, f))
  {
    LinkAfterFrame(p.link, f);
    UpsOneMore(p.accepted, Wire(f.chan, f.payload), p.link.cfg.hciextn);
    hide WireOf, UpOf, CullCount, CompleteRx, InOrder, UpsOf;
  }

  lemma UpsOneMore(wires: seq<Wire>, w: Wire, hciextn: bool)
    requires (forall x :: x in wires ==> x.chan < 16) && w.chan < 16
    ensures var up := UpOf(true, w, hciextn);
      UpsOf(wires + [w], hciextn) == UpsOf(wires, hciextn) + if up.Some? then [up.value] else []
  {
    hide UpOf;
    assert (wires + [w])[..|wires|] == wires;
  }

  // What goes to a has moved on by a frame.
  lemma ReceivedPath(w: World, q: Peer)
    requires Inv(w) && w.ba != [] && FlightOk(w.ba[0]) && TakeOk(w.a, w.ba[0], q)
    ensures Path(w.b, q, w.ba[1..], w.ab)
  {
    hide FlightOk, Stream, PeerOk, Wires;
    StreamPass(TX_WINDOW, SentWires(w.b), w.b.culled, w.a.accepted, w.ba, w.ab);
    StreamAccept(TX_WINDOW, SentWires(w.b), w.b.culled, w.a.accepted, w.ba, w.ab);
    assert w.ba[0].frame.rel == w.ba[0].rel && w.ba[0].msg == Wire(w.ba[0].frame.chan, w.ba[0].frame.payload)
      by { FlightSays(w.ba[0]); }
  }

  lemma FlightSays(fl: Moving)
    requires FlightOk(fl)
    ensures fl.frame.rel == fl.rel && fl.msg == Wire(fl.frame.chan, fl.frame.payload)
  {}

  // What a sent is acknowledged up to where the frame says, or not at all.
  lemma AcknowledgedPath(w: World, q: Peer)
    requires Inv(w) && w.ba != [] && TakeOk(w.a, w.ba[0], q)
    ensures Path(q, w.b, w.ab, w.ba[1..])
  {
    hide FlightOk, Stream, PeerOk, Wires;
    StreamAck(TX_WINDOW, SentWires(w.a), w.a.culled, w.b.accepted, w.ab, w.ba, q.culled);
  }

  lemma Assembled(w: World, q: Peer)
    requires Inv(w) && w.ba != [] && PeerOk(q)
    requires Path(w.b, q, w.ba[1..], w.ab) && Path(q, w.b, w.ab, w.ba[1..])
    ensures Inv(w.(a := q, ba := w.ba[1..]))
  {
    hide PeerOk, Path;
  }

  // The first frame of a good world satisfies what taking it needs.
  lemma TakeFirst(w: World)
    requires Inv(w) && w.ba != []
    ensures FlightOk(w.ba[0]) && PeerOk(Take(w.a, w.ba[0].frame))
    ensures TakeOk(w.a, w.ba[0], Take(w.a, w.ba[0].frame))
  {
    hide PeerOk, FlightOk, Stream, Wires, Take;
    FirstFrame(TX_WINDOW, SentWires(w.b), w.b.culled, w.a.accepted, w.ba, w.ab);
    FirstFrame(TX_WINDOW, SentWires(w.a), w.a.culled, w.b.accepted, w.ab, w.ba);
    TakeIsLocal(w.a, w.ba[0]);
  }

  lemma ActIsSafe(w: World, act: Act)
    requires Inv(w)
    ensures Inv(ActA(w, act))
  {
    match act
    case Submit(skb) => SubmitIsSafe(w, skb);
    case Send(alloc) => SendIsSafe(w, alloc);
    case Timer => TimerIsSafe(w);
    case Receive =>
      if w.ba != [] {
        var q := Take(w.a, w.ba[0].frame);
        TakeFirst(w);
        ReceivedPath(w, q);
        AcknowledgedPath(w, q);
        hide FlightOk, PeerOk, Take, Path, Inv, TakeOk;
        Assembled(w, q);
      }
    case Lose(i) => LoseIsSafe(w, i);
  }

  /** Runs. */

  function Do(w: World, step: Step): World {
    if step.side == A then ActA(w, step.act) else Flip(ActA(Flip(w), step.act))
  }

  lemma DoIsSafe(w: World, step: Step)
    requires Inv(w)
    ensures Inv(Do(w, step))
  {
    hide ActA;
    FlipKeeps(w);
    if step.side == A {
      ActIsSafe(w, step.act);
    } else {
      ActIsSafe(Flip(w), step.act);
      FlipKeeps(ActA(Flip(w), step.act));
    }
  }

  function Run(w: World, steps: seq<Step>): World
    decreases |steps|
  {
    if steps == [] then w else Run(Do(w, steps[0]), steps[1..])
  }

  lemma {:induction false} RunIsSafe(w: World, steps: seq<Step>)
    requires Inv(w)
    ensures Inv(Run(w, steps))
    decreases |steps|
  {
    hide Inv, Do;
    if steps != [] {
      DoIsSafe(w, steps[0]);
      RunIsSafe(Do(w, steps[0]), steps[1..]);
    }
  }

  lemma StartIsSafe(cfgA: Config, cfgB: Config)
    ensures Inv(Start(cfgA, cfgB))
  {}

  // Over every run, whatever is lost and however the timers fire: what an endpoint has accepted
  // is a prefix of what the other was given, in order and without duplicates, and the HCI layer
  // got exactly what that prefix carries.
  lemma ExactlyOnceInOrder(cfgA: Config, cfgB: Config, steps: seq<Step>)
    ensures var w := Run(Start(cfgA, cfgB), steps);
      && w.b.accepted <= SentWires(w.a)
      && w.a.accepted <= SentWires(w.b)
      && (forall x :: x in w.b.accepted ==> x.chan < 16) && w.b.ups == UpsOf(w.b.accepted, w.b.link.cfg.hciextn)
      && (forall x :: x in w.a.accepted ==> x.chan < 16) && w.a.ups == UpsOf(w.a.accepted, w.a.link.cfg.hciextn)
  {
    StartIsSafe(cfgA, cfgB);
    RunIsSafe(Start(cfgA, cfgB), steps);
    hide UpsOf, Wires, Run, Start, Direction, FlightOk;
  }

  // Released, outstanding and waiting packets are exactly those submitted, in order; the
  // transmit number counts those sent; and the timer guards everything outstanding.
  ghost predicate Conserved(p: Peer) {
    && p.culled <= |p.sent| && p.sent == p.sent[..p.culled] + p.link.unack + p.link.rel
    && p.link.txseq == (p.culled + |p.link.unack|) % 8
    && |p.link.unack| <= TX_WINDOW
    && (p.link.unack != [] ==> p.link.timer)
  }

  lemma SenderIsConserved(p: Peer)
    requires SenderOk(p)
    ensures Conserved(p)
  {
    assert p.sent == p.sent[..p.culled] + p.sent[p.culled..];
    assert p.sent[..p.culled] + (p.link.unack + p.link.rel) == p.sent[..p.culled] + p.link.unack + p.link.rel;
  }

  // Over every run nothing submitted is lost or reordered inside an endpoint.
  lemma QueuesConserved(cfgA: Config, cfgB: Config, steps: seq<Step>)
    ensures var w := Run(Start(cfgA, cfgB), steps);
      Conserved(w.a) && Conserved(w.b)
  {
    StartIsSafe(cfgA, cfgB);
    RunIsSafe(Start(cfgA, cfgB), steps);
    hide SenderOk, ReceiverOk, Path, Start, Run, Conserved;
    var w := Run(Start(cfgA, cfgB), steps);
    SenderIsConserved(w.a);
    SenderIsConserved(w.b);
  }
}
