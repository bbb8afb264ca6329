// Two Three-wire (H5) endpoints from their opening to the first reset: whatever is lost, however
// the links come up one after the other, whatever link control messages are exchanged and however
// the window changes on the way, reliable packets are accepted in order and exactly once.
// Source: drivers/blue8852be/hci_h5.c, lines 147-189, 284-423, 447-481, 599-639 and 737-796.
module H5Run {
  import opened Bytes
  import opened Framing
  import opened GoBackN
  import opened H5Link

  // The largest window the three-bit field can announce.
  const MAX_WINDOW: nat := 7

  // A message, as sent and as accepted: packet type and payload.
  datatype Message = Message(ptype: nat, data: seq<byte>)

  type Moving = Flight<GoodFrame, Message>

  // An endpoint with its history: the reliable packets submitted to it, how many of them are
  // released, the messages it accepted, and whether an active session of its was ever reset.
  datatype Peer = Peer(link: Link, sent: seq<RelSkb>, culled: nat, accepted: seq<Message>, reset: bool)

  datatype World = World(a: Peer, b: Peer, ab: seq<Moving>, ba: seq<Moving>)

  function Flip(w: World): World { World(w.b, w.a, w.ba, w.ab) }

  /** What an endpoint does, with the history kept alongside. */

  function SubmitTo(p: Peer, skb: Skb): Peer {
    p.(link := Enqueue(p.link, skb),
       sent := if |skb.data| <= MAX_PAYLOAD && p.link.state == Active && Reliable(skb.ptype)
               then p.sent + [skb] else p.sent)
  }

  function Carry(f: GoodFrame, k: nat, a: nat): Moving { Flight(f, Message(f.chan, f.payload), f.rel, k, a) }

  datatype Transmission = Transmission(peer: Peer, out: seq<Moving>)

  function Transmit(p: Peer, alloc: Allocs): Transmission {
    var s := Dequeue(p.link, alloc);
    Transmission(p.(link := s.link),
      if s.frame.None? then [] else [Carry(s.frame.value, p.culled + |p.link.unack|, |p.accepted|)])
  }

  function Expire(p: Peer): Peer {
    if p.link.timer then p.(link := Timeout(p.link)) else p
  }

  function Take(p: Peer, f: GoodFrame): Peer {
    var l := TakeFrame(p.link, f).link;
    Peer(l, p.sent,
         if Accepts(p.link, f) then p.culled + CullCount(|p.link.unack|, p.link.txSeq, f.ack) else p.culled,
         if f.rel && Accepts(p.link, f) then p.accepted + [Message(f.chan, f.payload)] else p.accepted,
         p.reset || (p.link.state == Active && l.state != Active))
  }

  /** Steps. A link control message of the device behind an endpoint, of whatever content, is
      queued like the driver's own. */

  datatype Act =
    | Submit(skb: Skb) | Control(data: seq<byte>) | Send(alloc: Allocs) | Timer | Receive | Lose(i: nat)

  datatype Side = A | B

  datatype Step = Step(side: Side, act: Act)

  function ActA(w: World, act: Act): World {
    match act
    case Submit(skb) => w.(a := SubmitTo(w.a, skb))
    case Control(data) =>
      if |data| <= MAX_PAYLOAD then w.(a := w.a.(link := LinkControl(w.a.link, data)))
      else w
    case Send(alloc) =>
      var t := Transmit(w.a, alloc);
      w.(a := t.peer, ab := w.ab + t.out)
    case Timer => w.(a := Expire(w.a))
    case Receive => if w.ba == [] then w else w.(a := Take(w.a, w.ba[0].frame), ba := w.ba[1..])
    case Lose(i) => if i < |w.ab| then w.(ab := Without(w.ab, i)) else w
  }

  /** The invariant. */

  function Messages(skbs: seq<RelSkb>): (r: seq<Message>)
    ensures |r| == |skbs|
  {
    seq(|skbs|, i requires 0 <= i < |skbs| => Message(skbs[i].ptype, skbs[i].data))
  }

  // Before its link is active an endpoint has neither sent nor accepted anything reliable.
  ghost predicate PeerOk(p: Peer) {
    var l := p.link;
    && !p.reset && (l.state != Active ==> p.sent == [] && p.accepted == [])
    && p.culled <= |p.sent| && l.unack + l.rel == p.sent[p.culled..]
    && |l.unack| <= MAX_WINDOW
    && l.txSeq == (p.culled + |l.unack|) % 8
    && l.txAck == |p.accepted| % 8
  }

  ghost predicate FlightOk(fl: Moving) {
    var f := fl.frame;
    && !f.crc && f.rel == fl.rel && f.ack == fl.a % 8
    && fl.msg == Message(f.chan, f.payload)
    && (fl.rel ==> f.seqno == fl.k % 8 && Reliable(f.chan))
  }

  ghost predicate Path(from: Peer, to: Peer, fwd: seq<Moving>, bwd: seq<Moving>) {
    && Stream(MAX_WINDOW, Messages(from.sent), from.culled, to.accepted, fwd, bwd)
    && forall i :: 0 <= i < |fwd| ==> FlightOk(fwd[i])
  }

  ghost predicate Inv(w: World) {
    PeerOk(w.a) && PeerOk(w.b) && Path(w.a, w.b, w.ab, w.ba) && Path(w.b, w.a, w.ba, w.ab)
  }

  // A session begins with nothing reliable queued or under way and all numbers at zero, whatever
  // state the links are in and whatever link control messages are queued or under way.
  ghost predicate SessionStart(w: World) {
    && SessionPeer(w.a) && SessionPeer(w.b)
    && (forall fl :: fl in w.ab || fl in w.ba ==> FlightOk(fl) && !fl.rel && fl.a == 0)
  }

  ghost predicate SessionPeer(p: Peer) {
    var l := p.link;
    && p == Peer(l, [], 0, [], false)
    && l.unack == [] && l.rel == [] && l.txSeq == 0 && l.txAck == 0
  }

  lemma SessionStartIsSafe(w: World)
    requires SessionStart(w)
    ensures Inv(w)
  {
    hide FlightOk;
    forall i | 0 <= i < |w.ab|
      ensures FlightOk(w.ab[i]) && !w.ab[i].rel && w.ab[i].a == 0
    {
      assert w.ab[i] in w.ab;
    }
    forall i | 0 <= i < |w.ba|
      ensures FlightOk(w.ba[i]) && !w.ba[i].rel && w.ba[i].a == 0
    {
      assert w.ba[i] in w.ba;
    }
  }

  lemma FlipKeeps(w: World)
    ensures Inv(Flip(w)) == Inv(w) && Flip(Flip(w)) == w
  {}

  lemma SubmitIsSafe(w: World, skb: Skb)
    requires Inv(w)
    ensures Inv(ActA(w, Submit(skb)))
  {
    hide FlightOk, Stream, Messages;
    var a := SubmitTo(w.a, skb);
    var more := a.sent[|w.a.sent|..];
    assert a.sent == w.a.sent + more;
    assert a.sent[a.culled..] == w.a.sent[w.a.culled..] + more;
    MessagesAppend(w.a.sent, more);
    StreamSubmit(MAX_WINDOW, Messages(w.a.sent), w.a.culled, w.b.accepted, w.ab, w.ba, Messages(more));
  }

  lemma MessagesAppend(skbs: seq<RelSkb>, more: seq<RelSkb>)
    ensures Messages(skbs + more) == Messages(skbs) + Messages(more)
  {}

  lemma ControlIsSafe(w: World, data: seq<byte>)
    requires Inv(w)
    ensures Inv(ActA(w, Control(data)))
  {
    hide FlightOk, Stream, Messages;
  }

  lemma LoseIsSafe(w: World, i: nat)
    requires Inv(w)
    ensures Inv(ActA(w, Lose(i)))
  {
    hide PeerOk, FlightOk, Stream;
    if i < |w.ab| {
      StreamLose(MAX_WINDOW, Messages(w.a.sent), w.a.culled, w.b.accepted, w.ab, w.ba, i);
      StreamLose(MAX_WINDOW, Messages(w.b.sent), w.b.culled, w.a.accepted, w.ba, w.ab, i);
    }
  }

  lemma TimerIsSafe(w: World)
    requires Inv(w)
    ensures Inv(ActA(w, Timer))
  {
    hide Stream, FlightOk;
    var l := w.a.link;
    assert (l.txSeq - |l.unack|) % 8 == w.a.culled % 8;
    var t := Timeout(l);
    assert t.unack + t.rel == l.unack + l.rel;
  }

  ghost predicate TransmitOk(p: Peer, t: Transmission) {
    && PeerOk(t.peer) && t.peer.sent == p.sent && t.peer.culled == p.culled
    && t.peer.accepted == p.accepted && |t.out| <= 1
    && (t.out != [] ==>
        var fl := t.out[0];
        && FlightOk(fl) && fl.a == |p.accepted|
        && (fl.rel ==> p.culled <= fl.k < p.culled + MAX_WINDOW && fl.k < |p.sent| && fl.msg == Messages(p.sent)[fl.k]))
  }

  lemma ReliableOut(p: Peer, alloc: Allocs)
    requires PeerOk(p) && p.link.sleep == Awake && (p.link.unrel == [] || !alloc.unrel)
    requires |p.link.unack| < p.link.txWin && p.link.rel != [] && alloc.rel
    ensures TransmitOk(p, Transmit(p, alloc))
  {
    hide FrameOf;
    var l := p.link;
    SessionFrame(l.txSeq, l.txAck, l.rel[0]);
    MoveOne(l.unack, l.rel, p.sent, p.culled);
    assert Next(l.txSeq) == (p.culled + |l.unack| + 1) % 8;
    hide Next;
  }

  lemma SessionFrame(txSeq: Seq8, txAck: Seq8, skb: RelSkb)
    ensures var f := FrameOf(txSeq, txAck, skb);
      && f.rel && !f.crc && f.seqno == txSeq && f.ack == txAck && Reliable(f.chan) && f.chan != LINK_PKT
      && Message(f.chan, f.payload) == Message(skb.ptype, skb.data)
  {}

  lemma PlainOut(p: Peer, alloc: Allocs)
    requires PeerOk(p)
    requires !(p.link.sleep == Awake && (p.link.unrel == [] || !alloc.unrel)
               && |p.link.unack| < p.link.txWin && p.link.rel != [] && alloc.rel)
    ensures TransmitOk(p, Transmit(p, alloc))
  {
    var l := p.link;
    if l.unrel != [] {
      assert l.unrel == [l.unrel[0]] + l.unrel[1..];
      assert l.unrel[0] in l.unrel;
    }
  }

  lemma SendIsSafe(w: World, alloc: Allocs)
    requires Inv(w)
    ensures Inv(ActA(w, Send(alloc)))
  {
    var l := w.a.link;
    if l.sleep == Awake && (l.unrel == [] || !alloc.unrel) && |l.unack| < l.txWin && l.rel != [] && alloc.rel {
      ReliableOut(w.a, alloc);
    } else {
      PlainOut(w.a, alloc);
    }
    hide PeerOk, FlightOk, Messages, Transmit, Stream;
    var t := Transmit(w.a, alloc);
    if t.out != [] {
      assert t.out == [t.out[0]];
      StreamSend(MAX_WINDOW, Messages(w.a.sent), w.a.culled, w.b.accepted, w.ab, w.ba, t.out[0]);
      StreamAnswer(MAX_WINDOW, Messages(w.b.sent), w.b.culled, w.a.accepted, w.ba, w.ab, t.out[0]);
    } else {
      assert w.ab + t.out == w.ab;
    }
  }

  // A link control message leaves the window alone, unless it resets an active session.
  lemma LinkMessageKeeps(l: Link, data: seq<byte>, len: nat)
    requires len <= |data|
    ensures var n := HandleLink(l, data, len);
      || (l.state == Active && n.state != Active)
      || (&& (l.state == Active ==> n.state == Active)
          && n.unack == l.unack && n.rel == l.rel && n.txSeq == l.txSeq && n.txAck == l.txAck)
  {}

  // What a frame does to the window of a link that it does not reset.
  lemma LinkAfterFrame(l: Link, f: GoodFrame)
    ensures var n := TakeFrame(l, f).link;
      var r := if Accepts(l, f) then CullCount(|l.unack|, l.txSeq, f.ack) else 0;
      || (l.state == Active && n.state != Active)
      || (&& (l.state == Active ==> n.state == Active)
          && n.unack == l.unack[r..] && n.rel == l.rel && n.txSeq == l.txSeq
          && n.txAck == if f.rel && Accepts(l, f) then Next(l.txAck) else l.txAck)
  {
    hide CullCount, HandleLink;
    var l2 := Cull((if f.rel then l.(txAck := Next(l.txAck), ackReq := true) else l).(rxAck := f.ack));
    LinkMessageKeeps(l2, f.payload, MessageLen(f));
  }

  ghost predicate TakeOk(p: Peer, fl: Moving, q: Peer) {
    && q.sent == p.sent
    && q.culled in {p.culled, fl.a}
    && q.accepted ==
       if p.link.state == Active && fl.rel && fl.k == |p.accepted| then p.accepted + [fl.msg] else p.accepted
  }

  lemma NumbersAreAbsolute(p: Peer, fl: Moving)
    requires PeerOk(p) && FlightOk(fl)
    requires p.culled <= fl.a <= p.culled + MAX_WINDOW
    requires fl.rel ==> |p.accepted| <= fl.k + MAX_WINDOW && fl.k <= |p.accepted| + MAX_WINDOW
    ensures CullCount(|p.link.unack|, p.link.txSeq, fl.frame.ack)
      == if fl.a <= p.culled + |p.link.unack| then fl.a - p.culled else 0
    ensures fl.rel ==> (Accepts(p.link, fl.frame) <==> p.link.state == Active && fl.k == |p.accepted|)
  {
    hide CullCount;
    if fl.rel {
      NumberIsUnambiguous(MAX_WINDOW, fl.k, |p.accepted|);
    }
    CullIsAbsolute(MAX_WINDOW, p.culled, |p.link.unack|, fl.a);
  }

  // An endpoint after a frame that does not reset it.
  lemma TakeKeepsPeer(p: Peer, f: GoodFrame)
    requires PeerOk(p) && (f.rel ==> f.chan != LINK_PKT)
    ensures var q := Take(p, f);
      && (PeerOk(q) || q.reset) && q.sent == p.sent
      && q.culled == (if Accepts(p.link, f) then p.culled + CullCount(|p.link.unack|, p.link.txSeq, f.ack) else p.culled)
      && q.accepted == if f.rel && Accepts(p.link, f) then p.accepted + [Message(f.chan, f.payload)] else p.accepted
  {
    LinkAfterFrame(p.link, f);
    assert f.rel && Accepts(p.link, f) ==> p.link.state == Active;
    hide CullCount, TakeFrame, Accepts;
    var l := p.link;
    var r := if Accepts(l, f) then CullCount(|l.unack|, l.txSeq, f.ack) else 0;
    DropMore(l.unack, l.rel, p.sent, p.culled, r);
    assert p.culled + |l.unack| == p.culled + r + |l.unack[r..]|;
  }

  lemma TakeIsLocal(p: Peer, fl: Moving)
    requires PeerOk(p) && FlightOk(fl)
    requires p.culled <= fl.a <= p.culled + MAX_WINDOW
    requires fl.rel ==> |p.accepted| <= fl.k + MAX_WINDOW && fl.k <= |p.accepted| + MAX_WINDOW
    ensures var q := Take(p, fl.frame); (PeerOk(q) || q.reset) && TakeOk(p, fl, q)
  {
    NumbersAreAbsolute(p, fl);
    TakeKeepsPeer(p, fl.frame);
    hide PeerOk, Take, CullCount, Accepts;
  }

  // What goes to a has moved on by a frame.
  lemma ReceivedPath(w: World, q: Peer)
    requires Inv(w) && w.ba != [] && TakeOk(w.a, w.ba[0], q)
    ensures Path(w.b, q, w.ba[1..], w.ab)
  {
    hide FlightOk, Stream, PeerOk, Messages;
    StreamPass(MAX_WINDOW, Messages(w.b.sent), w.b.culled, w.a.accepted, w.ba, w.ab);
    StreamAccept(MAX_WINDOW, Messages(w.b.sent), w.b.culled, w.a.accepted, w.ba, w.ab);
  }

  // What a sent is acknowledged up to where the frame says, or not at all.
  lemma AcknowledgedPath(w: World, q: Peer)
    requires Inv(w) && w.ba != [] && TakeOk(w.a, w.ba[0], q)
    ensures Path(q, w.b, w.ab, w.ba[1..])
  {
    hide FlightOk, Stream, PeerOk, Messages;
    StreamAck(MAX_WINDOW, Messages(w.a.sent), w.a.culled, w.b.accepted, w.ab, w.ba, q.culled);
  }

  lemma TakeFirst(w: World)
    requires Inv(w) && w.ba != []
    ensures var q := Take(w.a, w.ba[0].frame); (PeerOk(q) || q.reset) && TakeOk(w.a, w.ba[0], q)
  {
    hide PeerOk, FlightOk, Stream, Messages, Take;
    FirstFrame(MAX_WINDOW, Messages(w.b.sent), w.b.culled, w.a.accepted, w.ba, w.ab);
    FirstFrame(MAX_WINDOW, Messages(w.a.sent), w.a.culled, w.b.accepted, w.ab, w.ba);
    TakeIsLocal(w.a, w.ba[0]);
  }

  lemma Assembled(w: World, q: Peer)
    requires Inv(w) && w.ba != [] && PeerOk(q)
    requires Path(w.b, q, w.ba[1..], w.ab) && Path(q, w.b, w.ab, w.ba[1..])
    ensures Inv(w.(a := q, ba := w.ba[1..]))
  {
    hide PeerOk, Path;
  }

  // The session is over once an active endpoint was reset by its peer.
  predicate Ended(w: World) { w.a.reset || w.b.reset }

  lemma ActIsSafe(w: World, act: Act)
    requires Inv(w)
    ensures var v := ActA(w, act); Ended(v) || Inv(v)
  {
    match act
    case Submit(skb) => SubmitIsSafe(w, skb);
    case Control(data) => ControlIsSafe(w, data);
    case Send(alloc) => SendIsSafe(w, alloc);
    case Timer => TimerIsSafe(w);
    case Receive =>
      if w.ba != [] {
        var q := Take(w.a, w.ba[0].frame);
        TakeFirst(w);
        ReceivedPath(w, q);
        AcknowledgedPath(w, q);
        hide PeerOk, Take, Path, Inv, TakeOk;
        if !q.reset {
          Assembled(w, q);
        }
      }
    case Lose(i) => LoseIsSafe(w, i);
  }

  /** Runs. */

  function Do(w: World, step: Step): World {
    if step.side == A then ActA(w, step.act) else Flip(ActA(Flip(w), step.act))
  }

  lemma DoIsSafe(w: World, step: Step)
    requires Inv(w)
    ensures var v := Do(w, step); Ended(v) || Inv(v)
  {
    hide ActA;
    FlipKeeps(w);
    if step.side == A {
      ActIsSafe(w, step.act);
    } else {
      ActIsSafe(Flip(w), step.act);
      FlipKeeps(ActA(Flip(w), step.act));
    }
  }

  lemma StaysEnded(w: World, step: Step)
    requires Ended(w)
    ensures Ended(Do(w, step))
  {
    hide TakeFrame, Accepts, Dequeue, Timeout, Enqueue;
  }

  function Run(w: World, steps: seq<Step>): World
    decreases |steps|
  {
    if steps == [] then w else Run(Do(w, steps[0]), steps[1..])
  }

  lemma {:induction false} RunIsSafe(w: World, steps: seq<Step>)
    requires Ended(w) || Inv(w)
    ensures var v := Run(w, steps); Ended(v) || Inv(v)
    decreases |steps|
  {
    hide Inv, Do, Ended;
    if steps != [] {
      if Ended(w) {
        StaysEnded(w, steps[0]);
      } else {
        DoIsSafe(w, steps[0]);
      }
      RunIsSafe(Do(w, steps[0]), steps[1..]);
    }
  }

  // What the invariant gives away about the packets.
  ghost predicate InOrderOnce(w: World) {
    && w.b.accepted <= Messages(w.a.sent) && w.a.accepted <= Messages(w.b.sent)
    && Conserved(w.a) && Conserved(w.b)
  }

  // Released, outstanding and waiting packets are exactly those submitted; at most seven are
  // outstanding.
  ghost predicate Conserved(p: Peer) {
    && p.culled <= |p.sent| && p.sent == p.sent[..p.culled] + p.link.unack + p.link.rel
    && |p.link.unack| <= MAX_WINDOW && p.link.txSeq == (p.culled + |p.link.unack|) % 8
  }

  lemma PeerIsConserved(p: Peer)
    requires PeerOk(p)
    ensures Conserved(p)
  {
    assert p.sent == p.sent[..p.culled] + p.sent[p.culled..];
    assert p.sent[..p.culled] + (p.link.unack + p.link.rel) == p.sent[..p.culled] + p.link.unack + p.link.rel;
  }

  lemma InvGivesOrder(w: World)
    requires Inv(w)
    ensures InOrderOnce(w)
  {
    hide Messages, Direction, FlightOk, PeerOk, Conserved;
    PeerIsConserved(w.a);
    PeerIsConserved(w.b);
  }

  // Over every run of a session, for every window the peers announce and whenever they announce
  // it, until an active endpoint is reset: what an endpoint has accepted is a prefix of what the
  // other was given, in order and without duplicates; nothing given is lost inside an endpoint;
  // and at most seven packets are outstanding.
  lemma ExactlyOnceInOrder(w: World, steps: seq<Step>)
    requires SessionStart(w)
    ensures var v := Run(w, steps); Ended(v) || InOrderOnce(v)
  {
    SessionStartIsSafe(w);
    RunIsSafe(w, steps);
    hide Inv, InOrderOnce, SessionStart;
    if !Ended(Run(w, steps)) {
      InvGivesOrder(Run(w, steps));
    }
  }

  // Both endpoints just opened.
  const BOTH_OPENED: World := World(Peer(OPENED, [], 0, [], false), Peer(OPENED, [], 0, [], false), [], [])

  // In particular, from the opening of both endpoints through link establishment, in which one
  // side may be active and sending before the other, up to the first reset.
  lemma FromOpening(steps: seq<Step>)
    ensures var v := Run(BOTH_OPENED, steps); Ended(v) || InOrderOnce(v)
  {
    ExactlyOnceInOrder(BOTH_OPENED, steps);
  }
}
