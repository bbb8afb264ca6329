// Runs that leave Three-wire (H5) endpoints waiting for ever.
// Source: drivers/blue8852be/hci_h5.c, lines 147-189, 326-385, 447-481 and 737-796.
module H5Witness {
  import opened Bytes
  import opened Framing
  import opened GoBackN
  import opened H5Link
  import opened H5Run
  import opened H5Stall
  import opened H5Progress

  /** One packet whose acknowledgement is lost. */

  ghost predicate Fresh(p: Peer) {
    var l := p.link;
    && p == Peer(l, [], 0, [], false) && l.state == Active && l.sleep == Awake
    && l.unack == [] && l.rel == [] && l.unrel == [] && !l.ackReq
    && l.txSeq == 0 && l.txAck == 0 && l.txWin > 0
  }

  function AckFrame(txAck: Seq8): GoodFrame { Frame(false, 0, txAck, false, ACK_PKT, []) }

  lemma PacketGoesOut(a: Peer, skb: RelSkb)
    requires Fresh(a)
    ensures var t := Transmit(SubmitTo(a, skb), ALL);
      && t.out == [Carry(FrameOf(0, 0, skb), 0, 0)]
      && t.peer.sent == [skb] && t.peer.culled == 0 && t.peer.accepted == [] && !t.peer.reset
      && t.peer.link.unrel == [] && !t.peer.link.ackReq && TimerOk(t.peer.link) && Steady(t.peer.link)
  {}

  lemma PacketTaken(b: Peer, skb: RelSkb)
    requires Fresh(b)
    ensures var q := Take(b, FrameOf(0, 0, skb));
      && q.link == b.link.(txAck := 1, ackReq := true, rxAck := 0, timer := q.link.timer)
      && (b.link.timer ==> q.link.timer || b.link.unack == []) && (q.link.timer ==> b.link.timer)
      && q.sent == [] && q.culled == 0 && |q.accepted| == 1 && !q.reset
  {
    hide HandleLink;
  }

  lemma PacketComesIn(b: Peer, skb: RelSkb)
    requires Fresh(b)
    ensures var t := Transmit(Take(b, FrameOf(0, 0, skb)), ALL);
      && t.out == [Carry(AckFrame(1), 0, 1)]
      && t.peer.sent == [] && |t.peer.accepted| == 1 && !t.peer.reset
      && t.peer.link.unrel == [] && !t.peer.link.ackReq && TimerOk(t.peer.link) && Steady(t.peer.link)
  {
    PacketTaken(b, skb);
    hide Take, FrameOf;
    assert FrameOf(0, 1, Skb(ACK_PKT, [])) == AckFrame(1) by { AckIs(); }
  }

  lemma AckIs()
    ensures FrameOf(0, 1, Skb(ACK_PKT, [])) == AckFrame(1)
  {}

  // The packet is submitted and sent; it is accepted, and its acknowledgement sent and lost.
  lemma FirstHalf(w: World, skb: RelSkb, t: Transmission)
    requires w == World(w.a, w.b, [], []) && t == Transmit(SubmitTo(w.a, skb), ALL)
    ensures Run(w, [Step(A, Submit(skb))] + [Step(A, Send(ALL))]) == World(t.peer, w.b, t.out, [])
  {
    hide SubmitTo, Transmit, Run;
    RunOne(w, Step(A, Submit(skb)));
    RunOne(Do(w, Step(A, Submit(skb))), Step(A, Send(ALL)));
    RunAppend(w, [Step(A, Submit(skb))], [Step(A, Send(ALL))]);
    assert [] + t.out == t.out;
  }

  lemma SecondHalf(w: World, fl: Moving, t: Transmission)
    requires w == World(w.a, w.b, [fl], []) && t == Transmit(Take(w.b, fl.frame), ALL) && |t.out| == 1
    ensures Run(w, [Step(B, Receive)] + [Step(B, Send(ALL))] + [Step(B, Lose(0))]) == World(w.a, t.peer, [], [])
  {
    hide Take, Transmit, Run;
    var s3, s4, s5 := Step(B, Receive), Step(B, Send(ALL)), Step(B, Lose(0));
    RunOne(w, s3);
    var w3 := Do(w, s3);
    RunOne(w3, s4);
    var w4 := Do(w3, s4);
    RunOne(w4, s5);
    RunAppend(w, [s3], [s4]);
    RunAppend(w, [s3] + [s4], [s5]);
    assert [] + t.out == t.out && Without(t.out, 0) == [];
  }

  const LOST_ACK: seq<Step> := [Step(B, Receive)] + [Step(B, Send(ALL))] + [Step(B, Lose(0))]

  lemma LostAckStalls(w: World, skb: RelSkb, lean: bool)
    requires Fresh(w.a) && Fresh(w.b) && w == World(w.a, w.b, [], [])
    ensures var v := Run(w, [Step(A, Submit(skb))] + [Step(A, Send(ALL))] + LOST_ACK);
      Calm(v) && !Recoverable(v, lean)
  {
    FreshStart(w);
    PacketGoesOut(w.a, skb);
    PacketComesIn(w.b, skb);
    hide Inv, SubmitTo, Transmit, Take, FrameOf, Fresh, Run, Steady, TimerOk, Calm, Recoverable;
    var t1 := Transmit(SubmitTo(w.a, skb), ALL);
    var t2 := Transmit(Take(w.b, FrameOf(0, 0, skb)), ALL);
    var first := [Step(A, Submit(skb))] + [Step(A, Send(ALL))];
    FirstHalf(w, skb, t1);
    SecondHalf(World(t1.peer, w.b, t1.out, []), t1.out[0], t2);
    RunAppend(w, first, LOST_ACK);
    RunIsSafe(w, first + LOST_ACK);
    AckLost(t1.peer, t2.peer, lean);
  }

  lemma FreshStart(w: World)
    requires Fresh(w.a) && Fresh(w.b) && w == World(w.a, w.b, [], [])
    ensures Inv(w)
  {
    SessionStartIsSafe(w);
  }

  // One packet outstanding at a, taken by b and never acknowledged.
  lemma AckLost(a: Peer, b: Peer, lean: bool)
    requires Inv(World(a, b, [], [])) && !a.reset && !b.reset
    requires |a.sent| == 1 && a.culled == 0 && a.accepted == [] && b.sent == [] && |b.accepted| == 1
    requires a.link.unrel == [] && !a.link.ackReq && TimerOk(a.link) && Steady(a.link)
    requires b.link.unrel == [] && !b.link.ackReq && TimerOk(b.link) && Steady(b.link)
    ensures Calm(World(a, b, [], [])) && !Recoverable(World(a, b, [], []), lean)
  {
    hide TimerOk, Steady, Stream, FlightOk;
  }

  /** Runs from two fresh endpoints, step by step. */

  // A link in a session, with nothing unreliable queued.
  function Session(unack: seq<RelSkb>, rel: seq<RelSkb>, txSeq: Seq8, txAck: Seq8, ackReq: bool, timer: bool): Link {
    Link(unack, rel, [], txSeq, txAck, 0, TX_WIN_MAX, Active, Awake, ackReq, timer)
  }

  const FRESH: Peer := Peer(Session([], [], 0, 0, false, false), [], 0, [], false)

  const FRESH_WORLD: World := World(FRESH, FRESH, [], [])

  function Of(skb: RelSkb): Message { Message(skb.ptype, skb.data) }

  // The first packet of an endpoint that has accepted nothing yet.
  function Packet(skb: RelSkb): Moving { Carry(FrameOf(0, 0, skb), 0, 0) }

  lemma Then(w: World, past: seq<Step>, mid: World, step: Step)
    requires Run(w, past) == mid
    ensures Run(w, past + [step]) == Do(mid, step)
  {
    RunAppend(w, past, [step]);
    RunOne(mid, step);
    hide Run, Do;
  }

  // x is submitted and sent.
  function Sender(x: RelSkb): Peer { Peer(Session([x], [], 1, 0, false, true), [x], 0, [], false) }

  lemma Sends(x: RelSkb, w: World)
    requires w.a == FRESH
    ensures Do(Do(w, Step(A, Submit(x))), Step(A, Send(ALL))) == World(Sender(x), w.b, w.ab + [Packet(x)], w.ba)
  {
    hide FrameOf;
    var s := Do(w, Step(A, Submit(x)));
    assert s.a == Peer(Session([], [x], 0, 0, false, false), [x], 0, [], false);
    assert [] + [x] == [x] && [x][1..] == [];
  }

  /** An acknowledgement spent on a packet that is dropped. */

  // x sent and y accepted, so far unacknowledged.
  function Exchanged(x: RelSkb, y: RelSkb, ackReq: bool): Peer {
    Peer(Session([x], [], 1, 1, ackReq, true), [x], 0, [Of(y)], false)
  }

  lemma Accepts1(x: RelSkb, y: RelSkb)
    ensures Take(Sender(x), FrameOf(0, 0, y)) == Exchanged(x, y, true)
  {
    assert CullCount(1, 1, 0) == 0;
    hide HandleLink, CullCount;
  }

  lemma Acknowledges1(x: RelSkb, y: RelSkb)
    ensures Transmit(Exchanged(x, y, true), ALL) == Transmission(Exchanged(x, y, false), [Carry(AckFrame(1), 1, 1)])
  {}

  // y rolled back, x accepted.
  function RolledBack(x: RelSkb, y: RelSkb, taken: bool): Peer {
    Peer(Session([], [y], 0, if taken then 1 else 0, taken, false), [y], 0, if taken then [Of(x)] else [], false)
  }

  lemma RollsBack1(x: RelSkb, y: RelSkb)
    ensures Expire(Sender(y)) == RolledBack(x, y, false)
    ensures Take(RolledBack(x, y, false), FrameOf(0, 0, x)) == RolledBack(x, y, true)
  {
    assert [y] + [] == [y];
    hide HandleLink, CullCount;
    assert CullCount(0, 0, 0) == 0;
  }

  // Both submit and send one packet.
  function Crossing(x: RelSkb, y: RelSkb): seq<Step> {
    [Step(A, Submit(x))] + [Step(A, Send(ALL))] + [Step(B, Submit(y))] + [Step(B, Send(ALL))]
  }

  // a takes y and its acknowledgement is lost; b rolls back, and then takes x.
  const SPENT: seq<Step> :=
    [Step(A, Receive)] + [Step(A, Send(ALL))] + [Step(A, Lose(1))] + [Step(B, Timer)] + [Step(B, Receive)]

  function SpentAck(x: RelSkb, y: RelSkb): seq<Step> { Crossing(x, y) + SPENT }

  lemma FirstSends(x: RelSkb)
    ensures Run(FRESH_WORLD, [Step(A, Submit(x))] + [Step(A, Send(ALL))]) == World(Sender(x), FRESH, [Packet(x)], [])
  {
    Sends(x, FRESH_WORLD);
    hide Do, Run, Sender;
    RunOne(FRESH_WORLD, Step(A, Submit(x)));
    Then(FRESH_WORLD, [Step(A, Submit(x))], Do(FRESH_WORLD, Step(A, Submit(x))), Step(A, Send(ALL)));
    assert [] + [Packet(x)] == [Packet(x)];
  }

  lemma CrossingRun(x: RelSkb, y: RelSkb)
    ensures Run(FRESH_WORLD, Crossing(x, y)) == World(Sender(x), Sender(y), [Packet(x)], [Packet(y)])
  {
    var w2 := World(Sender(x), FRESH, [Packet(x)], []);
    FirstSends(x);
    assert [] + [Packet(y)] == [Packet(y)];
    FlippedSends(w2, y, World(Sender(x), Sender(y), [Packet(x)], [Packet(y)]));
    hide Do, Run, Sender;
    var s2 := [Step(A, Submit(x))] + [Step(A, Send(ALL))];
    Then(FRESH_WORLD, s2, w2, Step(B, Submit(y)));
    Then(FRESH_WORLD, s2 + [Step(B, Submit(y))], Do(w2, Step(B, Submit(y))), Step(B, Send(ALL)));
  }

  lemma SpentRun(x: RelSkb, y: RelSkb)
    ensures Run(World(Sender(x), Sender(y), [Packet(x)], [Packet(y)]), SPENT)
      == World(Exchanged(x, y, false), RolledBack(x, y, true), [], [])
  {
    Accepts1(x, y);
    Acknowledges1(x, y);
    RollsBack1(x, y);
    hide Run, SubmitTo, Transmit, Take, Expire, FrameOf, Sender, Exchanged, RolledBack;
    var bare := Carry(AckFrame(1), 1, 1);
    var w4 := World(Sender(x), Sender(y), [Packet(x)], [Packet(y)]);
    var w5 := World(Exchanged(x, y, true), Sender(y), [Packet(x)], []);
    var w6 := World(Exchanged(x, y, false), Sender(y), [Packet(x), bare], []);
    var w7 := World(Exchanged(x, y, false), Sender(y), [Packet(x)], []);
    var w8 := World(Exchanged(x, y, false), RolledBack(x, y, false), [Packet(x)], []);
    RunOne(w4, Step(A, Receive));
    var s5 := [Step(A, Receive)];
    Then(w4, s5, w5, Step(A, Send(ALL)));
    assert [Packet(x)] + [bare] == [Packet(x), bare];
    var s6 := s5 + [Step(A, Send(ALL))];
    Then(w4, s6, w6, Step(A, Lose(1)));
    assert Without([Packet(x), bare], 1) == [Packet(x)];
    var s7 := s6 + [Step(A, Lose(1))];
    Then(w4, s7, w7, Step(B, Timer));
    Then(w4, s7 + [Step(B, Timer)], w8, Step(B, Receive));
  }

  lemma SpentAckRun(x: RelSkb, y: RelSkb)
    ensures Run(FRESH_WORLD, SpentAck(x, y)) == World(Exchanged(x, y, false), RolledBack(x, y, true), [], [])
  {
    hide Run, Sender, Exchanged, RolledBack;
    CrossingRun(x, y);
    SpentRun(x, y);
    RunAppend(FRESH_WORLD, Crossing(x, y), SPENT);
  }

  lemma FlippedSends(w: World, y: RelSkb, v: World)
    requires w.b == FRESH && v == World(w.a, Sender(y), w.ab, w.ba + [Packet(y)])
    ensures Do(Do(w, Step(B, Submit(y))), Step(B, Send(ALL))) == v
  {
    Sends(y, Flip(w));
    hide SubmitTo, Transmit;
  }

  lemma FreshIsSafe(steps: seq<Step>)
    ensures var v := Run(FRESH_WORLD, steps); Ended(v) || Inv(v)
  {
    SessionStartIsSafe(FRESH_WORLD);
    RunIsSafe(FRESH_WORLD, steps);
    hide Run, Inv, Ended;
  }

  // Everything was accepted at both ends, and b owes an acknowledgement; but the packet it rolled
  // back goes first, is dropped at its header, and takes the acknowledgement with it.
  lemma SpentAckStalls(x: RelSkb, y: RelSkb)
    ensures var v := Run(FRESH_WORLD, SpentAck(x, y));
      && Calm(v) && !CanRecover(v) && Recoverable(v, true)
      && v.b.link.ackReq && v.b.accepted == [Of(x)] && v.a.accepted == [Of(y)]
  {
    SpentAckRun(x, y);
    FreshIsSafe(SpentAck(x, y));
    hide Run, Inv;
  }

  /** Link control messages of a peer. */

  function LinkFrame(p: Peer, data: seq<byte>): Moving
    requires |data| <= MAX_PAYLOAD
  {
    Carry(FrameOf(p.link.txSeq, p.link.txAck, Skb(LINK_PKT, data)), p.culled + |p.link.unack|, |p.accepted|)
  }

  // The device behind b says something, and the frame is on its way.
  function Says(data: seq<byte>): seq<Step> { [Step(B, Control(data))] + [Step(B, Send(ALL))] }

  lemma SaysIt(w: World, data: seq<byte>)
    requires |data| <= 3 && w.b.link.sleep == Awake && w.b.link.unrel == []
    ensures Run(w, Says(data)) ==
      World(w.a, w.b.(link := w.b.link.(ackReq := false)), w.ab, w.ba + [LinkFrame(w.b, data)])
  {
    hide FrameOf;
    var w1 := Do(w, Step(B, Control(data)));
    assert [] + [Skb(LINK_PKT, data)] == [Skb(LINK_PKT, data)] && [Skb(LINK_PKT, data)][1..] == [];
    assert w1.b == w.b.(link := w.b.link.(unrel := [Skb(LINK_PKT, data)]));
    RunOne(w, Step(B, Control(data)));
    Then(w, [Step(B, Control(data))], w1, Step(B, Send(ALL)));
    hide Run;
  }

  /** A window that shrinks. */

  const SHRUNK: seq<byte> := CONF_RSP + [0]

  // b accepts x; a rolls back before the acknowledgement, which comes with a smaller window.
  function Shrink(x: RelSkb): seq<Step> {
    [Step(A, Submit(x))] + [Step(A, Send(ALL))] + ([Step(B, Receive)] + [Step(A, Timer)] + Says(SHRUNK) + [Step(A, Receive)])
  }

  const ONE_TAKEN: Link := Session([], [], 0, 1, true, false)

  lemma TakesFirstPacket(x: RelSkb)
    ensures Take(FRESH, FrameOf(0, 0, x)) == Peer(ONE_TAKEN, [], 0, [Of(x)], false)
  {
    assert CullCount(0, 0, 0) == 0;
    hide CullCount, HandleLink;
  }

  lemma RollsBackAlone(x: RelSkb)
    ensures Expire(Sender(x)) == RolledBack(x, x, false)
  {
    assert [x] + [] == [x];
  }

  lemma NewWindow(l: Link)
    ensures HandleLink(l, SHRUNK, 3) == l.(txWin := 0, state := Active)
  {
    assert SHRUNK[0] == 4 && SHRUNK[1] == 0x7b && SHRUNK[2] == 0 && |SHRUNK| == 3;
  }

  lemma TakesNewWindow(x: RelSkb)
    ensures var p := RolledBack(x, x, false);
      Take(p, LinkFrame(Peer(ONE_TAKEN, [], 0, [Of(x)], false), SHRUNK).frame) == p.(link := p.link.(txWin := 0, rxAck := 1))
  {
    var p := RolledBack(x, x, false);
    assert |SHRUNK| == 3 && CullCount(0, 0, 1) == 0;
    NewWindow(p.link.(rxAck := 1));
    hide CullCount, HandleLink;
  }

  lemma ShrinkRun(x: RelSkb)
    ensures var p := RolledBack(x, x, false);
      Run(FRESH_WORLD, Shrink(x)) ==
      World(p.(link := p.link.(txWin := 0, rxAck := 1)),
            Peer(ONE_TAKEN.(ackReq := false), [], 0, [Of(x)], false), [], [])
  {
    FirstSends(x);
    TakesFirstPacket(x);
    RollsBackAlone(x);
    TakesNewWindow(x);
    hide Run, Take, Expire, FrameOf, Sender, RolledBack, LinkFrame;
    var p, b := RolledBack(x, x, false), Peer(ONE_TAKEN, [], 0, [Of(x)], false);
    var w2 := World(Sender(x), FRESH, [Packet(x)], []);
    var w4 := World(p, b, [], []);
    RunOne(w2, Step(B, Receive));
    var s := [Step(B, Receive)];
    Then(w2, s, World(Sender(x), b, [], []), Step(A, Timer));
    SaysIt(w4, SHRUNK);
    var w6 := Run(w4, Says(SHRUNK));
    assert [] + [LinkFrame(b, SHRUNK)] == [LinkFrame(b, SHRUNK)];
    RunAppend(w2, s + [Step(A, Timer)], Says(SHRUNK));
    Then(w2, s + [Step(A, Timer)] + Says(SHRUNK), w6, Step(A, Receive));
    RunAppend(FRESH_WORLD, [Step(A, Submit(x))] + [Step(A, Send(ALL))],
              s + [Step(A, Timer)] + Says(SHRUNK) + [Step(A, Receive)]);
  }

  // So a window shrinks below what was accepted.
  lemma WindowShrinks(x: RelSkb)
    ensures Deaf(Run(FRESH_WORLD, Shrink(x)))
  {
    ShrinkRun(x);
    FreshIsSafe(Shrink(x));
    hide Run, Inv;
  }

  /** A timer lost to the sleep protocol. */

  // x is lost; the peer asks for sleep, the timer fires, and the peer wakes a up again.
  function Doze(x: RelSkb): seq<Step> {
    [Step(A, Submit(x))] + [Step(A, Send(ALL))] + ([Step(A, Lose(0))] + Says(SLEEP_REQ) + [Step(A, Receive)]
      + [Step(A, Timer)] + Says(WAKEUP_REQ) + [Step(A, Receive)] + [Step(A, Send(ALL))] + [Step(B, Receive)])
  }

  // The sender of x, asleep, and awake again with the answer queued.
  function Dozing(x: RelSkb, timer: bool): Peer {
    var p := Sender(x);
    p.(link := p.link.(sleep := Sleeping, timer := timer))
  }

  function Woken(x: RelSkb, unrel: seq<UnrelSkb>): Peer {
    var p := Sender(x);
    p.(link := p.link.(unrel := unrel, timer := false))
  }

  const WOKEN: UnrelSkb := Skb(LINK_PKT, WOKEN_REQ)

  lemma FallsAsleep(x: RelSkb)
    ensures Take(Sender(x), LinkFrame(FRESH, SLEEP_REQ).frame) == Dozing(x, true)
    ensures Expire(Dozing(x, true)) == Dozing(x, false)
  {
    assert SLEEP_REQ[0] == 7 && SLEEP_REQ[1] == 0x78;
    assert CullCount(1, 1, 0) == 0;
    hide CullCount;
  }

  lemma WakeMessages(l: Link)
    ensures HandleLink(l, WAKEUP_REQ, 2) == LinkControl(l, WOKEN_REQ).(sleep := Awake)
    ensures HandleLink(l, WOKEN_REQ, 2) == l.(sleep := Awake)
  {
    assert WAKEUP_REQ[0] == 5 && WOKEN_REQ[0] == 6;
  }

  lemma WakesUp(x: RelSkb)
    ensures Take(Dozing(x, false), LinkFrame(FRESH, WAKEUP_REQ).frame) == Woken(x, [WOKEN])
  {
    assert CullCount(1, 1, 0) == 0;
    WakeMessages(Dozing(x, false).link.(rxAck := 0));
    hide CullCount, HandleLink;
  }

  lemma SaysAwake(x: RelSkb)
    ensures var p := Woken(x, []);
      Transmit(Woken(x, [WOKEN]), ALL) == Transmission(p, [LinkFrame(p, WOKEN_REQ)])
  {
    assert [WOKEN][1..] == [];
  }

  lemma HearsAwake(x: RelSkb)
    ensures Take(FRESH, LinkFrame(Woken(x, []), WOKEN_REQ).frame) == FRESH
  {
    assert CullCount(0, 0, 0) == 0;
    WakeMessages(FRESH.link);
    hide CullCount, HandleLink;
  }

  lemma SleepRun(x: RelSkb)
    ensures Run(World(Sender(x), FRESH, [Packet(x)], []),
                [Step(A, Lose(0))] + Says(SLEEP_REQ) + [Step(A, Receive)] + [Step(A, Timer)])
      == World(Dozing(x, false), FRESH, [], [])
  {
    FallsAsleep(x);
    hide Run, Take, Expire, FrameOf, Sender, Dozing, LinkFrame;
    var w2 := World(Sender(x), FRESH, [Packet(x)], []);
    var w3 := World(Sender(x), FRESH, [], []);
    var f := LinkFrame(FRESH, SLEEP_REQ);
    assert Without([Packet(x)], 0) == [];
    RunOne(w2, Step(A, Lose(0)));
    SaysIt(w3, SLEEP_REQ);
    assert [] + [f] == [f];
    var s := [Step(A, Lose(0))] + Says(SLEEP_REQ);
    RunAppend(w2, [Step(A, Lose(0))], Says(SLEEP_REQ));
    Then(w2, s, World(Sender(x), FRESH, [], [f]), Step(A, Receive));
    Then(w2, s + [Step(A, Receive)], World(Dozing(x, true), FRESH, [], []), Step(A, Timer));
  }

  lemma WakeRun(x: RelSkb)
    ensures Run(World(Dozing(x, false), FRESH, [], []),
                Says(WAKEUP_REQ) + [Step(A, Receive)] + [Step(A, Send(ALL))] + [Step(B, Receive)])
      == World(Woken(x, []), FRESH, [], [])
  {
    WakesUp(x);
    SaysAwake(x);
    HearsAwake(x);
    hide Run, Take, Transmit, FrameOf, Sender, Dozing, Woken, LinkFrame;
    var w := World(Dozing(x, false), FRESH, [], []);
    var f, g := LinkFrame(FRESH, WAKEUP_REQ), LinkFrame(Woken(x, []), WOKEN_REQ);
    SaysIt(w, WAKEUP_REQ);
    assert [] + [f] == [f] && [] + [g] == [g];
    var s := Says(WAKEUP_REQ);
    Then(w, s, World(Dozing(x, false), FRESH, [], [f]), Step(A, Receive));
    Then(w, s + [Step(A, Receive)], World(Woken(x, [WOKEN]), FRESH, [], []), Step(A, Send(ALL)));
    Then(w, s + [Step(A, Receive)] + [Step(A, Send(ALL))], World(Woken(x, []), FRESH, [g], []), Step(B, Receive));
  }

  lemma DozeRun(x: RelSkb)
    ensures Run(FRESH_WORLD, Doze(x)) == World(Woken(x, []), FRESH, [], [])
  {
    hide Run, Sender, Dozing, Woken, Says;
    FirstSends(x);
    SleepRun(x);
    WakeRun(x);
    var s1 := [Step(A, Submit(x))] + [Step(A, Send(ALL))];
    var s2 := [Step(A, Lose(0))] + Says(SLEEP_REQ) + [Step(A, Receive)] + [Step(A, Timer)];
    var s3 := Says(WAKEUP_REQ) + [Step(A, Receive)] + [Step(A, Send(ALL))] + [Step(B, Receive)];
    RunAppend(World(Sender(x), FRESH, [Packet(x)], []), s2, s3);
    RunAppend(FRESH_WORLD, s1, s2 + s3);
    assert Doze(x) == s1 + (s2 + s3);
  }

  // So a timer is lost with a packet outstanding.
  lemma TimerGetsLost(x: RelSkb)
    ensures TimerLost(Run(FRESH_WORLD, Doze(x)))
  {
    DozeRun(x);
    FreshIsSafe(Doze(x));
    hide Run, Inv;
  }
}
