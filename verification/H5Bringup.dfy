// Three-wire (H5) link establishment: from every reachable state, whatever was lost and however
// often the links were reset, exactly when both links can still become active.
// Source: drivers/blue8852be/hci_h5.c, lines 139-210 and 326-385.
module H5Bringup {
  import opened Bytes
  import opened Framing
  import opened GoBackN
  import opened H5Link
  import opened H5Run
  import opened H5Stall
  import opened H5Progress
  import opened H5Service
  import opened H5Wire

  /** What is said. */

  // What a frame says to the link control of its receiver, and a queued packet will say; nothing
  // if it is no link control message.
  function Heard(f: GoodFrame): seq<byte> { if f.chan == 15 then f.payload else [] }

  function Hears(flights: seq<Moving>): seq<seq<byte>> {
    if flights == [] then [] else [Heard(flights[0].frame)] + Hears(flights[1..])
  }

  function Told(skb: UnrelSkb): seq<byte> { if skb.ptype == 15 then skb.data else [] }

  function Tells(skbs: seq<UnrelSkb>): seq<seq<byte>> {
    if skbs == [] then [] else [Told(skbs[0])] + Tells(skbs[1..])
  }

  // Everything said to an endpoint that it has not heard yet: under way, or still queued.
  function ToA(w: World): seq<seq<byte>> { Hears(w.ba) + Tells(w.b.link.unrel) }

  function ToB(w: World): seq<seq<byte>> { Hears(w.ab) + Tells(w.a.link.unrel) }

  // A message is known by its first two octets.
  predicate Is(m: seq<byte>, x: byte, y: byte) { |m| >= 2 && m[0] == x && m[1] == y }

  predicate Says(words: seq<seq<byte>>, x: byte, y: byte) { exists m :: m in words && Is(m, x, y) }

  // A synchronisation or configuration request, or a synchronisation response: each is answered.
  predicate Asks(words: seq<seq<byte>>) {
    Says(words, 0x01, 0x7e) || Says(words, 0x02, 0x7d) || Says(words, 0x03, 0xfc)
  }

  predicate NoSync(words: seq<seq<byte>>) { !Says(words, 0x01, 0x7e) && !Says(words, 0x02, 0x7d) }

  lemma SaysAppend(u: seq<seq<byte>>, v: seq<seq<byte>>, x: byte, y: byte)
    ensures Says(u + v, x, y) == (Says(u, x, y) || Says(v, x, y))
  {
    hide Is;
    forall m
      ensures m in u + v <==> m in u || m in v
    {}
  }

  lemma AllAppend(u: seq<seq<byte>>, v: seq<seq<byte>>)
    ensures Says(u + v, 0x01, 0x7e) == (Says(u, 0x01, 0x7e) || Says(v, 0x01, 0x7e))
    ensures Says(u + v, 0x02, 0x7d) == (Says(u, 0x02, 0x7d) || Says(v, 0x02, 0x7d))
    ensures Says(u + v, 0x03, 0xfc) == (Says(u, 0x03, 0xfc) || Says(v, 0x03, 0xfc))
    ensures Says(u + v, 0x04, 0x7b) == (Says(u, 0x04, 0x7b) || Says(v, 0x04, 0x7b))
    ensures Says(u + v, 0x07, 0x78) == (Says(u, 0x07, 0x78) || Says(v, 0x07, 0x78))
  {
    hide Says;
    SaysAppend(u, v, 0x01, 0x7e);
    SaysAppend(u, v, 0x02, 0x7d);
    SaysAppend(u, v, 0x03, 0xfc);
    SaysAppend(u, v, 0x04, 0x7b);
    SaysAppend(u, v, 0x07, 0x78);
  }

  lemma SaysOne(m: seq<byte>, x: byte, y: byte)
    ensures Says([m], x, y) == Is(m, x, y)
  {
    hide Is;
    assert m in [m];
  }

  lemma SaysNone(x: byte, y: byte)
    ensures !Says([], x, y)
  {}

  lemma {:induction false} TellsAppend(u: seq<UnrelSkb>, v: seq<UnrelSkb>)
    ensures Tells(u + v) == Tells(u) + Tells(v)
    decreases |u|
  {
    hide Told;
    if u == [] {
      assert u + v == v;
    } else {
      TellsAppend(u[1..], v);
      assert (u + v)[1..] == u[1..] + v;
    }
  }

  lemma {:induction false} HearsAppend(u: seq<Moving>, v: seq<Moving>)
    ensures Hears(u + v) == Hears(u) + Hears(v)
    decreases |u|
  {
    hide Heard;
    if u == [] {
      assert u + v == v;
    } else {
      HearsAppend(u[1..], v);
      assert (u + v)[1..] == u[1..] + v;
    }
  }

  lemma HearsOne(fl: Moving)
    ensures Hears([fl]) == [Heard(fl.frame)]
  {
    assert [fl] == [fl] + [];
  }

  lemma TellsOne(skb: UnrelSkb)
    ensures Tells([skb]) == [Told(skb)]
  {
    assert [skb][1..] == [];
  }

  // One more message at the end of the queue.
  lemma Queues(u: seq<UnrelSkb>, d: seq<byte>, x: byte, y: byte)
    requires |d| <= MAX_PAYLOAD
    ensures Says(Tells(u + [Skb(15, d)]), x, y) == (Says(Tells(u), x, y) || Is(d, x, y))
  {
    TellsAppend(u, [Skb(15, d)]);
    TellsOne(Skb(15, d));
    SaysAppend(Tells(u), [d], x, y);
    SaysOne(d, x, y);
    hide Says, Is, Tells;
  }

  lemma AllQueues(u: seq<UnrelSkb>, d: seq<byte>)
    requires |d| <= MAX_PAYLOAD
    ensures var w := Tells(u + [Skb(15, d)]);
      && Says(w, 0x01, 0x7e) == (Says(Tells(u), 0x01, 0x7e) || Is(d, 0x01, 0x7e))
      && Says(w, 0x02, 0x7d) == (Says(Tells(u), 0x02, 0x7d) || Is(d, 0x02, 0x7d))
      && Says(w, 0x03, 0xfc) == (Says(Tells(u), 0x03, 0xfc) || Is(d, 0x03, 0xfc))
      && Says(w, 0x04, 0x7b) == (Says(Tells(u), 0x04, 0x7b) || Is(d, 0x04, 0x7b))
      && Says(w, 0x07, 0x78) == (Says(Tells(u), 0x07, 0x78) || Is(d, 0x07, 0x78))
  {
    hide Says, Is, Tells;
    Queues(u, d, 0x01, 0x7e);
    Queues(u, d, 0x02, 0x7d);
    Queues(u, d, 0x03, 0xfc);
    Queues(u, d, 0x04, 0x7b);
    Queues(u, d, 0x07, 0x78);
  }

  /** What hearing does to a link that is awake. */

  // The state of a link and what it has queued, as far as link establishment goes.
  datatype Stand = Stand(active: bool, timer: bool, words: seq<seq<byte>>)

  function StandOf(l: Link): Stand { Stand(l.state == Active, l.timer, Tells(l.unrel)) }

  // From s to t on hearing words: every question leaves a question queued; only a
  // synchronisation request is answered with a response to one; without synchronisation a link
  // stays active, a configuration response makes it active, and a configuration request leaves
  // a configuration response queued.
  ghost predicate Effect(s: Stand, words: seq<seq<byte>>, t: Stand) {
    && (Asks(s.words) || Asks(words) ==> Asks(t.words))
    && (!Says(s.words, 0x07, 0x78) ==> !Says(t.words, 0x07, 0x78))
    && (!Says(s.words, 0x01, 0x7e) ==> !Says(t.words, 0x01, 0x7e))
    && (NoSync(s.words) && !Says(words, 0x01, 0x7e) ==> NoSync(t.words))
    && (NoSync(words) ==>
        && (s.active || Says(words, 0x04, 0x7b) ==> t.active)
        && (Says(s.words, 0x04, 0x7b) || Says(words, 0x03, 0xfc) ==> Says(t.words, 0x04, 0x7b)))
  }

  // From s to t on hearing words none of which asks: nothing is queued that asks or confirms,
  // the link becomes active on a configuration response only, and a timer that is off stays off.
  ghost predicate Quietly(s: Stand, words: seq<seq<byte>>, t: Stand) {
    !Asks(words) ==>
      && (Asks(t.words) ==> Asks(s.words))
      && (Says(t.words, 0x04, 0x7b) ==> Says(s.words, 0x04, 0x7b))
      && (t.active <==> s.active || Says(words, 0x04, 0x7b))
      && (t.timer ==> s.timer)
  }

  lemma EffectJoin(s: Stand, u: seq<seq<byte>>, m: Stand, v: seq<seq<byte>>, t: Stand)
    requires Effect(s, u, m) && Effect(m, v, t)
    ensures Effect(s, u + v, t)
  {
    AllAppend(u, v);
    hide Says;
  }

  lemma QuietlyJoin(s: Stand, u: seq<seq<byte>>, m: Stand, v: seq<seq<byte>>, t: Stand)
    requires Quietly(s, u, m) && Quietly(m, v, t)
    ensures Quietly(s, u + v, t)
  {
    AllAppend(u, v);
    hide Says;
  }

  // What a single message says.
  lemma OneMessage(m: seq<byte>)
    ensures Says([m], 0x01, 0x7e) == Is(m, 0x01, 0x7e) && Says([m], 0x02, 0x7d) == Is(m, 0x02, 0x7d)
    ensures Says([m], 0x03, 0xfc) == Is(m, 0x03, 0xfc) && Says([m], 0x04, 0x7b) == Is(m, 0x04, 0x7b)
    ensures Says([m], 0x07, 0x78) == Is(m, 0x07, 0x78)
    ensures !Says([], 0x01, 0x7e) && !Says([], 0x02, 0x7d) && !Says([], 0x04, 0x7b) && !Says([], 0x07, 0x78)
  {
    SaysOne(m, 0x01, 0x7e);
    SaysOne(m, 0x02, 0x7d);
    SaysOne(m, 0x03, 0xfc);
    SaysOne(m, 0x04, 0x7b);
    SaysOne(m, 0x07, 0x78);
  }

  // From l to n on hearing words.
  ghost predicate Hearing(l: Link, words: seq<seq<byte>>, n: Link) {
    n.sleep == Awake && Effect(StandOf(l), words, StandOf(n)) && Quietly(StandOf(l), words, StandOf(n))
  }

  // A synchronisation message is answered with d, behind what was queued or instead of it.
  lemma HearsSync(l: Link, m: seq<byte>, n: Link, kept: seq<UnrelSkb>, d: seq<byte>)
    requires kept in {[], l.unrel} && |d| <= MAX_PAYLOAD
    requires n.unrel == kept + [Skb(15, d)] && n.sleep == Awake
    requires (Is(m, 0x01, 0x7e) && Is(d, 0x02, 0x7d)) || (Is(m, 0x02, 0x7d) && Is(d, 0x03, 0xfc))
    ensures Hearing(l, [m], n)
  {
    OneMessage(m);
    AllQueues(kept, d);
    assert Tells([]) == [];
    hide Says, Tells;
  }

  lemma HearsRequest(l: Link, m: seq<byte>, n: Link, c: seq<byte>, d: seq<byte>)
    requires |c| <= MAX_PAYLOAD && |d| <= MAX_PAYLOAD && l.sleep == Awake
    requires n == l.(unrel := (l.unrel + [Skb(15, c)]) + [Skb(15, d)])
    requires Is(m, 0x03, 0xfc) && Is(c, 0x04, 0x7b) && Is(d, 0x03, 0xfc)
    ensures Hearing(l, [m], n)
  {
    OneMessage(m);
    AllQueues(l.unrel, c);
    AllQueues(l.unrel + [Skb(15, c)], d);
    hide Says, Tells;
  }

  lemma HearsWakeup(l: Link, m: seq<byte>, n: Link, d: seq<byte>)
    requires |d| <= MAX_PAYLOAD && l.sleep == Awake
    requires n == l.(unrel := l.unrel + [Skb(15, d)]) && Is(m, 0x05, 0xfa) && Is(d, 0x06, 0xf9)
    ensures Hearing(l, [m], n)
  {
    OneMessage(m);
    AllQueues(l.unrel, d);
    hide Says, Tells;
  }

  lemma HearsOther(l: Link, m: seq<byte>, n: Link)
    requires l.sleep == Awake && !Is(m, 0x01, 0x7e) && !Is(m, 0x02, 0x7d) && !Is(m, 0x03, 0xfc)
    requires n.unrel == l.unrel && n.sleep == l.sleep && (n.timer ==> l.timer)
    requires n.state == if Is(m, 0x04, 0x7b) then Active else l.state
    ensures Hearing(l, [m], n)
  {
    OneMessage(m);
    hide Says, Tells;
  }

  lemma FirstTwo(m: seq<byte>, x: byte, y: byte)
    ensures Is(m, x, y) <==> |m| >= 2 && m[..2] == [x, y]
  {
    if |m| >= 2 {
      assert m[..2] == [m[0], m[1]];
    }
  }

  // A link that hears a message.
  lemma HearsMessage(l: Link, m: seq<byte>)
    requires l.sleep == Awake && !Is(m, 0x07, 0x78)
    ensures Hearing(l, [m], HandleLink(l, m, |m|))
  {
    FirstTwo(m, 0x01, 0x7e);
    FirstTwo(m, 0x02, 0x7d);
    FirstTwo(m, 0x03, 0xfc);
    FirstTwo(m, 0x04, 0x7b);
    FirstTwo(m, 0x05, 0xfa);
    FirstTwo(m, 0x06, 0xf9);
    FirstTwo(m, 0x07, 0x78);
    var kept := if l.state == Active then [] else l.unrel;
    var n := HandleLink(l, m, |m|);
    var c, d := [0x04, 0x7b], [0x03, 0xfc, Window(l)];
    if |m| >= 2 {
      Answers(l, m, |m|);
      assert l.unrel + [Skb(15, c), Skb(15, d)] == (l.unrel + [Skb(15, c)]) + [Skb(15, d)];
    }
    if Is(m, 0x01, 0x7e) || Is(m, 0x02, 0x7d) {
      SyncStaysAwake(l, m);
    }
    hide Hearing, HandleLink;
    if Is(m, 0x01, 0x7e) {
      HearsSync(l, m, n, kept, [0x02, 0x7d]);
    } else if Is(m, 0x02, 0x7d) {
      HearsSync(l, m, n, kept, d);
    } else if Is(m, 0x03, 0xfc) {
      HearsRequest(l, m, n, c, d);
    } else if Is(m, 0x05, 0xfa) {
      HearsWakeup(l, m, n, [0x06, 0xf9]);
    } else {
      if !Is(m, 0x04, 0x7b) && !Is(m, 0x06, 0xf9) {
        OthersIgnored(l, m, |m|);
      }
      HearsOther(l, m, n);
    }
  }

  lemma SyncStaysAwake(l: Link, m: seq<byte>)
    requires l.sleep == Awake && |m| >= 2 && (m[..2] == [0x01, 0x7e] || m[..2] == [0x02, 0x7d])
    ensures HandleLink(l, m, |m|).sleep == Awake
  {
    Pairs(m);
    assert m[..2] == [m[0], m[1]];
  }

  lemma HearsFrame(l: Link, f: GoodFrame)
    requires PlainFrame(f) && l.sleep == Awake && !Is(Heard(f), 0x07, 0x78)
    ensures Hearing(l, [Heard(f)], TakeFrame(l, f).link)
  {
    if f.chan == 15 {
      LinkFrameAnswered(l, f);
      var seen := Cull(l.(rxAck := f.ack));
      assert TakeFrame(l, f).link == HandleLink(seen, f.payload, |f.payload|) by { hide CullCount, HandleLink; }
      HearsMessage(seen, f.payload);
      assert seen.unrel == l.unrel && seen.state == l.state && (seen.timer ==> l.timer);
      SeenHears(l, seen, f.payload, TakeFrame(l, f).link);
    } else {
      NotControl(l, f);
      hide TakeFrame;
      HearsOther(l, [], TakeFrame(l, f).link);
    }
  }

  lemma NotControl(l: Link, f: GoodFrame)
    requires f.chan != 15
    ensures var n := TakeFrame(l, f).link;
      n.unrel == l.unrel && n.state == l.state && n.sleep == l.sleep && (n.timer ==> l.timer)
  {
    hide CullCount, HandleLink;
  }

  lemma SeenHears(l: Link, seen: Link, m: seq<byte>, n: Link)
    requires seen.unrel == l.unrel && seen.state == l.state && (seen.timer ==> l.timer)
    requires Hearing(seen, [m], n)
    ensures Hearing(l, [m], n)
  {
    hide Says, Tells;
  }

  /** Everything said is heard: a sends what it has queued, and b takes what is under way. */

  predicate Helps(step: Step) { step.act in {Send(ALL), Timer, Receive} }

  predicate HelpfulRun(steps: seq<Step>) { forall step :: step in steps ==> Helps(step) }

  lemma NothingHeard(l: Link)
    requires l.sleep == Awake
    ensures Hearing(l, [], l)
  {
    hide Tells;
  }

  lemma ThenHears(l: Link, m: seq<byte>, mid: Link, words: seq<seq<byte>>, n: Link)
    requires Hearing(l, [m], mid) && Hearing(mid, words, n)
    ensures Hearing(l, [m] + words, n)
  {
    hide Effect, Quietly;
    EffectJoin(StandOf(l), [m], StandOf(mid), words, StandOf(n));
    QuietlyJoin(StandOf(l), [m], StandOf(mid), words, StandOf(n));
  }

  lemma NoSleepIn(m: seq<byte>, words: seq<seq<byte>>)
    requires !Says([m] + words, 0x07, 0x78)
    ensures !Is(m, 0x07, 0x78) && !Says(words, 0x07, 0x78)
  {
    SaysAppend([m], words, 0x07, 0x78);
    SaysOne(m, 0x07, 0x78);
    hide Says;
  }

  lemma {:induction false} HearAll(w: World) returns (steps: seq<Step>)
    requires w.b.link.sleep == Awake && Plain(w.ab) && !Says(Hears(w.ab), 0x07, 0x78)
    ensures HelpfulRun(steps)
    ensures var v := Run(w, steps);
      v.a == w.a && v.ba == w.ba && v.ab == [] && Hearing(w.b.link, Hears(w.ab), v.b.link)
    decreases |w.ab|
  {
    if w.ab == [] {
      steps := [];
      NothingHeard(w.b.link);
    } else {
      var f := w.ab[0].frame;
      var step := Step(B, Receive);
      NoSleepIn(Heard(f), Hears(w.ab[1..]));
      HearsFrame(w.b.link, f);
      var mid := Do(w, step);
      Received(w);
      assert Hears(w.ab) == [Heard(f)] + Hears(mid.ab);
      hide Do, TakeFrame, Hearing, Says, Hears, Plain;
      var more := HearAll(mid);
      steps := [step] + more;
      assert steps[1..] == more;
      ThenHears(w.b.link, Heard(f), mid.b.link, Hears(mid.ab), Run(w, steps).b.link);
    }
  }

  lemma Received(w: World)
    requires w.ab != [] && Plain(w.ab)
    ensures var v := Do(w, Step(B, Receive));
      && v.a == w.a && v.ba == w.ba && v.ab == w.ab[1..] && Plain(v.ab)
      && v.b.link == TakeFrame(w.b.link, w.ab[0].frame).link
  {
    hide TakeFrame, PlainFrame;
  }

  lemma SendsOne(w: World)
    requires w.a.link.sleep == Awake && w.a.link.unrel != [] && Plain(w.ab)
    ensures var v := Do(w, Step(A, Send(ALL)));
      && v.b == w.b && v.ba == w.ba && Plain(v.ab) && v.a.link.unrel == w.a.link.unrel[1..]
      && v.a.link.state == w.a.link.state && v.a.link.sleep == Awake && v.a.link.timer == w.a.link.timer
      && Hears(v.ab) == Hears(w.ab) + [Told(w.a.link.unrel[0])]
  {
    var l := w.a.link;
    DequeuePlain(l, ALL);
    var f := FrameOf(l.txSeq, l.txAck, l.unrel[0]);
    assert Heard(f) == Told(l.unrel[0]);
    var fl := Carry(f, w.a.culled + |l.unack|, |w.a.accepted|);
    HearsAppend(w.ab, [fl]);
    HearsOne(fl);
    hide Hears, PlainFrame, FrameOf;
    assert Dequeue(l, ALL).frame == Some(f);
  }

  lemma {:induction false} SendAll(w: World) returns (steps: seq<Step>)
    requires w.a.link.sleep == Awake && Plain(w.ab)
    ensures HelpfulRun(steps)
    ensures var v := Run(w, steps);
      && v.b == w.b && v.ba == w.ba && Plain(v.ab) && v.a.link.unrel == []
      && v.a.link.state == w.a.link.state && v.a.link.sleep == Awake && v.a.link.timer == w.a.link.timer
      && Hears(v.ab) == ToB(w)
    decreases |w.a.link.unrel|
  {
    if w.a.link.unrel == [] {
      steps := [];
      assert Hears(w.ab) + [] == Hears(w.ab);
    } else {
      SendsOne(w);
      var step := Step(A, Send(ALL));
      var mid := Do(w, step);
      var first, rest := Told(w.a.link.unrel[0]), Tells(w.a.link.unrel[1..]);
      assert Tells(w.a.link.unrel) == [first] + rest;
      hide Do, Hears, Plain, Tells, Told;
      var more := SendAll(mid);
      steps := [step] + more;
      assert steps[1..] == more;
      assert Hears(w.ab) + [first] + rest == Hears(w.ab) + ([first] + rest);
    }
  }

  // Awake, with usual frames, and saying nothing that would put the other to sleep.
  ghost predicate Fit(w: World) {
    && w.a.link.sleep == Awake && w.b.link.sleep == Awake && Plain(w.ab) && Plain(w.ba)
    && !Says(ToA(w), 0x07, 0x78) && !Says(ToB(w), 0x07, 0x78)
  }

  // After everything said to b was heard, in terms of what was said before.
  ghost predicate Delivered(w: World, v: World) {
    && Fit(v) && ToB(v) == []
    && v.a.link.unrel == [] && v.ba == w.ba && (v.a.link.state == Active <==> w.a.link.state == Active)
    && Effect(StandOf(w.b.link), ToB(w), StandOf(v.b.link))
  }

  lemma Deliver(w: World) returns (steps: seq<Step>)
    requires Fit(w)
    ensures HelpfulRun(steps) && Delivered(w, Run(w, steps))
  {
    hide Run, Effect, Quietly, Plain, Says;
    var s1 := SendAll(w);
    var mid := Run(w, s1);
    var s2 := HearAll(mid);
    steps := s1 + s2;
    H5Progress.RunAppend(w, s1, s2);
    var v := Run(w, steps);
    AllSaid(w, v);
  }

  lemma AllSaid(w: World, v: World)
    requires v.ab == [] && v.a.link.unrel == [] && v.ba == w.ba
    requires !Says(ToA(w), 0x07, 0x78) && Effect(StandOf(w.b.link), ToB(w), StandOf(v.b.link))
    ensures ToB(v) == [] && !Says(ToB(v), 0x07, 0x78) && !Says(ToA(v), 0x07, 0x78) && Plain(v.ab)
  {
    SaysAppend(Hears(w.ba), Tells(w.b.link.unrel), 0x07, 0x78);
    SaysAppend(Hears(v.ba), Tells(v.b.link.unrel), 0x07, 0x78);
    assert Hears([]) == [];
  }

  /** Worlds that a loss-free run of timers, sending and receiving leads to. */

  ghost predicate Leads(w: World, v: World) { exists steps :: HelpfulRun(steps) && Run(w, steps) == v }

  lemma LeadsBy(w: World, steps: seq<Step>)
    requires HelpfulRun(steps)
    ensures Leads(w, Run(w, steps))
  {}

  lemma LeadsOn(w: World, v: World, u: World)
    requires Leads(w, v) && Leads(v, u)
    ensures Leads(w, u)
  {
    hide Run, Helps;
    var s :| HelpfulRun(s) && Run(w, s) == v;
    var t :| HelpfulRun(t) && Run(v, t) == u;
    H5Progress.RunAppend(w, s, t);
    assert HelpfulRun(s + t);
  }

  lemma LeadsFlipped(w: World, v: World)
    requires Leads(w, v)
    ensures Leads(Flip(w), Flip(v))
  {
    hide Run;
    var s :| HelpfulRun(s) && Run(w, s) == v;
    RunFlipped(w, s);
    assert HelpfulRun(FlipSteps(s)) by {
      forall step | step in FlipSteps(s)
        ensures Helps(step)
      {
        var i :| 0 <= i < |s| && step == FlipSteps(s)[i];
        assert s[i] in s;
      }
    }
  }

  // Everything said to b is heard, and the endpoints change places.
  lemma Turn(w: World) returns (v: World)
    requires Fit(w)
    ensures Leads(w, Flip(v)) && Delivered(w, Flip(v)) && Fit(v)
  {
    hide Effect, Plain, Says, Run;
    var steps := Deliver(w);
    LeadsBy(w, steps);
    v := Flip(Run(w, steps));
  }

  // A turn when b has nothing to say itself.
  lemma TurnAnswered(w: World, v: World)
    requires ToA(w) == [] && w.b.link.unrel == [] && Delivered(w, Flip(v))
    ensures ToA(v) == [] && v.b.link.unrel == [] && !Says(ToB(v), 0x01, 0x7e)
    ensures Asks(ToB(w)) ==> Asks(ToB(v))
    ensures !Says(ToB(w), 0x01, 0x7e) ==> NoSync(ToB(v))
    ensures NoSync(ToB(w)) && (w.b.link.state == Active || Says(ToB(w), 0x04, 0x7b)) ==> v.a.link.state == Active
    ensures NoSync(ToB(w)) && Says(ToB(w), 0x03, 0xfc) ==> Says(ToB(v), 0x04, 0x7b)
    ensures v.b.link.state == Active <==> w.a.link.state == Active
  {
    assert Hears(w.ba) == [];
    assert ToB(v) == Tells(v.a.link.unrel);
    assert Tells(w.b.link.unrel) == [];
    OneMessage([]);
    hide Says;
  }

  // The first turn keeps every question, and every confirmation unless b was asked to synchronise.
  lemma FirstTurn(w: World, v: World)
    requires Delivered(w, Flip(v))
    ensures ToA(v) == [] && v.b.link.unrel == []
    ensures Asks(ToA(w)) || Asks(ToB(w)) ==> Asks(ToB(v))
    ensures !Asks(ToA(w)) && !Asks(ToB(w)) ==>
      && NoSync(ToB(v)) && (Says(ToA(w), 0x04, 0x7b) ==> Says(ToB(v), 0x04, 0x7b))
      && (w.b.link.state == Active || Says(ToB(w), 0x04, 0x7b) ==> v.a.link.state == Active)
    ensures v.b.link.state == Active <==> w.a.link.state == Active
  {
    AllAppend(Hears(w.ba), Tells(w.b.link.unrel));
    AllAppend(Hears(w.ba), Tells(v.a.link.unrel));
    hide Says;
  }

  predicate BothActive(w: World) { w.a.link.state == Active && w.b.link.state == Active }

  ghost predicate ComesUp(w: World) { exists v :: Leads(w, v) && BothActive(v) }

  // Two turns lead where they lead, with everyone back in place.
  lemma TwoTurns(w: World, u: World, v: World)
    requires Leads(w, Flip(u)) && Leads(u, Flip(v))
    ensures Leads(w, v)
  {
    hide Leads;
    LeadsFlipped(u, Flip(v));
    LeadsOn(w, Flip(u), v);
  }

  // A question on its way brings both links up: after two turns only responses are on their way,
  // after three only configuration requests and responses; the next two make both links active.
  lemma AskedComesUp(w: World)
    requires Fit(w) && (Asks(ToA(w)) || Asks(ToB(w)))
    ensures ComesUp(w)
  {
    hide Fit, Delivered, Leads, Says, ToA, ToB;
    var w1 := Turn(w);
    FirstTurn(w, w1);
    var w2 := Turn(w1);
    TurnAnswered(w1, w2);
    var w3 := Turn(w2);
    TurnAnswered(w2, w3);
    var w4 := Turn(w3);
    TurnAnswered(w3, w4);
    var w5 := Turn(w4);
    TurnAnswered(w4, w5);
    var w6 := Turn(w5);
    TurnAnswered(w5, w6);
    TwoTurns(w, w1, w2);
    TwoTurns(w2, w3, w4);
    TwoTurns(w4, w5, w6);
    LeadsOn(w, w2, w4);
    LeadsOn(w, w4, w6);
    assert BothActive(w6);
  }

  lemma ConfirmedComesUp(w: World)
    requires Fit(w) && !Asks(ToA(w)) && !Asks(ToB(w))
    requires w.a.link.state == Active || Says(ToA(w), 0x04, 0x7b)
    requires w.b.link.state == Active || Says(ToB(w), 0x04, 0x7b)
    ensures ComesUp(w)
  {
    hide Fit, Delivered, Leads, Says, ToA, ToB;
    var w1 := Turn(w);
    FirstTurn(w, w1);
    var w2 := Turn(w1);
    TurnAnswered(w1, w2);
    TwoTurns(w, w1, w2);
    assert BothActive(w2);
  }

  // The timer of a link that is not active asks again.
  lemma TimerAsks(w: World)
    requires Fit(w) && w.a.link.state != Active && w.a.link.timer
    ensures var v := Do(w, Step(A, Timer)); Fit(v) && Asks(ToB(v)) && Leads(w, v)
  {
    var l, v := w.a.link, Do(w, Step(A, Timer));
    TimerFires(l);
    var d := if l.state == Uninitialized then [0x01, 0x7e] else [0x03, 0xfc, Window(l)];
    AllQueues(l.unrel, d);
    AllAppend(Hears(w.ab), Tells(l.unrel));
    AllAppend(Hears(w.ab), Tells(v.a.link.unrel));
    hide Says, Plain, Tells;
    assert Run(w, [Step(A, Timer)]) == v by { assert [Step(A, Timer)][1..] == []; }
    LeadsBy(w, [Step(A, Timer)]);
  }

  lemma ComesUpLater(w: World, v: World)
    requires Leads(w, v) && ComesUp(v)
    ensures ComesUp(w)
  {
    hide Leads;
    var u :| Leads(v, u) && BothActive(u);
    LeadsOn(w, v, u);
  }

  lemma ComesUpFlipped(w: World)
    requires ComesUp(Flip(w))
    ensures ComesUp(w)
  {
    hide Leads;
    var u :| Leads(Flip(w), u) && BothActive(u);
    LeadsFlipped(Flip(w), u);
    assert BothActive(Flip(u));
  }

  // The condition: something is on its way that will be answered, or a link that is not active
  // has its timer armed, or what each link still lacks to be active is on its way to it.
  predicate CanComeUp(w: World) {
    || Asks(ToA(w)) || Asks(ToB(w))
    || (w.a.link.state != Active && w.a.link.timer)
    || (w.b.link.state != Active && w.b.link.timer)
    || (&& (w.a.link.state == Active || Says(ToA(w), 0x04, 0x7b))
        && (w.b.link.state == Active || Says(ToB(w), 0x04, 0x7b)))
  }

  lemma TimerComesUp(w: World)
    requires Fit(w) && w.a.link.state != Active && w.a.link.timer
    ensures ComesUp(w)
  {
    TimerAsks(w);
    hide Fit, Asks, Leads, ComesUp;
    var v := Do(w, Step(A, Timer));
    AskedComesUp(v);
    ComesUpLater(w, v);
  }

  lemma LinksComeUp(w: World)
    requires Fit(w) && CanComeUp(w)
    ensures ComesUp(w)
  {
    hide Asks, Says, ComesUp, Plain;
    if Asks(ToA(w)) || Asks(ToB(w)) {
      AskedComesUp(w);
    } else if w.a.link.state != Active && w.a.link.timer {
      TimerComesUp(w);
    } else if w.b.link.state != Active && w.b.link.timer {
      TimerComesUp(Flip(w));
      ComesUpFlipped(w);
    } else {
      ConfirmedComesUp(w);
    }
  }

  /** Every step keeps the links fit, and without new link control messages a pair that cannot
      come up stays down. */

  // Nothing is said in u that is not said in v.
  predicate Within(u: seq<seq<byte>>, v: seq<seq<byte>>) { forall m :: m in u ==> m in v || m == [] }

  lemma WithinSays(u: seq<seq<byte>>, v: seq<seq<byte>>, x: byte, y: byte)
    requires Within(u, v)
    ensures Says(u, x, y) ==> Says(v, x, y)
  {}

  lemma AllWithin(u: seq<seq<byte>>, v: seq<seq<byte>>)
    requires Within(u, v)
    ensures Asks(u) ==> Asks(v)
    ensures Says(u, 0x04, 0x7b) ==> Says(v, 0x04, 0x7b)
    ensures Says(u, 0x07, 0x78) ==> Says(v, 0x07, 0x78)
  {
    hide Says, Within;
    WithinSays(u, v, 0x01, 0x7e);
    WithinSays(u, v, 0x02, 0x7d);
    WithinSays(u, v, 0x03, 0xfc);
    WithinSays(u, v, 0x04, 0x7b);
    WithinSays(u, v, 0x07, 0x78);
  }

  lemma LoseSays(w: World, i: nat)
    requires i < |w.ab|
    ensures Within(ToB(Do(w, Step(A, Lose(i)))), ToB(w))
  {
    var fl := w.ab[i];
    assert w.ab == w.ab[..i] + [fl] + w.ab[i + 1..];
    HearsAppend(w.ab[..i] + [fl], w.ab[i + 1..]);
    HearsAppend(w.ab[..i], [fl]);
    HearsAppend(w.ab[..i], w.ab[i + 1..]);
    hide Hears, Tells;
  }

  // What a link that is awake sends was queued, or is no link control message.
  lemma DequeueSays(l: Link, alloc: Allocs)
    requires l.sleep == Awake
    ensures var s := Dequeue(l, alloc);
      && s.link.sleep == Awake && s.link.state == l.state
      && (s.link.timer ==> l.timer || l.rel != [])
      && (s.link.unrel == l.unrel || (l.unrel != [] && s.link.unrel == l.unrel[1..]))
      && (s.frame.Some? ==>
          Heard(s.frame.value) == if s.link.unrel == l.unrel then [] else Told(l.unrel[0]))
      && (s.frame.None? ==> s.link.unrel == l.unrel)
  {}

  lemma SendSays(w: World, alloc: Allocs)
    requires w.a.link.sleep == Awake
    ensures Within(ToB(Do(w, Step(A, Send(alloc)))), ToB(w))
  {
    var l := w.a.link;
    DequeueSays(l, alloc);
    hide Dequeue;
    var t := Transmit(w.a, alloc);
    HearsAppend(w.ab, t.out);
    if t.out != [] {
      HearsOne(t.out[0]);
      assert t.out == [t.out[0]];
    }
    hide Hears, Told, Heard;
  }

  // Submitting says nothing.
  lemma SubmitSays(w: World, skb: Skb)
    requires w.a.link.sleep == Awake
    ensures var v := Do(w, Step(A, Submit(skb)));
      && Within(ToB(v), ToB(w)) && v.a.link.sleep == Awake
      && v.a.link.state == w.a.link.state && v.a.link.timer == w.a.link.timer
  {
    var l := w.a.link;
    if l.state == Active && |skb.data| <= 4095 && skb.ptype in {3, 5} {
      TellsAppend(l.unrel, [skb]);
      TellsOne(skb);
    }
    hide Hears, Tells;
  }

  lemma ControlSays(w: World, data: seq<byte>, x: byte, y: byte)
    requires !Is(data, x, y)
    ensures Says(ToB(Do(w, Step(A, Control(data)))), x, y) ==> Says(ToB(w), x, y)
  {
    if |data| <= MAX_PAYLOAD {
      Queues(w.a.link.unrel, data, x, y);
      SaysAppend(Hears(w.ab), Tells(w.a.link.unrel), x, y);
      SaysAppend(Hears(w.ab), Tells(w.a.link.unrel + [Skb(15, data)]), x, y);
    }
    hide Says;
  }

  // In a session the timer says nothing; outside one it never says to sleep.
  lemma ExpireSays(w: World)
    requires w.a.link.sleep == Awake
    ensures var v := Do(w, Step(A, Timer));
      && v.a.link.sleep == Awake && v.a.link.state == w.a.link.state
      && (Says(ToB(v), 0x07, 0x78) ==> Says(ToB(w), 0x07, 0x78))
      && (!w.a.link.timer || w.a.link.state == Active ==>
          Within(ToB(v), ToB(w)) && (v.a.link.timer ==> w.a.link.timer))
  {
    var l := w.a.link;
    TimerFires(l);
    if l.timer && l.state != Active {
      var d := if l.state == Uninitialized then [0x01, 0x7e] else [0x03, 0xfc, Window(l)];
      ControlSays(w, d, 0x07, 0x78);
    }
    hide Says, Tells, Hears;
  }

  // Hearing the first message under way.
  lemma ReceiveSays(w: World)
    requires w.a.link.sleep == Awake && Plain(w.ba) && !Says(ToA(w), 0x07, 0x78) && w.ba != []
    ensures var v := Do(w, Step(A, Receive));
      && Hearing(w.a.link, [Heard(w.ba[0].frame)], v.a.link) && Within(ToA(v), ToA(w))
      && Heard(w.ba[0].frame) in ToA(w) && v.b == w.b && v.ab == w.ab
  {
    var m := Heard(w.ba[0].frame);
    assert m in Hears(w.ba);
    HearsFrame(w.a.link, w.ba[0].frame);
    hide TakeFrame, Hearing;
  }

  lemma SaysPart(words: seq<seq<byte>>, m: seq<byte>)
    requires m in words
    ensures Within([m], words)
  {}

  // A step of a keeps the links fit, unless it is the message that puts the other to sleep.
  lemma ActKeepsFit(w: World, act: Act)
    requires Fit(w) && (act.Control? ==> !Is(act.data, 0x07, 0x78))
    ensures Fit(Do(w, Step(A, act)))
  {
    PlainStays(w, act);
    var v := Do(w, Step(A, act));
    hide Says, Plain, Hears, Tells;
    match act
    case Submit(skb) => SubmitSays(w, skb); AllWithin(ToB(v), ToB(w));
    case Control(data) => ControlSays(w, data, 0x07, 0x78);
    case Send(alloc) =>
      DequeueSays(w.a.link, alloc);
      SendSays(w, alloc);
      AllWithin(ToB(v), ToB(w));
    case Timer => ExpireSays(w);
    case Receive => if w.ba != [] { ReceiveFit(w); }
    case Lose(i) => if i < |w.ab| { LoseSays(w, i); AllWithin(ToB(v), ToB(w)); }
  }

  lemma ReceiveFit(w: World)
    requires Fit(w) && w.ba != []
    ensures var v := Do(w, Step(A, Receive));
      v.a.link.sleep == Awake && !Says(ToA(v), 0x07, 0x78) && !Says(ToB(v), 0x07, 0x78)
  {
    ReceiveSays(w);
    var v := Do(w, Step(A, Receive));
    AllWithin(ToA(v), ToA(w));
    AllAppend(Hears(w.ab), Tells(w.a.link.unrel));
    AllAppend(Hears(v.ab), Tells(v.a.link.unrel));
    hide Says, Do, Hears, Tells;
  }

  // Fit, and both links in order.
  ghost predicate Sound(w: World) { Fit(w) && LinkOk(w.a.link) && LinkOk(w.b.link) }

  lemma ActKeepsLink(w: World, act: Act)
    requires LinkOk(w.a.link)
    ensures LinkOk(Do(w, Step(A, act)).a.link) && Do(w, Step(A, act)).b == w.b
  {
    match act
    case Submit(skb) => EnqueueKeeps(w.a.link, skb);
    case Control(data) =>
    case Send(alloc) => DequeueKeeps(w.a.link, alloc); hide Dequeue;
    case Timer => TimeoutKeeps(w.a.link);
    case Receive => if w.ba != [] { TakeFrameKeeps(w.a.link, w.ba[0].frame); } hide TakeFrame;
    case Lose(i) =>
  }

  lemma ActKeepsSound(w: World, act: Act)
    requires Sound(w) && (act.Control? ==> !Is(act.data, 0x07, 0x78))
    ensures Sound(Do(w, Step(A, act)))
  {
    hide Fit, LinkOk, Do;
    ActKeepsFit(w, act);
    ActKeepsLink(w, act);
  }

  lemma SoundFlipped(w: World)
    ensures Sound(Flip(w)) == Sound(w)
  {
    hide Says, Plain, LinkOk;
  }

  // No device has the other end put to sleep.
  predicate NoSleepStep(step: Step) { step.act.Control? ==> !Is(step.act.data, 0x07, 0x78) }

  predicate NoSleepRun(steps: seq<Step>) { forall step :: step in steps ==> NoSleepStep(step) }

  lemma DoKeepsSound(w: World, step: Step)
    requires Sound(w) && NoSleepStep(step)
    ensures Sound(Do(w, step))
  {
    SoundFlipped(w);
    if step.side == A {
      ActKeepsSound(w, step.act);
    } else {
      ActKeepsSound(Flip(w), step.act);
      SoundFlipped(Do(w, step));
      hide ActA;
    }
    hide Sound;
  }

  lemma {:induction false} RunKeepsSound(w: World, steps: seq<Step>)
    requires Sound(w) && NoSleepRun(steps)
    ensures Sound(Run(w, steps))
    decreases |steps|
  {
    hide Sound, Do, NoSleepStep;
    if steps != [] {
      DoKeepsSound(w, steps[0]);
      RunKeepsSound(Do(w, steps[0]), steps[1..]);
    }
  }

  lemma OpenedIsSound()
    ensures Sound(BOTH_OPENED)
  {
    var u := [Skb(LINK_PKT, SYNC_REQ)];
    TellsOne(u[0]);
    OneMessage(SYNC_REQ);
    assert Hears([]) + Tells(u) == [SYNC_REQ];
    hide Says;
  }

  /** Staying down. */

  // A step of a that is not a reception.
  lemma ActStaysDown(w: World, act: Act)
    requires Sound(w) && !CanComeUp(w) && !act.Control? && !act.Receive?
    ensures !CanComeUp(Do(w, Step(A, act)))
  {
    var v := Do(w, Step(A, act));
    assert v.a.link.state == w.a.link.state && v.b == w.b && ToA(v) == ToA(w)
      && Within(ToB(v), ToB(w)) && (v.a.link.timer ==> w.a.link.timer || w.a.link.state == Active) by {
      hide Says, Plain, Hears, Tells;
      match act
      case Submit(skb) => SubmitSays(w, skb);
      case Send(alloc) =>
        DequeueSays(w.a.link, alloc);
        SendSays(w, alloc);
      case Timer => ExpireSays(w);
      case Lose(i) => if i < |w.ab| { LoseSays(w, i); }
    }
    AllWithin(ToB(v), ToB(w));
    hide Says, Do, ToA, ToB, Asks;
  }

  lemma ReceiveStaysDown(w: World)
    requires Sound(w) && !CanComeUp(w) && w.ba != []
    ensures !CanComeUp(Do(w, Step(A, Receive)))
  {
    var v := Do(w, Step(A, Receive));
    var m := Heard(w.ba[0].frame);
    ReceiveSays(w);
    AllWithin(ToA(v), ToA(w));
    SaysPart(ToA(w), m);
    AllWithin([m], ToA(w));
    AllAppend(Hears(w.ab), Tells(w.a.link.unrel));
    AllAppend(Hears(v.ab), Tells(v.a.link.unrel));
    hide Says, Do, Hears, Tells, Plain;
  }

  lemma StaysDown(w: World, step: Step)
    requires Sound(w) && !CanComeUp(w) && !step.act.Control?
    ensures Sound(Do(w, step)) && !CanComeUp(Do(w, step))
  {
    DoKeepsSound(w, step);
    SoundFlipped(w);
    var u := if step.side == A then w else Flip(w);
    var v := Do(u, Step(A, step.act));
    assert !CanComeUp(u) by { hide Says, Tells, Hears; }
    assert !CanComeUp(v) by {
      hide Sound, CanComeUp;
      if step.act.Receive? {
        if u.ba != [] { ReceiveStaysDown(u); }
      } else {
        ActStaysDown(u, step.act);
      }
    }
    hide Says, Tells, Hears, ActA;
  }

  // No device adds link control messages of its own.
  predicate Undisturbed(steps: seq<Step>) { forall step :: step in steps ==> !step.act.Control? }

  lemma {:induction false} StaysDownOverRun(w: World, steps: seq<Step>)
    requires Sound(w) && !CanComeUp(w) && Undisturbed(steps)
    ensures !CanComeUp(Run(w, steps))
    decreases |steps|
  {
    hide Sound, Do, CanComeUp;
    if steps != [] {
      StaysDown(w, steps[0]);
      StaysDownOverRun(Do(w, steps[0]), steps[1..]);
    }
  }

  // From every world reachable from the opening of both endpoints, whatever was submitted, sent,
  // lost, timed out or injected by the devices, except the message that puts a link to sleep:
  // both links can become active without further help from the devices if and only if something
  // is on its way that will be answered, or a link that is not active has its timer armed, or
  // what each link still lacks is on its way. Where that fails no run makes both active, with
  // whatever losses and allocation failures.
  lemma ComesUpExactlyWhen(past: seq<Step>)
    requires NoSleepRun(past)
    ensures var w := Run(BOTH_OPENED, past);
      && (CanComeUp(w) <==> exists steps :: Undisturbed(steps) && BothActive(Run(w, steps)))
      && (CanComeUp(w) <==> exists steps :: HelpfulRun(steps) && BothActive(Run(w, steps)))
  {
    var w := Run(BOTH_OPENED, past);
    OpenedIsSound();
    RunKeepsSound(BOTH_OPENED, past);
    hide NoSleepStep, Run;
    if CanComeUp(w) {
      hide CanComeUp;
      LinksComeUp(w);
      var v :| Leads(w, v) && BothActive(v);
      var steps :| HelpfulRun(steps) && Run(w, steps) == v;
      HelpIsUndisturbed(steps);
    } else {
      forall steps | Undisturbed(steps)
        ensures !BothActive(Run(w, steps))
      {
        StaysDownOverRun(w, steps);
      }
      forall steps | HelpfulRun(steps)
        ensures !BothActive(Run(w, steps))
      {
        HelpIsUndisturbed(steps);
      }
    }
  }

  lemma HelpIsUndisturbed(steps: seq<Step>)
    requires HelpfulRun(steps)
    ensures Undisturbed(steps)
  {
    forall step | step in steps
      ensures !step.act.Control?
    {
      assert Helps(step);
    }
  }

  /** Until an active link is reset, the links can always come up. */

  predicate TimerOn(p: Peer) { p.reset || p.link.state == Active || p.link.timer }

  lemma FrameKeepsTimer(l: Link, f: GoodFrame)
    requires LinkOk(l) && l.state != Active && l.timer
    ensures TakeFrame(l, f).link.state == Active || TakeFrame(l, f).link.timer
  {
    hide CullCount;
  }

  lemma ActKeepsTimer(w: World, act: Act)
    requires LinkOk(w.a.link) && TimerOn(w.a)
    ensures TimerOn(Do(w, Step(A, act)).a) && Do(w, Step(A, act)).b == w.b
  {
    match act
    case Submit(skb) =>
    case Control(data) =>
    case Send(alloc) =>
    case Timer =>
    case Receive =>
      if w.ba != [] && w.a.link.state != Active && w.a.link.timer {
        FrameKeepsTimer(w.a.link, w.ba[0].frame);
      }
      hide TakeFrame, LinkOk;
    case Lose(i) =>
  }

  lemma DoKeepsTimer(w: World, step: Step)
    requires Sound(w) && TimerOn(w.a) && TimerOn(w.b)
    ensures TimerOn(Do(w, step).a) && TimerOn(Do(w, step).b)
  {
    hide Fit, LinkOk, ActA;
    if step.side == A {
      ActKeepsTimer(w, step.act);
    } else {
      ActKeepsTimer(Flip(w), step.act);
    }
    hide TimerOn;
  }

  lemma {:induction false} RunKeepsTimer(w: World, steps: seq<Step>)
    requires Sound(w) && TimerOn(w.a) && TimerOn(w.b) && NoSleepRun(steps)
    ensures TimerOn(Run(w, steps).a) && TimerOn(Run(w, steps).b)
    decreases |steps|
  {
    hide Sound, Do, NoSleepStep, TimerOn;
    if steps != [] {
      DoKeepsSound(w, steps[0]);
      DoKeepsTimer(w, steps[0]);
      RunKeepsTimer(Do(w, steps[0]), steps[1..]);
    }
  }

  // From the opening on, whatever is lost, as long as no active link was reset: some loss-free
  // run of timers, sending and receiving makes both links active.
  lemma ComesUpBeforeReset(past: seq<Step>)
    requires NoSleepRun(past)
    ensures var w := Run(BOTH_OPENED, past);
      Ended(w) || exists steps :: HelpfulRun(steps) && BothActive(Run(w, steps))
  {
    OpenedIsSound();
    RunKeepsTimer(BOTH_OPENED, past);
    ComesUpExactlyWhen(past);
    hide NoSleepStep, Run, Asks, Says;
  }
}
