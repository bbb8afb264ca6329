// What the layer above Three-wire sees: everything handed up over a run, named by what was
// submitted at the other end.
// Source: drivers/blue8852be/hci_h5.c, lines 327-423, 447-481, 599-639 and 737-796.
module H5Service {
  import opened Bytes
  import opened Framing
  import opened GoBackN
  import opened H5Link
  import opened H5Run

  /** What goes up. */

  function UpSeq(up: Option<Up>): seq<Up> { if up.Some? then [up.value] else [] }

  // What the driver of b hands to the HCI layer in one step, accepted or not.
  function GoesUp(w: World, step: Step): seq<Up> {
    if step == Step(B, Receive) && w.ab != [] then UpSeq(TakeFrame(w.b.link, w.ab[0].frame).up) else []
  }

  // What it hands up over a run, in order.
  function HandedUp(w: World, steps: seq<Step>): seq<Up>
    decreases |steps|
  {
    if steps == [] then [] else GoesUp(w, steps[0]) + HandedUp(Do(w, steps[0]), steps[1..])
  }

  // A packet is taken for sending by an active link only; a longer one is refused.
  function Offer(w: World, step: Step, types: set<nat>): seq<Up> {
    if && step.side == A && step.act.Submit? && w.a.link.state == Active
       && step.act.skb.ptype in types && |step.act.skb.data| <= 4095
    then [Up(step.act.skb.ptype, step.act.skb.data)] else []
  }

  // The packets of the given types submitted at a over a run, as they should arrive.
  function Offered(w: World, steps: seq<Step>, types: set<nat>): seq<Up>
    decreases |steps|
  {
    if steps == [] then [] else Offer(w, steps[0], types) + Offered(Do(w, steps[0]), steps[1..], types)
  }

  function Picked(up: Up, types: set<nat>): seq<Up> { if up.ptype in types then [up] else [] }

  function OfType(ups: seq<Up>, types: set<nat>): seq<Up> {
    if ups == [] then [] else Picked(ups[0], types) + OfType(ups[1..], types)
  }

  lemma {:induction false} OfTypeAppend(x: seq<Up>, y: seq<Up>, types: set<nat>)
    ensures OfType(x + y, types) == OfType(x, types) + OfType(y, types)
    decreases |x|
  {
    hide Picked;
    if x == [] {
      assert x + y == y;
    } else {
      OfTypeAppend(x[1..], y, types);
      assert (x + y)[1..] == x[1..] + y;
    }
  }

  lemma OfTypeOne(up: Up, types: set<nat>)
    ensures OfType([up], types) == if up.ptype in types then [up] else []
  {
    assert [up][1..] == [];
  }

  /** The frames of a run: ACL data and commands are reliable, SCO and ISO data, link control
      and bare acknowledgements are not. None has a CRC. */

  predicate PlainFrame(f: GoodFrame) {
    !f.crc && if f.rel then f.chan in {1, 2} else f.chan in {0, 3, 5, 15}
  }

  ghost predicate Plain(flights: seq<Moving>) {
    forall i :: 0 <= i < |flights| ==> PlainFrame(flights[i].frame)
  }

  lemma DequeuePlain(l: Link, alloc: Allocs)
    ensures var s := Dequeue(l, alloc); s.frame.Some? ==> PlainFrame(s.frame.value)
  {}

  lemma PlainStays(w: World, act: Act)
    requires Plain(w.ab) && Plain(w.ba)
    ensures Plain(ActA(w, act).ab) && Plain(ActA(w, act).ba)
  {
    if act.Send? {
      DequeuePlain(w.a.link, act.alloc);
    }
    hide PlainFrame, Dequeue, Take, Enqueue, Timeout;
  }

  // What one frame hands up.
  lemma FrameGoesUp(l: Link, f: GoodFrame)
    requires PlainFrame(f)
    ensures var up := TakeFrame(l, f).up;
      && (f.rel ==> up == if Accepts(l, f) && f.chan == 2 then Some(Up(2, f.payload)) else None)
      && (!f.rel ==> up == None || (f.chan in {3, 5} && up == Some(Up(f.chan, f.payload))))
  {
    hide Accepts, CullCount, HandleLink;
  }

  /** Reliable packets. */

  // The ACL data in a list of accepted messages.
  function AclOf(msgs: seq<Message>): seq<Up> {
    if msgs == [] then []
    else
      var last := msgs[|msgs| - 1];
      AclOf(msgs[..|msgs| - 1]) + if last.ptype == 2 then [Up(2, last.data)] else []
  }

  lemma AclSnoc(msgs: seq<Message>, m: Message)
    ensures AclOf(msgs + [m]) == AclOf(msgs) + if m.ptype == 2 then [Up(2, m.data)] else []
  {
    assert (msgs + [m])[..|msgs|] == msgs;
  }

  lemma {:induction false} AclPrefix(x: seq<Message>, y: seq<Message>)
    requires x <= y
    ensures AclOf(x) <= AclOf(y)
    decreases |y|
  {
    if |x| < |y| {
      AclPrefix(x, y[..|y| - 1]);
    } else {
      assert x == y;
    }
  }

  // What b hands up of ACL data in a step is what it accepts of it.
  lemma AclGoesUp(w: World, step: Step)
    requires Plain(w.ab)
    ensures AclOf(Do(w, step).b.accepted) == AclOf(w.b.accepted) + OfType(GoesUp(w, step), {2})
  {
    hide TakeFrame, Accepts, CullCount, Dequeue, Enqueue, Timeout, PlainFrame, AclOf;
    if step == Step(B, Receive) && w.ab != [] {
      var f := w.ab[0].frame;
      FrameGoesUp(w.b.link, f);
      AclSnoc(w.b.accepted, Message(f.chan, f.payload));
      var up := TakeFrame(w.b.link, f).up;
      if up.Some? {
        OfTypeOne(up.value, {2});
      }
      OneFrame(w.b, f);
    }
  }

  lemma OneFrame(p: Peer, f: GoodFrame)
    ensures Take(p, f).accepted
      == if f.rel && Accepts(p.link, f) then p.accepted + [Message(f.chan, f.payload)] else p.accepted
  {
    hide TakeFrame, Accepts, CullCount;
  }

  lemma AclOffers(w: World, step: Step)
    ensures AclOf(Messages(Do(w, step).a.sent)) == AclOf(Messages(w.a.sent)) + Offer(w, step, {2})
  {
    hide TakeFrame, Accepts, CullCount, Dequeue, Timeout, AclOf;
    if step.side == A && step.act.Submit? {
      var skb := step.act.skb;
      var v := Do(w, step);
      if v.a.sent != w.a.sent {
        MessagesAppend(w.a.sent, [skb]);
        assert Messages([skb]) == [Message(skb.ptype, skb.data)];
        AclSnoc(Messages(w.a.sent), Message(skb.ptype, skb.data));
      }
    }
  }

  lemma DoPlain(w: World, step: Step)
    requires Plain(w.ab) && Plain(w.ba)
    ensures Plain(Do(w, step).ab) && Plain(Do(w, step).ba)
  {
    hide ActA;
    PlainStays(w, step.act);
    PlainStays(Flip(w), step.act);
  }

  lemma {:induction false} AclOverRun(w: World, steps: seq<Step>)
    requires Plain(w.ab) && Plain(w.ba)
    ensures var v := Run(w, steps);
      && AclOf(v.b.accepted) == AclOf(w.b.accepted) + OfType(HandedUp(w, steps), {2})
      && AclOf(Messages(v.a.sent)) == AclOf(Messages(w.a.sent)) + Offered(w, steps, {2})
    decreases |steps|
  {
    hide Do, GoesUp, Offer, Plain, AclOf, Messages;
    if steps != [] {
      DoPlain(w, steps[0]);
      AclGoesUp(w, steps[0]);
      AclOffers(w, steps[0]);
      AclOverRun(Do(w, steps[0]), steps[1..]);
      OfTypeAppend(GoesUp(w, steps[0]), HandedUp(Do(w, steps[0]), steps[1..]), {2});
    }
  }

  lemma AclInOrder(w: World, steps: seq<Step>)
    requires SessionStart(w) && Plain(w.ab) && Plain(w.ba)
    ensures var v := Run(w, steps);
      && OfType(HandedUp(w, steps), {2}) == AclOf(v.b.accepted)
      && (Ended(v) || AclOf(v.b.accepted) <= Offered(w, steps, {2}))
  {
    var v := Run(w, steps);
    ExactlyOnceInOrder(w, steps);
    AclOverRun(w, steps);
    hide HandedUp, Offered, OfType, Run, Plain, Conserved, Messages;
    NothingYet(w);
    if !Ended(v) {
      AclPrefix(v.b.accepted, Messages(v.a.sent));
    }
    hide AclOf, SessionStart, InOrderOnce, Ended;
    assert [] + OfType(HandedUp(w, steps), {2}) == OfType(HandedUp(w, steps), {2});
    assert [] + Offered(w, steps, {2}) == Offered(w, steps, {2});
  }

  lemma NothingYet(w: World)
    requires SessionStart(w)
    ensures AclOf(w.b.accepted) == [] && AclOf(Messages(w.a.sent)) == []
  {}

  // From the opening of both endpoints, until an active one is reset, whatever is lost: the ACL
  // data handed up at one end is a prefix of the ACL data submitted at the other, in order and
  // once each, and exactly what was accepted.
  lemma AclOnceInOrder(steps: seq<Step>)
    ensures var v := Run(BOTH_OPENED, steps);
      && OfType(HandedUp(BOTH_OPENED, steps), {2}) == AclOf(v.b.accepted)
      && (Ended(v) || OfType(HandedUp(BOTH_OPENED, steps), {2}) <= Offered(BOTH_OPENED, steps, {2}))
  {
    assert SessionStart(BOTH_OPENED);
    hide HandedUp, Offered, OfType, Run;
    AclInOrder(BOTH_OPENED, steps);
  }

  /** Unreliable packets. */

  function LooseOf(f: GoodFrame): seq<Up> {
    if !f.rel && f.chan in {3, 5} then [Up(f.chan, f.payload)] else []
  }

  // The SCO and ISO packets under way.
  function Moves(flights: seq<Moving>): seq<Up> {
    if flights == [] then [] else LooseOf(flights[0].frame) + Moves(flights[1..])
  }

  // The SCO and ISO packets waiting to be sent.
  function Waits(skbs: seq<UnrelSkb>): seq<Up> {
    if skbs == [] then []
    else WaitOf(skbs[0]) + Waits(skbs[1..])
  }

  function WaitOf(skb: UnrelSkb): seq<Up> {
    if skb.ptype in {3, 5} then [Up(skb.ptype, skb.data)] else []
  }

  lemma {:induction false} MovesAppend(x: seq<Moving>, y: seq<Moving>)
    ensures Moves(x + y) == Moves(x) + Moves(y)
    decreases |x|
  {
    hide LooseOf;
    if x == [] {
      assert x + y == y;
    } else {
      MovesAppend(x[1..], y);
      assert (x + y)[1..] == x[1..] + y;
    }
  }

  lemma MovesOne(fl: Moving)
    ensures Moves([fl]) == LooseOf(fl.frame)
  {
    hide LooseOf;
    assert [fl][1..] == [];
  }

  lemma {:induction false} WaitsAppend(x: seq<UnrelSkb>, y: seq<UnrelSkb>)
    ensures Waits(x + y) == Waits(x) + Waits(y)
    decreases |x|
  {
    hide WaitOf;
    if x == [] {
      assert x + y == y;
    } else {
      WaitsAppend(x[1..], y);
      assert (x + y)[1..] == x[1..] + y;
    }
  }

  lemma WaitsOne(skb: UnrelSkb)
    ensures Waits([skb]) == WaitOf(skb)
  {
    assert [skb][1..] == [];
  }

  // Handed up before, under way and waiting: what is left of all, in order.
  ghost predicate LooseOk(w: World, past: seq<Up>, all: seq<Up>) {
    Plain(w.ab) && Plain(w.ba) && Sub(past + Moves(w.ab) + Waits(w.a.link.unrel), all)
  }

  lemma EnqueueLoose(l: Link, skb: Skb)
    ensures Waits(Enqueue(l, skb).unrel) == Waits(l.unrel) +
      if l.state == Active && skb.ptype in {3, 5} && |skb.data| <= 4095 then [Up(skb.ptype, skb.data)] else []
  {
    if l.state == Active && skb.ptype in {3, 5} && |skb.data| <= 4095 {
      WaitsAppend(l.unrel, [skb]);
      WaitsOne(skb);
    }
  }

  lemma LinkControlWaits(l: Link, data: seq<byte>)
    requires |data| <= MAX_PAYLOAD
    ensures Waits(LinkControl(l, data).unrel) == Waits(l.unrel)
  {
    MessageWaits(l.unrel, data);
  }

  // At most two link control messages are queued, behind what was queued or instead of it.
  lemma HandleLinkQueues(l: Link, data: seq<byte>, len: nat)
      returns (kept: seq<UnrelSkb>, c: seq<byte>, d: seq<byte>)
    requires len <= |data|
    ensures kept in {[], l.unrel} && |c| <= MAX_PAYLOAD && |d| <= MAX_PAYLOAD
    ensures var unrel := HandleLink(l, data, len).unrel;
      unrel == kept || unrel == kept + [Skb(LINK_PKT, c)] || unrel == kept + [Skb(LINK_PKT, c)] + [Skb(LINK_PKT, d)]
  {
    kept, c, d := l.unrel, CONF_RSP, ConfReq(l);
    if len >= 2 {
      if l.state == Active && (StartsWith(data, SYNC_REQ) || StartsWith(data, SYNC_RSP)) {
        kept := [];
      }
      if StartsWith(data, SYNC_REQ) {
        c := SYNC_RSP;
      } else if StartsWith(data, SYNC_RSP) {
        c := ConfReq(l);
      } else if !StartsWith(data, CONF_REQ) {
        c := WOKEN_REQ;
      }
    }
    hide StartsWith;
  }

  // A link control message leaves the waiting packets alone, or drops them all.
  lemma HandleLinkWaits(l: Link, data: seq<byte>, len: nat)
    requires len <= |data|
    ensures Waits(HandleLink(l, data, len).unrel) in {[], Waits(l.unrel)}
  {
    var kept, c, d := HandleLinkQueues(l, data, len);
    hide HandleLink;
    MessageWaits(kept, c);
    MessageWaits(kept + [Skb(LINK_PKT, c)], d);
    assert Waits([]) == [];
    hide Waits;
  }

  lemma MessageWaits(u: seq<UnrelSkb>, data: seq<byte>)
    requires |data| <= MAX_PAYLOAD
    ensures Waits(u + [Skb(LINK_PKT, data)]) == Waits(u)
  {
    WaitsAppend(u, [Skb(LINK_PKT, data)]);
    WaitsOne(Skb(LINK_PKT, data));
    assert WaitOf(Skb(LINK_PKT, data)) == [];
    hide Waits;
  }

  lemma TakeWaits(l: Link, f: GoodFrame)
    ensures Waits(TakeFrame(l, f).link.unrel) in {[], Waits(l.unrel)}
  {
    hide CullCount, HandleLink, Accepts;
    var l2 := Cull((if f.rel then l.(txAck := Next(l.txAck), ackReq := true) else l).(rxAck := f.ack));
    HandleLinkWaits(l2, f.payload, MessageLen(f));
  }

  lemma TimeoutWaits(l: Link)
    ensures Waits(Timeout(l).unrel) == Waits(l.unrel)
  {
    LinkControlWaits(l.(timer := true), SYNC_REQ);
    LinkControlWaits(l.(timer := true), ConfReq(l));
    hide LinkControl;
  }

  lemma DequeueLoose(l: Link, alloc: Allocs)
    ensures var s := Dequeue(l, alloc);
      Waits(l.unrel) == (if s.frame.Some? then LooseOf(s.frame.value) else []) + Waits(s.link.unrel)
  {}

  lemma TransmitLoose(p: Peer, alloc: Allocs)
    ensures var t := Transmit(p, alloc); Moves(t.out) + Waits(t.peer.link.unrel) == Waits(p.link.unrel)
  {
    DequeueLoose(p.link, alloc);
    hide Dequeue, LooseOf;
    var t := Transmit(p, alloc);
    if t.out != [] {
      MovesOne(t.out[0]);
    }
  }

  lemma Regrouped(l: seq<Up>, x: seq<Up>, m: seq<Up>, y: seq<Up>, r: seq<Up>)
    ensures l + (x + m) + r == l + x + (m + r)
    ensures l + (x + m + y) + r == (l + x) + m + (y + r)
    ensures l + (x + y) + r == (l + x) + (y + r)
  {}

  lemma SendLoose(w: World, alloc: Allocs, past: seq<Up>, all: seq<Up>)
    requires LooseOk(w, past, all)
    ensures LooseOk(ActA(w, Send(alloc)), past, all)
  {
    PlainStays(w, Send(alloc));
    TransmitLoose(w.a, alloc);
    hide Transmit, Sub, Plain, Moves, Waits;
    var t := Transmit(w.a, alloc);
    MovesAppend(w.ab, t.out);
    Regrouped(past, Moves(w.ab), Moves(t.out), [], Waits(t.peer.link.unrel));
  }

  lemma LoseLoose(w: World, i: nat, past: seq<Up>, all: seq<Up>)
    requires LooseOk(w, past, all) && i < |w.ab|
    ensures LooseOk(ActA(w, Lose(i)), past, all)
  {
    PlainStays(w, Lose(i));
    var x, m, y := MovesWithout(w.ab, i);
    hide Plain, Moves, Sub, Waits, Without;
    var r := Waits(w.a.link.unrel);
    Regrouped(past, x, m, y, r);
    StrikeOut(past + x, m, y + r, all);
  }

  lemma MovesWithout(flights: seq<Moving>, i: nat) returns (x: seq<Up>, m: seq<Up>, y: seq<Up>)
    requires i < |flights|
    ensures Moves(flights) == x + m + y && Moves(Without(flights, i)) == x + y
  {
    var fl := flights[i];
    assert flights == flights[..i] + [fl] + flights[i + 1..];
    MovesAppend(flights[..i] + [fl], flights[i + 1..]);
    MovesAppend(flights[..i], [fl]);
    MovesAppend(flights[..i], flights[i + 1..]);
    x, m, y := Moves(flights[..i]), Moves([fl]), Moves(flights[i + 1..]);
  }

  // A step of a that adds something to the waiting packets, or drops them all.
  lemma WaitsChange(w: World, past: seq<Up>, all: seq<Up>, waits: seq<Up>, more: seq<Up>)
    requires Sub(past + Moves(w.ab) + Waits(w.a.link.unrel), all) && |more| <= 1
    requires waits == Waits(w.a.link.unrel) + more || (waits == [] && more == [])
    ensures Sub(past + Moves(w.ab) + waits, all + more)
  {
    hide Sub, Moves, Waits;
    var left, r := past + Moves(w.ab), Waits(w.a.link.unrel);
    if more != [] {
      SubSnoc(left + r, all, more[0]);
      assert left + waits == left + r + [more[0]] && more == [more[0]];
    } else if waits == [] {
      assert left + r + [] == left + r;
      StrikeOut(left, r, [], all);
      assert all + more == all;
    } else {
      assert waits == r && all + more == all;
    }
  }

  lemma ForwardLoose(w: World, act: Act, past: seq<Up>, all: seq<Up>)
    requires LooseOk(w, past, all)
    ensures LooseOk(ActA(w, act), past, all + Offer(w, Step(A, act), {3, 5}))
  {
    PlainStays(w, act);
    hide Plain, Moves, Sub, Waits;
    assert all + [] == all;
    match act
    case Send(alloc) => SendLoose(w, alloc, past, all);
    case Lose(i) => if i < |w.ab| { LoseLoose(w, i, past, all); }
    case Submit(skb) =>
      EnqueueLoose(w.a.link, skb);
      hide Enqueue;
      WaitsChange(w, past, all, Waits(Enqueue(w.a.link, skb).unrel), Offer(w, Step(A, act), {3, 5}));
    case Control(data) =>
      if |data| <= MAX_PAYLOAD {
        LinkControlWaits(w.a.link, data);
      }
    case Timer =>
      TimeoutWaits(w.a.link);
      hide Timeout;
    case Receive =>
      if w.ba != [] {
        var f := w.ba[0].frame;
        TakeWaits(w.a.link, f);
        hide TakeFrame, Accepts, CullCount;
        WaitsChange(w, past, all, Waits(TakeFrame(w.a.link, f).link.unrel), []);
      }
  }

  // A step of b, for what goes from a to b.
  lemma BackwardLoose(w: World, act: Act, past: seq<Up>, all: seq<Up>)
    requires LooseOk(w, past, all)
    ensures LooseOk(Do(w, Step(B, act)), past + OfType(GoesUp(w, Step(B, act)), {3, 5}), all)
  {
    DoPlain(w, Step(B, act));
    hide Plain, Sub, Waits;
    if act == Receive && w.ab != [] {
      ReceiveLoose(w, past, all);
    } else {
      assert past + [] == past;
      hide Take, Dequeue, Enqueue, Timeout;
    }
  }

  // A frame hands up the packet it carries, or nothing.
  lemma FrameIsLoose(w: World)
    requires Plain(w.ab) && w.ab != []
    ensures OfType(GoesUp(w, Step(B, Receive)), {3, 5}) in {LooseOf(w.ab[0].frame), []}
  {
    var f := w.ab[0].frame;
    FrameGoesUp(w.b.link, f);
    var up := TakeFrame(w.b.link, f).up;
    if up.Some? {
      OfTypeOne(up.value, {3, 5});
    }
    hide TakeFrame;
  }

  lemma ReceiveLoose(w: World, past: seq<Up>, all: seq<Up>)
    requires Plain(w.ab) && w.ab != [] && Sub(past + Moves(w.ab) + Waits(w.a.link.unrel), all)
    ensures Sub(past + OfType(GoesUp(w, Step(B, Receive)), {3, 5}) + Moves(w.ab[1..]) + Waits(w.a.link.unrel), all)
  {
    FrameIsLoose(w);
    var m, rest, r := LooseOf(w.ab[0].frame), Moves(w.ab[1..]), Waits(w.a.link.unrel);
    var gone := OfType(GoesUp(w, Step(B, Receive)), {3, 5});
    assert Moves(w.ab) == m + rest;
    hide Moves, Waits, OfType, GoesUp, LooseOf, Sub, Plain;
    HandedOn(past, gone, m, rest, r, all);
  }

  lemma HandedOn(past: seq<Up>, gone: seq<Up>, m: seq<Up>, rest: seq<Up>, r: seq<Up>, all: seq<Up>)
    requires Sub(past + (m + rest) + r, all) && (gone == m || gone == [])
    ensures Sub(past + gone + rest + r, all)
  {
    hide Sub;
    assert past + (m + rest) + r == past + m + (rest + r);
    assert past + gone + rest + r == past + gone + (rest + r);
    if gone != m {
      StrikeOut(past, m, rest + r, all);
      assert past + gone == past;
    }
  }

  lemma DoLoose(w: World, step: Step, past: seq<Up>, all: seq<Up>)
    requires LooseOk(w, past, all)
    ensures LooseOk(Do(w, step), past + OfType(GoesUp(w, step), {3, 5}), all + Offer(w, step, {3, 5}))
  {
    hide ActA, LooseOk;
    if step.side == A {
      ForwardLoose(w, step.act, past, all);
      assert past + [] == past;
    } else {
      BackwardLoose(w, step.act, past, all);
      assert all + [] == all;
    }
  }

  lemma {:induction false} RunLoose(w: World, steps: seq<Step>, past: seq<Up>, all: seq<Up>)
    requires LooseOk(w, past, all)
    ensures LooseOk(Run(w, steps), past + OfType(HandedUp(w, steps), {3, 5}), all + Offered(w, steps, {3, 5}))
    decreases |steps|
  {
    hide Do, LooseOk, Offer, GoesUp;
    if steps == [] {
      assert past + [] == past && all + [] == all;
    } else {
      DoLoose(w, steps[0], past, all);
      var v := Do(w, steps[0]);
      var up, more := OfType(GoesUp(w, steps[0]), {3, 5}), Offer(w, steps[0], {3, 5});
      RunLoose(v, steps[1..], past + up, all + more);
      OfTypeAppend(GoesUp(w, steps[0]), HandedUp(v, steps[1..]), {3, 5});
      assert past + up + OfType(HandedUp(v, steps[1..]), {3, 5}) == past + OfType(HandedUp(w, steps), {3, 5});
      assert all + more + Offered(v, steps[1..], {3, 5}) == all + Offered(w, steps, {3, 5});
    }
  }

  // Over every run, through every reset: the SCO and ISO data handed up at one end was submitted
  // at the other under the same type, and comes up in that order, each packet at most once.
  lemma LooseInOrder(steps: seq<Step>)
    ensures Sub(OfType(HandedUp(BOTH_OPENED, steps), {3, 5}), Offered(BOTH_OPENED, steps, {3, 5}))
  {
    OpenedLoose();
    RunLoose(BOTH_OPENED, steps, [], []);
    hide HandedUp, Offered, OfType, Run, Sub, Plain;
    var v := Run(BOTH_OPENED, steps);
    var ups, all := OfType(HandedUp(BOTH_OPENED, steps), {3, 5}), Offered(BOTH_OPENED, steps, {3, 5});
    assert [] + ups == ups && [] + all == all;
    hide LooseOk;
    HandedPart(v, ups, all);
  }

  lemma HandedPart(v: World, ups: seq<Up>, all: seq<Up>)
    requires LooseOk(v, ups, all)
    ensures Sub(ups, all)
  {
    hide Sub, Plain, Moves, Waits;
    var m, r := Moves(v.ab), Waits(v.a.link.unrel);
    assert ups + m + r == ups + (m + r) + [] && ups + [] == ups;
    StrikeOut(ups, m + r, [], all);
  }

  lemma OpenedLoose()
    ensures LooseOk(BOTH_OPENED, [], [])
  {
    WaitsOne(Skb(LINK_PKT, SYNC_REQ));
    assert Moves([]) == [];
  }

  /** Nothing else goes up. */

  lemma {:induction false} NothingElse(w: World, steps: seq<Step>)
    requires Plain(w.ab) && Plain(w.ba)
    ensures forall up :: up in HandedUp(w, steps) ==> up.ptype in {2, 3, 5}
    decreases |steps|
  {
    hide Do, Plain;
    if steps != [] {
      DoPlain(w, steps[0]);
      StepGoesUp(w, steps[0]);
      NothingElse(Do(w, steps[0]), steps[1..]);
    }
  }

  lemma StepGoesUp(w: World, step: Step)
    requires Plain(w.ab)
    ensures forall up :: up in GoesUp(w, step) ==> up.ptype in {2, 3, 5}
  {
    if w.ab != [] {
      FrameGoesUp(w.b.link, w.ab[0].frame);
    }
    hide TakeFrame;
  }
}
