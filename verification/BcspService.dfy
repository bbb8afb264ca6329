// What the layer above BCSP sees: everything handed up at one end, named by what was submitted
// at the other, from the submissions of the run alone.
// Source: drivers/blue8852be/hci_bcsp.c, lines 134-210, 270-391 and 474-572.
module BcspService {
  import opened Bytes
  import opened Framing
  import opened BcspLink
  import opened GoBackN
  import opened BcspRun
  import opened BcspProgress

  /** Reliable packets. */

  // A submission of an ACL packet or a command that fits a payload.
  predicate Offers(step: Step, side: Side) {
    step.side == side && step.act.Submit? && step.act.skb.kind in {AclData, Command} && |step.act.skb.data| <= 4095
  }

  function Offer(step: Step, side: Side): seq<Skb> {
    if Offers(step, side) then [step.act.skb] else []
  }

  // The ACL packets and commands submitted at a side, in order.
  function Offered(steps: seq<Step>, side: Side): seq<Skb> {
    if steps == [] then [] else Offer(steps[0], side) + Offered(steps[1..], side)
  }

  // How a packet arrives: ACL data as ACL data, and what was sent on the command channel as an
  // event. Where the sender has extensions enabled, a vendor command that names a channel is
  // unwrapped, and arrives as what that channel carries; a channel without a type of its own
  // comes up as a vendor event, where the receiver has extensions enabled too.
  function Arrival(skb: Skb, from: bool, to: bool): seq<Up> {
    if skb.kind == AclData then [Up(AclData, skb.data)]
    else if from && |skb.data| >= 4 && skb.data[1] >= 0xfc && 0xc0 <= skb.data[3] < 0xd0 then
      var chan, rest := skb.data[3] - 0xc0, skb.data[4..];
      if chan == 6 then [Up(AclData, rest)]
      else if chan == 5 then [Up(Event, rest)]
      else if chan == 7 then [Up(ScoData, rest)]
      else if chan <= 1 || !to then []
      else [Up(Event, [0xff, (1 + |rest|) % 256, skb.data[3]] + rest)]
    else [Up(Event, skb.data)]
  }

  function Arrivals(skbs: seq<Skb>, from: bool, to: bool): seq<Up> {
    if skbs == [] then []
    else Arrivals(skbs[..|skbs| - 1], from, to) + Arrival(skbs[|skbs| - 1], from, to)
  }

  lemma DoOffers(w: World, step: Step)
    ensures Do(w, step).a.sent == w.a.sent + Offer(step, A)
    ensures Do(w, step).b.sent == w.b.sent + Offer(step, B)
    ensures Do(w, step).a.link.cfg == w.a.link.cfg && Do(w, step).b.link.cfg == w.b.link.cfg
  {
    hide CompleteRx, Dequeue, Timeout;
    CfgStays(w.a);
    CfgStays(w.b);
  }

  lemma CfgStays(p: Peer)
    ensures forall f: GoodFrame :: CompleteRx(p.link, f).link.cfg == p.link.cfg
    ensures forall alloc :: Dequeue(p.link, alloc).link.cfg == p.link.cfg
    ensures Timeout(p.link).cfg == p.link.cfg
  {
    hide CullCount, UpOf, FrameOf;
  }

  lemma {:induction false} SentIsOffered(w: World, steps: seq<Step>)
    ensures var v := Run(w, steps);
      && v.a.sent == w.a.sent + Offered(steps, A) && v.b.sent == w.b.sent + Offered(steps, B)
      && v.a.link.cfg == w.a.link.cfg && v.b.link.cfg == w.b.link.cfg
    decreases |steps|
  {
    hide Do, Offer;
    if steps != [] {
      DoOffers(w, steps[0]);
      SentIsOffered(Do(w, steps[0]), steps[1..]);
    }
  }

  lemma UpOfWire(skb: RelSkb, from: bool, to: bool)
    ensures WireOf(skb, from).chan < 16
    ensures var up := UpOf(true, WireOf(skb, from), to);
      Arrival(skb, from, to) == if up.Some? then [up.value] else []
  {}

  lemma {:induction false} UpsAreArrivals(skbs: seq<RelSkb>, n: nat, from: bool, to: bool)
    requires n <= |skbs|
    ensures forall w :: w in Wires(skbs, from)[..n] ==> w.chan < 16
    ensures UpsOf(Wires(skbs, from)[..n], to) == Arrivals(skbs[..n], from, to)
    decreases n
  {
    hide WireOf, UpOf, Arrival;
    var wires := Wires(skbs, from);
    forall w | w in wires[..n]
      ensures w.chan < 16
    {
      var i :| 0 <= i < n && w == wires[i];
      UpOfWire(skbs[i], from, to);
    }
    if n > 0 {
      UpsAreArrivals(skbs, n - 1, from, to);
      UpOfWire(skbs[n - 1], from, to);
      assert wires[..n][..n - 1] == wires[..n - 1] && skbs[..n][..n - 1] == skbs[..n - 1];
    }
  }

  // Everything handed up at b from reliable frames, duplicates and packets out of order
  // included, is the arrival of what b accepted, and that is the oldest of what was submitted.
  lemma ArrivalsAtB(cfgA: Config, cfgB: Config, steps: seq<Step>)
    ensures var w := Run(Start(cfgA, cfgB), steps);
      && |w.b.accepted| <= |Offered(steps, A)|
      && w.b.ups == Arrivals(Offered(steps, A)[..|w.b.accepted|], cfgA.hciextn, cfgB.hciextn)
  {
    ExactlyOnceInOrder(cfgA, cfgB, steps);
    SentIsOffered(Start(cfgA, cfgB), steps);
    var w := Run(Start(cfgA, cfgB), steps);
    hide Run, UpsOf, Arrivals, Offered;
    assert w.a.sent == Offered(steps, A);
    UpsAreArrivals(w.a.sent, |w.b.accepted|, cfgA.hciextn, cfgB.hciextn);
    assert w.b.accepted == Wires(w.a.sent, cfgA.hciextn)[..|w.b.accepted|];
  }

  lemma ArrivalsAtA(cfgA: Config, cfgB: Config, steps: seq<Step>)
    ensures var w := Run(Start(cfgA, cfgB), steps);
      && |w.a.accepted| <= |Offered(steps, B)|
      && w.a.ups == Arrivals(Offered(steps, B)[..|w.a.accepted|], cfgB.hciextn, cfgA.hciextn)
  {
    ExactlyOnceInOrder(cfgA, cfgB, steps);
    SentIsOffered(Start(cfgA, cfgB), steps);
    var w := Run(Start(cfgA, cfgB), steps);
    hide Run, UpsOf, Arrivals, Offered;
    assert w.b.sent == Offered(steps, B);
    UpsAreArrivals(w.b.sent, |w.a.accepted|, cfgB.hciextn, cfgA.hciextn);
    assert w.a.accepted == Wires(w.b.sent, cfgB.hciextn)[..|w.a.accepted|];
  }

  // The octets of the packets of one kind: of those submitted, and of those handed up.
  function DataOf(skbs: seq<Skb>, kind: PktType): seq<seq<byte>> {
    if skbs == [] then []
    else
      var last := skbs[|skbs| - 1];
      DataOf(skbs[..|skbs| - 1], kind) + if last.kind == kind then [last.data] else []
  }

  function Handed(ups: seq<Up>, kind: PktType): seq<seq<byte>> {
    if ups == [] then []
    else
      var last := ups[|ups| - 1];
      Handed(ups[..|ups| - 1], kind) + if last.kind == kind then [last.data] else []
  }

  lemma HandedSnoc(ups: seq<Up>, up: Up, kind: PktType)
    ensures Handed(ups + [up], kind) == Handed(ups, kind) + if up.kind == kind then [up.data] else []
  {
    assert (ups + [up])[..|ups|] == ups;
  }

  lemma {:induction false} HandedByKind(skbs: seq<Skb>, to: bool)
    requires forall s :: s in skbs ==> s.kind in {AclData, Command}
    ensures Handed(Arrivals(skbs, false, to), AclData) == DataOf(skbs, AclData)
    ensures Handed(Arrivals(skbs, false, to), Event) == DataOf(skbs, Command)
    decreases |skbs|
  {
    if skbs != [] {
      var n := |skbs| - 1;
      HandedByKind(skbs[..n], to);
      var up := Up(if skbs[n].kind == AclData then AclData else Event, skbs[n].data);
      assert Arrival(skbs[n], false, to) == [up];
      hide Handed;
      HandedSnoc(Arrivals(skbs[..n], false, to), up, AclData);
      HandedSnoc(Arrivals(skbs[..n], false, to), up, Event);
    }
  }

  lemma {:induction false} DataOfPrefix(skbs: seq<Skb>, n: nat, kind: PktType)
    requires n <= |skbs|
    ensures DataOf(skbs[..n], kind) <= DataOf(skbs, kind)
    decreases |skbs|
  {
    if n < |skbs| {
      DataOfPrefix(skbs[..|skbs| - 1], n, kind);
      assert skbs[..|skbs| - 1][..n] == skbs[..n];
    } else {
      assert skbs[..n] == skbs;
    }
  }

  lemma {:induction false} OfferedKinds(steps: seq<Step>, side: Side)
    ensures forall s :: s in Offered(steps, side) ==> s.kind in {AclData, Command}
    decreases |steps|
  {
    if steps != [] {
      OfferedKinds(steps[1..], side);
    }
  }

  // Over every run, whatever is lost and however the timers fire: where the sender has no
  // extensions, the ACL data handed up at the other end is a prefix of the ACL data submitted,
  // in order and once each, and so is what went over the command channel.
  lemma HandedUpOnceInOrder(cfgA: Config, cfgB: Config, steps: seq<Step>)
    ensures var w := Run(Start(cfgA, cfgB), steps);
      && (!cfgA.hciextn ==>
          && Handed(w.b.ups, AclData) <= DataOf(Offered(steps, A), AclData)
          && Handed(w.b.ups, Event) <= DataOf(Offered(steps, A), Command))
      && (!cfgB.hciextn ==>
          && Handed(w.a.ups, AclData) <= DataOf(Offered(steps, B), AclData)
          && Handed(w.a.ups, Event) <= DataOf(Offered(steps, B), Command))
  {
    ArrivalsAtA(cfgA, cfgB, steps);
    ArrivalsAtB(cfgA, cfgB, steps);
    var w := Run(Start(cfgA, cfgB), steps);
    hide Run, Arrivals, Offered;
    PrefixByKind(steps, A, |w.b.accepted|, cfgB.hciextn);
    PrefixByKind(steps, B, |w.a.accepted|, cfgA.hciextn);
  }

  lemma PrefixByKind(steps: seq<Step>, side: Side, n: nat, to: bool)
    requires n <= |Offered(steps, side)|
    ensures var ups := Arrivals(Offered(steps, side)[..n], false, to);
      && Handed(ups, AclData) <= DataOf(Offered(steps, side), AclData)
      && Handed(ups, Event) <= DataOf(Offered(steps, side), Command)
  {
    hide Offered, Arrivals;
    OfferedKinds(steps, side);
    var skbs := Offered(steps, side);
    HandedByKind(skbs[..n], to);
    DataOfPrefix(skbs, n, AclData);
    DataOfPrefix(skbs, n, Command);
  }

  lemma {:induction false} OfferedAppend(past: seq<Step>, steps: seq<Step>, side: Side)
    ensures Offered(past + steps, side) == Offered(past, side) + Offered(steps, side)
    decreases |past|
  {
    hide Offer;
    if past == [] {
      assert past + steps == steps;
    } else {
      OfferedAppend(past[1..], steps, side);
      assert (past + steps)[1..] == past[1..] + steps;
    }
  }

  lemma {:induction false} NothingNewOffered(steps: seq<Step>, side: Side)
    requires LossFree(steps)
    ensures Offered(steps, side) == []
    decreases |steps|
  {
    if steps != [] {
      assert Helpful(steps[0]);
      NothingNewOffered(steps[1..], side);
    }
  }

  // Every run can be continued so that everything submitted in it has been handed up at the
  // other end, exactly once and in order, on both sides.
  lemma EverythingArrives(cfgA: Config, cfgB: Config, past: seq<Step>) returns (steps: seq<Step>)
    ensures LossFree(steps)
    ensures var v := Run(Start(cfgA, cfgB), past + steps);
      && v.b.ups == Arrivals(Offered(past, A), cfgA.hciextn, cfgB.hciextn)
      && v.a.ups == Arrivals(Offered(past, B), cfgB.hciextn, cfgA.hciextn)
  {
    steps := NoDeadlock(cfgA, cfgB, past);
    RunAppend(Start(cfgA, cfgB), past, steps);
    SentIsOffered(Start(cfgA, cfgB), past + steps);
    ArrivalsAtA(cfgA, cfgB, past + steps);
    ArrivalsAtB(cfgA, cfgB, past + steps);
    NothingNewOffered(steps, A);
    NothingNewOffered(steps, B);
    OfferedAppend(past, steps, A);
    OfferedAppend(past, steps, B);
    var v := Run(Start(cfgA, cfgB), past + steps);
    hide Run, Arrivals, Offered, LossFree, Start, WireOf;
    assert |v.b.accepted| == |v.a.sent| && |v.a.accepted| == |v.b.sent|;
  }

  /** Unreliable packets. */

  predicate OffersSco(step: Step, side: Side) {
    step.side == side && step.act.Submit? && step.act.skb.kind == ScoData && |step.act.skb.data| <= 4095
  }

  function ScoOffer(step: Step, side: Side): seq<Up> {
    if OffersSco(step, side) then [Up(ScoData, step.act.skb.data)] else []
  }

  // The SCO packets submitted at a side, in order, as they should arrive.
  function ScoOffered(steps: seq<Step>, side: Side): seq<Up> {
    if steps == [] then [] else ScoOffer(steps[0], side) + ScoOffered(steps[1..], side)
  }

  // The SCO packets waiting to be sent.
  function ScoWaiting(skbs: seq<UnrelSkb>): seq<Up> {
    if skbs == [] then []
    else ScoIn(skbs[0]) + ScoWaiting(skbs[1..])
  }

  function ScoIn(skb: UnrelSkb): seq<Up> { if skb.kind == ScoData then [Up(ScoData, skb.data)] else [] }

  // The SCO packets under way.
  function ScoMoving(flights: seq<Moving>): seq<Up> {
    if flights == [] then []
    else ScoOf(flights[0].frame) + ScoMoving(flights[1..])
  }

  function ScoOf(f: GoodFrame): seq<Up> {
    if !f.rel && f.chan == 7 then [Up(ScoData, f.payload)] else []
  }

  // Unreliable frames go out on three channels only.
  predicate PlainFrame(f: GoodFrame) { f.rel || f.chan in {0, 1, 7} }

  ghost predicate Plain(flights: seq<Moving>) {
    forall i :: 0 <= i < |flights| ==> PlainFrame(flights[i].frame)
  }

  // What is left of all, in order; and all of it while nothing is lost.
  ghost predicate Left(left: seq<Up>, all: seq<Up>, lossless: bool) {
    Sub(left, all) && (lossless ==> left == all)
  }

  // Handed up, under way and waiting, from one endpoint to the other.
  ghost predicate LooseOk(from: Peer, to: Peer, fwd: seq<Moving>, all: seq<Up>, lossless: bool) {
    Plain(fwd) && Left(to.loose + ScoMoving(fwd) + ScoWaiting(from.link.unrel), all, lossless)
  }

  lemma {:induction false} MovingAppend(x: seq<Moving>, y: seq<Moving>)
    ensures ScoMoving(x + y) == ScoMoving(x) + ScoMoving(y)
    decreases |x|
  {
    hide ScoOf;
    if x == [] {
      assert x + y == y;
    } else {
      MovingAppend(x[1..], y);
      assert (x + y)[1..] == x[1..] + y;
    }
  }

  lemma MovingOne(fl: Moving)
    ensures ScoMoving([fl]) == ScoOf(fl.frame)
  {
    hide ScoOf;
    assert [fl][1..] == [];
  }

  lemma {:induction false} WaitingAppend(x: seq<UnrelSkb>, y: seq<UnrelSkb>)
    ensures ScoWaiting(x + y) == ScoWaiting(x) + ScoWaiting(y)
    decreases |x|
  {
    hide ScoIn;
    if x == [] {
      assert x + y == y;
    } else {
      WaitingAppend(x[1..], y);
      assert (x + y)[1..] == x[1..] + y;
    }
  }

  lemma EnqueueLoose(p: Peer, side: Side, skb: Skb)
    ensures ScoWaiting(SubmitTo(p, skb).link.unrel) == ScoWaiting(p.link.unrel) + ScoOffer(Step(side, Submit(skb)), side)
    ensures SubmitTo(p, skb).loose == p.loose
  {
    if skb.kind == ScoData && |skb.data| <= 4095 {
      WaitingAppend(p.link.unrel, [skb]);
      assert [skb][1..] == [];
    }
  }

  // What a frame made of an unreliable packet carries.
  lemma LooseFrame(cfg: Config, txseq: Seq8, txack: Seq8, skb: Skb)
    requires |skb.data| <= MAX_PAYLOAD && skb.kind in {ScoData, BcspLe, BcspAck}
    ensures var f := FrameOf(cfg, txseq, txack, skb);
      PlainFrame(f) && ScoOf(f) == if skb.kind == ScoData then [Up(ScoData, skb.data)] else []
  {}

  lemma ReliableFrame(cfg: Config, txseq: Seq8, txack: Seq8, skb: RelSkb)
    ensures PlainFrame(FrameOf(cfg, txseq, txack, skb)) && ScoOf(FrameOf(cfg, txseq, txack, skb)) == []
  {
    hide WireOf;
  }

  lemma DequeueLoose(l: Link, alloc: Allocs)
    ensures var s := Dequeue(l, alloc);
      ScoWaiting(l.unrel) == (if s.frame.Some? then ScoOf(s.frame.value) else []) + ScoWaiting(s.link.unrel)
    ensures var s := Dequeue(l, alloc); s.frame.Some? ==> PlainFrame(s.frame.value)
  {
    hide FrameOf, ScoOf, PlainFrame;
    if l.unrel != [] { LooseFrame(l.cfg, l.txseq, l.txack, l.unrel[0]); }
    if l.rel != [] { ReliableFrame(l.cfg, l.txseq, l.txack, l.rel[0]); }
    LooseFrame(l.cfg, l.txseq, l.txack, ACK_SKB);
  }

  lemma TransmitLoose(p: Peer, alloc: Allocs)
    ensures var t := Transmit(p, alloc);
      && ScoMoving(t.out) + ScoWaiting(t.peer.link.unrel) == ScoWaiting(p.link.unrel)
      && t.peer.loose == p.loose && Plain(t.out)
  {
    DequeueLoose(p.link, alloc);
    hide Dequeue, ScoOf, PlainFrame;
    var t := Transmit(p, alloc);
    if t.out != [] {
      MovingOne(t.out[0]);
    }
  }

  lemma TakeLoose(p: Peer, f: GoodFrame)
    requires PlainFrame(f)
    ensures Take(p, f).loose == p.loose + ScoOf(f)
  {
    hide CullCount, HandleLe;
  }

  lemma TakeWaiting(p: Peer, f: GoodFrame)
    ensures ScoWaiting(Take(p, f).link.unrel) == ScoWaiting(p.link.unrel)
  {
    hide CullCount, UpOf;
    var l := p.link;
    assert ([Skb(BcspLe, CONF_RSP_PKT)] + l.unrel)[1..] == l.unrel;
  }

  lemma SendLoose(w: World, alloc: Allocs, all: seq<Up>, lossless: bool)
    requires LooseOk(w.a, w.b, w.ab, all, lossless)
    ensures var v := ActA(w, Send(alloc)); LooseOk(v.a, v.b, v.ab, all, lossless) && v.a.loose == w.a.loose
  {
    TransmitLoose(w.a, alloc);
    hide Transmit, Sub, PlainFrame;
    var t := Transmit(w.a, alloc);
    MovingAppend(w.ab, t.out);
    assert w.b.loose + ScoMoving(w.ab + t.out) + ScoWaiting(t.peer.link.unrel)
      == w.b.loose + ScoMoving(w.ab) + ScoWaiting(w.a.link.unrel);
  }

  lemma PlainWithout(flights: seq<Moving>, i: nat)
    requires Plain(flights) && i < |flights|
    ensures Plain(Without(flights, i))
  {
    hide PlainFrame;
  }

  lemma MovingWithout(flights: seq<Moving>, i: nat) returns (x: seq<Up>, m: seq<Up>, y: seq<Up>)
    requires i < |flights|
    ensures |m| <= 1 && ScoMoving(flights) == x + m + y && ScoMoving(Without(flights, i)) == x + y
  {
    var fl := flights[i];
    assert flights == flights[..i] + [fl] + flights[i + 1..];
    MovingAppend(flights[..i] + [fl], flights[i + 1..]);
    MovingAppend(flights[..i], [fl]);
    MovingAppend(flights[..i], flights[i + 1..]);
    MovingOne(fl);
    x, m, y := ScoMoving(flights[..i]), ScoOf(fl.frame), ScoMoving(flights[i + 1..]);
  }

  lemma LoseLoose(w: World, i: nat, all: seq<Up>, lossless: bool)
    requires LooseOk(w.a, w.b, w.ab, all, lossless) && i < |w.ab|
    ensures LooseOk(w.a, w.b, Without(w.ab, i), all, false)
  {
    hide ScoMoving, ScoWaiting, Sub, Plain;
    PlainWithout(w.ab, i);
    var x, m, y := MovingWithout(w.ab, i);
    var r := ScoWaiting(w.a.link.unrel);
    Regrouped(w.b.loose, x, m, y, r);
    StrikeOut(w.b.loose + x, m, y + r, all);
  }

  lemma Regrouped(l: seq<Up>, x: seq<Up>, m: seq<Up>, y: seq<Up>, r: seq<Up>)
    ensures (l + x) + m + (y + r) == l + (x + m + y) + r
    ensures (l + x) + (y + r) == l + (x + y) + r
  {}

  lemma SubmitLoose(w: World, skb: Skb, all: seq<Up>, lossless: bool)
    requires LooseOk(w.a, w.b, w.ab, all, lossless)
    ensures var v := ActA(w, Submit(skb));
      LooseOk(v.a, v.b, v.ab, all + ScoOffer(Step(A, Submit(skb)), A), lossless)
  {
    EnqueueLoose(w.a, A, skb);
    var more := ScoOffer(Step(A, Submit(skb)), A);
    hide SubmitTo, ScoMoving, ScoWaiting, Sub, Plain;
    var left := w.b.loose + ScoMoving(w.ab) + ScoWaiting(w.a.link.unrel);
    LeftSnoc(left, all, lossless, more);
    assert w.b.loose + ScoMoving(w.ab) + (ScoWaiting(w.a.link.unrel) + more) == left + more;
  }

  lemma LeftSnoc(left: seq<Up>, all: seq<Up>, lossless: bool, more: seq<Up>)
    requires Left(left, all, lossless) && |more| <= 1
    ensures Left(left + more, all + more, lossless)
  {
    if more == [] {
      assert left + more == left && all + more == all;
    } else {
      assert more == [more[0]];
      SubSnoc(left, all, more[0]);
    }
  }

  lemma ReceiveLoose(w: World, all: seq<Up>, lossless: bool)
    requires LooseOk(w.b, w.a, w.ba, all, lossless)
    ensures var v := ActA(w, Receive); LooseOk(v.b, v.a, v.ba, all, lossless)
  {
    if w.ba != [] {
      TakeLoose(w.a, w.ba[0].frame);
      hide Take, Sub, ScoOf, PlainFrame;
      var rest := ScoMoving(w.ba[1..]) + ScoWaiting(w.b.link.unrel);
      assert w.a.loose + ScoMoving(w.ba) + ScoWaiting(w.b.link.unrel)
        == w.a.loose + ScoOf(w.ba[0].frame) + ScoMoving(w.ba[1..]) + ScoWaiting(w.b.link.unrel);
    }
  }

  // One step of a, for what goes from a to b.
  lemma ForwardLoose(w: World, act: Act, all: seq<Up>, lossless: bool)
    requires LooseOk(w.a, w.b, w.ab, all, lossless)
    ensures var v := ActA(w, act);
      LooseOk(v.a, v.b, v.ab, all + ScoOffer(Step(A, act), A), lossless && !act.Lose?)
  {
    match act
    case Submit(skb) => SubmitLoose(w, skb, all, lossless);
    case Send(alloc) =>
      SendLoose(w, alloc, all, lossless);
      assert all + [] == all;
    case Timer => assert all + [] == all;
    case Receive =>
      assert all + [] == all;
      if w.ba != [] {
        TakeWaiting(w.a, w.ba[0].frame);
      }
    case Lose(i) =>
      assert all + [] == all;
      if i < |w.ab| {
        LoseLoose(w, i, all, lossless);
      }
  }

  // One step of a, for what goes from b to a.
  lemma BackwardLoose(w: World, act: Act, all: seq<Up>, lossless: bool)
    requires LooseOk(w.b, w.a, w.ba, all, lossless)
    ensures var v := ActA(w, act); LooseOk(v.b, v.a, v.ba, all, lossless)
  {
    if act == Receive {
      ReceiveLoose(w, all, lossless);
    } else {
      hide Take, Dequeue, Enqueue, Timeout, Sub;
    }
  }

  // No frame sent by the given side is dropped on the way.
  predicate Lossless(steps: seq<Step>, side: Side) {
    forall s :: s in steps ==> !(s.side == side && s.act.Lose?)
  }

  lemma DoLoose(w: World, step: Step, all: seq<Up>, lossless: bool)
    requires LooseOk(w.a, w.b, w.ab, all, lossless)
    ensures var v := Do(w, step);
      LooseOk(v.a, v.b, v.ab, all + ScoOffer(step, A), lossless && !(step.side == A && step.act.Lose?))
  {
    hide ActA, LooseOk;
    if step.side == A {
      ForwardLoose(w, step.act, all, lossless);
    } else {
      BackwardLoose(Flip(w), step.act, all, lossless);
      assert all + [] == all;
    }
  }

  lemma {:induction false} RunLoose(w: World, steps: seq<Step>, all: seq<Up>, lossless: bool)
    requires LooseOk(w.a, w.b, w.ab, all, lossless)
    ensures var v := Run(w, steps);
      LooseOk(v.a, v.b, v.ab, all + ScoOffered(steps, A), lossless && Lossless(steps, A))
    decreases |steps|
  {
    hide Do, LooseOk, ScoOffer;
    if steps == [] {
      assert all + [] == all;
    } else {
      DoLoose(w, steps[0], all, lossless);
      var more := ScoOffer(steps[0], A);
      RunLoose(Do(w, steps[0]), steps[1..], all + more, lossless && !(steps[0].side == A && steps[0].act.Lose?));
      assert all + more + ScoOffered(steps[1..], A) == all + ScoOffered(steps, A);
      assert Lossless(steps, A) == (!(steps[0].side == A && steps[0].act.Lose?) && Lossless(steps[1..], A)) by {
        assert steps == [steps[0]] + steps[1..];
      }
    }
  }

  // Over every run: what is handed up from unreliable frames is SCO data submitted at the other
  // end, in order and each at most once; and while nothing is lost, what is handed up, under way
  // and waiting to be sent is exactly what was submitted.
  lemma ScoInOrder(cfgA: Config, cfgB: Config, steps: seq<Step>)
    ensures var w := Run(Start(cfgA, cfgB), steps);
      && Sub(w.b.loose, ScoOffered(steps, A))
      && (Lossless(steps, A) ==>
          w.b.loose + ScoMoving(w.ab) + ScoWaiting(w.a.link.unrel) == ScoOffered(steps, A))
  {
    RunLoose(Start(cfgA, cfgB), steps, [], true);
    assert [] + ScoOffered(steps, A) == ScoOffered(steps, A);
    hide Run, ScoOffered, Start, LooseOk;
    var w := Run(Start(cfgA, cfgB), steps);
    LeftOver(w, ScoOffered(steps, A), Lossless(steps, A));
  }

  lemma LeftOver(w: World, all: seq<Up>, lossless: bool)
    requires LooseOk(w.a, w.b, w.ab, all, lossless)
    ensures Sub(w.b.loose, all)
    ensures lossless ==> w.b.loose + ScoMoving(w.ab) + ScoWaiting(w.a.link.unrel) == all
  {
    hide Sub, Plain, ScoMoving, ScoWaiting;
    var m, r := ScoMoving(w.ab), ScoWaiting(w.a.link.unrel);
    assert w.b.loose + m + r == w.b.loose + (m + r) + [] && w.b.loose + [] == w.b.loose;
    StrikeOut(w.b.loose, m + r, [], all);
  }
}
