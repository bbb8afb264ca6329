// BCSP cannot deadlock: from every reachable state there is a loss-free way on that delivers
// everything submitted and empties both retransmission queues.
// Source: drivers/blue8852be/hci_bcsp.c, lines 270-391, 474-510 and 688-708.
module BcspProgress {
  import opened Bytes
  import opened Framing
  import opened BcspLink
  import opened GoBackN
  import opened BcspRun

  const ALL := Allocs(true, true, true)

  // A step in which nothing new is asked for, nothing is lost and every allocation succeeds.
  predicate Helpful(step: Step) {
    step.act in {Send(ALL), Timer, Receive}
  }

  predicate LossFree(steps: seq<Step>) { forall s :: s in steps ==> Helpful(s) }

  // Everything a was given has been accepted by b, and a has nothing left to send.
  predicate Delivered(w: World) {
    w.a.link.rel == [] && w.a.link.unack == [] && |w.b.accepted| == |w.a.sent|
  }

  predicate SameSubmissions(w: World, v: World) { w.a.sent == v.a.sent && w.b.sent == v.b.sent }

  lemma {:induction false} RunAppend(w: World, s: seq<Step>, t: seq<Step>)
    ensures Run(w, s + t) == Run(Run(w, s), t)
    decreases |s|
  {
    hide Do;
    if s == [] {
      assert s + t == t;
    } else {
      RunAppend(Do(w, s[0]), s[1..], t);
      assert (s + t)[1..] == s[1..] + t;
    }
  }

  lemma RunOne(w: World, step: Step)
    ensures Run(w, [step]) == Do(w, step)
  {
    hide Do;
    assert [step][1..] == [];
  }

  /** Emptying the channels. */

  function InFlight(w: World): nat { |w.ab| + |w.ba| }

  lemma DrainOne(w: World) returns (step: Step)
    requires Inv(w) && InFlight(w) > 0
    ensures Helpful(step)
    ensures var v := Run(w, [step]); Inv(v) && InFlight(v) < InFlight(w) && SameSubmissions(w, v)
  {
    hide Inv, Take, Run;
    if w.ba != [] {
      step := Step(A, Receive);
      RunA(w, Receive);
    } else {
      step := Step(B, Receive);
      RunB(w, Receive);
    }
    TakeSent(w);
    TakeSent(Flip(w));
  }

  lemma TakeSent(w: World)
    ensures w.ba != [] ==> Take(w.a, w.ba[0].frame).sent == w.a.sent
  {}

  lemma {:induction false} Drain(w: World) returns (steps: seq<Step>)
    requires Inv(w)
    ensures LossFree(steps)
    ensures var v := Run(w, steps); Inv(v) && InFlight(v) == 0 && SameSubmissions(w, v)
    decreases InFlight(w)
  {
    if InFlight(w) == 0 {
      steps := [];
    } else {
      hide Inv, Run, InFlight;
      var step := DrainOne(w);
      var more := Drain(Run(w, [step]));
      steps := [step] + more;
      RunAppend(w, [step], more);
    }
  }

  /** One exchange with empty channels: a sends, b takes it and answers, a takes the answer. */

  // With empty channels a has either nothing outstanding or a receiver that is ahead of it.
  ghost predicate Ready(w: World) {
    && InFlight(w) == 0
    && (w.a.link.unack == [] || w.a.culled + |w.a.link.unack| < |w.b.accepted|)
  }

  function Waiting(p: Peer): nat { |p.link.rel| + |p.link.unrel| }

  lemma SendsSomething(p: Peer)
    requires PeerOk(p) && |p.link.unack| < TX_WINDOW && p.link.rel != []
    ensures var t := Transmit(p, ALL);
      && |t.out| == 1 && Waiting(t.peer) == Waiting(p) - 1
      && if t.out[0].rel
         then t.out[0].k == p.culled + |p.link.unack| && |t.peer.link.unack| == |p.link.unack| + 1
         else t.peer.link.unack == p.link.unack && t.peer.link.rel == p.link.rel
  {
    hide UpsOf, WireOf;
    var l := p.link;
    if l.unrel != [] {
      FrameFacts(l.cfg, l.txseq, l.txack, l.unrel[0]);
    } else {
      FrameFacts(l.cfg, l.txseq, l.txack, l.rel[0]);
    }
  }

  lemma AnswersSomething(p: Peer)
    requires p.link.ackReq
    ensures |Transmit(p, ALL).out| == 1
  {}

  lemma TakeAsksForAck(l: Link, f: Frame)
    requires f.WellFormed() && f.rel
    ensures CompleteRx(l, f).link.ackReq
  {
    hide CullCount, UpOf;
  }

  lemma Receiving(w: World)
    requires Inv(w) && w.ba != []
    ensures var fl, p := w.ba[0], w.a;
      var q := Take(p, fl.frame);
      && PeerOk(q) && TakeOk(p, fl, q) && q.link.rel == p.link.rel && q.link.unrel == p.link.unrel
      && (fl.rel ==> q.link.ackReq)
  {
    var fl := w.ba[0];
    TakeFirst(w);
    LinkAfterFrame(w.a.link, fl.frame);
    if fl.rel {
      TakeAsksForAck(w.a.link, fl.frame);
    }
    hide Inv, TakeOk, CompleteRx;
  }

  // One step of either endpoint as a run.
  lemma RunA(w: World, act: Act)
    requires Inv(w)
    ensures Run(w, [Step(A, act)]) == ActA(w, act) && Inv(ActA(w, act))
  {
    hide Inv, ActA;
    ActIsSafe(w, act);
    RunOne(w, Step(A, act));
  }

  lemma RunB(w: World, act: Act)
    requires Inv(w)
    ensures var v := Flip(ActA(Flip(w), act));
      Inv(Flip(w)) && Run(w, [Step(B, act)]) == v && Inv(v)
  {
    hide Inv, ActA;
    FlipKeeps(w);
    ActIsSafe(Flip(w), act);
    FlipKeeps(ActA(Flip(w), act));
    RunOne(w, Step(B, act));
  }

  // a has sent its next packet; b takes it.
  lemma BTakes(w: World) returns (v: World)
    requires Inv(w) && |w.ab| == 1 && w.ba == []
    ensures v == Run(w, [Step(B, Receive)]) && Inv(v) && InFlight(v) == 0 && v.a == w.a
    ensures TakeOk(w.b, w.ab[0], v.b) && (w.ab[0].rel ==> v.b.link.ackReq)
  {
    hide Inv, Take, TakeOk, Run;
    RunB(w, Receive);
    Receiving(Flip(w));
    v := Flip(ActA(Flip(w), Receive));
  }

  // The packet a sent: the next number if it is reliable, nothing of the queues if not.
  ghost predicate Offered(p: Peer, q: Peer, fl: Moving) {
    && q.culled == p.culled
    && if fl.rel then fl.k == p.culled + |p.link.unack| && |q.link.unack| == |p.link.unack| + 1
       else q.link.unack == p.link.unack
  }

  lemma ASends(w: World) returns (v: World)
    requires Inv(w) && Ready(w) && w.a.link.rel != []
    ensures v == Run(w, [Step(A, Send(ALL))]) && Inv(v) && v.b == w.b && v.ba == [] && |v.ab| == 1
    ensures SameSubmissions(w, v) && Waiting(v.a) == Waiting(w.a) - 1
    ensures Offered(w.a, v.a, v.ab[0])
  {
    AheadHasRoom(w);
    hide Inv, Transmit, Run, Ready, Waiting, Offered;
    NextIsOffered(w.a);
    RunA(w, Send(ALL));
    v := ActA(w, Send(ALL));
    assert v.ab == Transmit(w.a, ALL).out;
  }

  lemma NextIsOffered(p: Peer)
    requires PeerOk(p) && |p.link.unack| < TX_WINDOW && p.link.rel != []
    ensures var t := Transmit(p, ALL);
      |t.out| == 1 && t.peer.sent == p.sent && Waiting(t.peer) == Waiting(p) - 1 && Offered(p, t.peer, t.out[0])
  {
    SendsSomething(p);
    TransmitIsLocal(p, ALL);
    hide Transmit, PeerOk, FlightOk, Waiting, SentWires;
  }

  lemma BSends(w: World) returns (v: World)
    requires Inv(w) && InFlight(w) == 0 && w.b.link.ackReq
    ensures v == Run(w, [Step(B, Send(ALL))]) && Inv(v) && v.a == w.a && v.ab == [] && |v.ba| == 1
    ensures v.ba[0].a == |w.b.accepted| && v.b.accepted == w.b.accepted && v.b.sent == w.b.sent
  {
    AnswersSomething(w.b);
    TransmitIsLocal(w.b, ALL);
    hide Inv, Transmit, PeerOk, FlightOk, Run;
    RunB(w, Send(ALL));
    v := Flip(ActA(Flip(w), Send(ALL)));
    assert v.ba == Transmit(w.b, ALL).out;
  }

  lemma ReceiveActs(w: World)
    requires w.ba != []
    ensures ActA(w, Receive) == World(Take(w.a, w.ba[0].frame), w.b, w.ab, w.ba[1..])
  {
    hide Take;
  }

  lemma ATakes(w: World) returns (v: World)
    requires Inv(w) && |w.ba| == 1 && w.ab == []
    ensures v == Run(w, [Step(A, Receive)]) && Inv(v) && InFlight(v) == 0 && v.b == w.b
    ensures v.a.sent == w.a.sent && v.a.link.rel == w.a.link.rel && v.a.link.unrel == w.a.link.unrel
    ensures v.a.culled == if w.ba[0].a <= w.a.culled + |w.a.link.unack| then w.ba[0].a else w.a.culled
  {
    hide Inv, Take, PeerOk, Run, ActA, FlightOk, WireOf;
    Receiving(w);
    RunA(w, Receive);
    ReceiveActs(w);
    assert w.ba[1..] == [];
    v := ActA(w, Receive);
  }

  const ANSWER: seq<Step> := [Step(B, Send(ALL))] + [Step(A, Receive)]

  // b answers a reliable packet, and a takes the answer.
  lemma BAnswers(w: World) returns (v: World)
    requires Inv(w) && InFlight(w) == 0 && w.b.link.ackReq
    requires w.a.culled + |w.a.link.unack| <= |w.b.accepted|
    ensures v == Run(w, ANSWER) && Inv(v) && Ready(v) && SameSubmissions(w, v)
    ensures Waiting(v.a) == Waiting(w.a)
  {
    hide Inv, Run;
    var mid := BSends(w);
    v := ATakes(mid);
    RunAppend(w, [Step(B, Send(ALL))], [Step(A, Receive)]);
    AckedOrBehind(w, v);
  }

  const OFFER: seq<Step> := [Step(A, Send(ALL))] + [Step(B, Receive)]

  lemma OfferOutcome(w: World, fl: Moving, v: World)
    requires Inv(w) && Ready(w) && Inv(v) && InFlight(v) == 0
    requires Offered(w.a, v.a, fl) && TakeOk(w.b, fl, v.b)
    ensures fl.rel ==> v.a.culled + |v.a.link.unack| <= |v.b.accepted|
    ensures !fl.rel ==> Ready(v)
  {
    AheadHasRoom(w);
    hide Inv, PeerOk;
  }

  // a offers a packet: either nothing is owed for it, or b must answer.
  lemma Offer(w: World) returns (v: World)
    requires Inv(w) && Ready(w) && w.a.link.rel != []
    ensures v == Run(w, OFFER) && Inv(v) && InFlight(v) == 0
    ensures SameSubmissions(w, v) && Waiting(v.a) == Waiting(w.a) - 1
    ensures Ready(v) || (v.b.link.ackReq && v.a.culled + |v.a.link.unack| <= |v.b.accepted|)
  {
    hide Inv, Run, PeerOk, Ready, Offered;
    var mid := ASends(w);
    v := BTakes(mid);
    RunAppend(w, [Step(A, Send(ALL))], [Step(B, Receive)]);
    OfferOutcome(w, mid.ab[0], v);
  }

  lemma Exchange(w: World) returns (steps: seq<Step>)
    requires Inv(w) && Ready(w) && w.a.link.rel != []
    ensures LossFree(steps)
    ensures var v := Run(w, steps);
      Inv(v) && Ready(v) && SameSubmissions(w, v) && Waiting(v.a) < Waiting(w.a)
  {
    hide Inv, Run, Ready, Waiting;
    var mid := Offer(w);
    if Ready(mid) {
      steps := OFFER;
    } else {
      var v := BAnswers(mid);
      RunAppend(w, OFFER, ANSWER);
      steps := OFFER + ANSWER;
    }
  }

  // The receiver is never more than a window ahead, so there is room to send.
  lemma AheadHasRoom(w: World)
    requires Inv(w) && Ready(w)
    ensures |w.a.link.unack| < TX_WINDOW && w.a.culled + |w.a.link.unack| <= |w.b.accepted|
  {}

  lemma AckedOrBehind(w: World, v: World)
    requires Inv(w) && Inv(v) && InFlight(v) == 0
    requires w.a.culled + |w.a.link.unack| <= |w.b.accepted|
    requires v.b.accepted == w.b.accepted && v.a.sent == w.a.sent && v.a.link.rel == w.a.link.rel
    requires v.a.culled == if |w.b.accepted| <= w.a.culled + |w.a.link.unack| then |w.b.accepted| else w.a.culled
    ensures Ready(v)
  {
    SenderCounts(w.a);
    SenderCounts(v.a);
    hide Inv;
  }

  lemma SenderCounts(p: Peer)
    requires SenderOk(p)
    ensures p.culled + |p.link.unack| + |p.link.rel| == |p.sent|
  {
    assert |p.link.unack + p.link.rel| == |p.sent[p.culled..]|;
  }

  /** All the way. */

  lemma EmptyMeansDelivered(w: World)
    requires Inv(w) && Ready(w) && w.a.link.rel == []
    ensures Delivered(w) && Run(w, []) == w
  {
    SenderCounts(w.a);
    AheadHasRoom(w);
  }

  lemma {:induction false} Finish(w: World) returns (steps: seq<Step>)
    requires Inv(w) && Ready(w)
    ensures LossFree(steps)
    ensures var v := Run(w, steps); Inv(v) && Delivered(v) && SameSubmissions(w, v)
    decreases Waiting(w.a)
  {
    hide Inv, Run, Ready, Delivered, Waiting;
    if w.a.link.rel == [] {
      EmptyMeansDelivered(w);
      steps := [];
    } else {
      steps := Exchange(w);
      var more := Finish(Run(w, steps));
      RunAppend(w, steps, more);
      steps := steps + more;
    }
  }

  lemma TimerArmed(p: Peer)
    requires SenderOk(p) && p.link.unack != []
    ensures p.link.timer
  {}

  // With empty channels, the timer takes back whatever is outstanding.
  lemma Rewind(w: World) returns (steps: seq<Step>)
    requires Inv(w) && InFlight(w) == 0
    ensures LossFree(steps)
    ensures var v := Run(w, steps); Inv(v) && Ready(v) && SameSubmissions(w, v)
  {
    if w.a.link.unack == [] {
      steps := [];
    } else {
      steps := [Step(A, Timer)];
      TimerArmed(w.a);
      hide Inv, Run, SenderOk;
      RunA(w, Timer);
    }
  }

  lemma OneSide(w: World) returns (steps: seq<Step>)
    requires Inv(w)
    ensures LossFree(steps)
    ensures var v := Run(w, steps); Inv(v) && Delivered(v) && SameSubmissions(w, v)
  {
    hide Inv, Run, Ready, Delivered;
    var s1 := Drain(w);
    var s2 := Rewind(Run(w, s1));
    var s3 := Finish(Run(Run(w, s1), s2));
    RunAppend(w, s1, s2);
    RunAppend(w, s1 + s2, s3);
    steps := s1 + s2 + s3;
  }

  /** Both ways: what a has finished stays finished while b finishes. */

  function FlipStep(s: Step): Step { Step(if s.side == A then B else A, s.act) }

  function FlipSteps(steps: seq<Step>): seq<Step> { seq(|steps|, i requires 0 <= i < |steps| => FlipStep(steps[i])) }

  lemma FlipsAreHelpful(steps: seq<Step>)
    requires LossFree(steps)
    ensures LossFree(FlipSteps(steps))
  {
    forall s | s in FlipSteps(steps)
      ensures Helpful(s)
    {
      var i :| 0 <= i < |steps| && s == FlipStep(steps[i]);
      assert Helpful(steps[i]);
    }
  }

  lemma {:induction false} RunFlipped(w: World, steps: seq<Step>)
    ensures Run(Flip(w), FlipSteps(steps)) == Flip(Run(w, steps))
    decreases |steps|
  {
    hide ActA;
    if steps != [] {
      RunFlipped(Do(w, steps[0]), steps[1..]);
      assert FlipSteps(steps)[1..] == FlipSteps(steps[1..]);
    }
  }

  // A frame gives an endpoint nothing new to send.
  lemma TakesAndStays(w: World)
    requires Inv(w) && Delivered(w) && w.ba != []
    ensures var q := Take(w.a, w.ba[0].frame);
      q.link.rel == [] && q.link.unack == [] && q.sent == w.a.sent
  {
    TakeFirst(w);
    LinkAfterFrame(w.a.link, w.ba[0].frame);
    hide Inv, PeerOk, CompleteRx, CullCount, TakeOk;
  }

  // a has nothing left to send, so nothing it does can change that.
  lemma AStays(w: World, act: Act)
    requires Inv(w) && Delivered(w) && act in {Send(ALL), Timer, Receive}
    ensures var v := ActA(w, act); Delivered(v) && SameSubmissions(w, v)
  {
    if act == Receive {
      if w.ba != [] {
        TakesAndStays(w);
      }
    }
    hide Inv, Take;
  }

  // b can only accept what a submitted, and it has all of that already.
  lemma BStays(u: World, act: Act)
    requires Inv(u) && Delivered(Flip(u)) && act in {Send(ALL), Timer, Receive}
    ensures var v := ActA(u, act); Delivered(Flip(v)) && SameSubmissions(Flip(u), Flip(v))
  {
    hide Inv, TakeOk, Take, Transmit;
    ActIsSafe(u, act);
    NotAhead(ActA(u, act));
    AcceptedGrows(u, act);
  }

  lemma NotAhead(w: World)
    requires Inv(w)
    ensures |w.a.accepted| <= |w.b.sent|
  {}

  lemma AcceptedGrows(u: World, act: Act)
    requires act in {Send(ALL), Timer, Receive}
    ensures var v := ActA(u, act);
      |u.a.accepted| <= |v.a.accepted| && v.a.sent == u.a.sent && v.b == u.b
  {
    hide Dequeue, CompleteRx, Timeout, UpOf;
  }

  lemma StaysDelivered(w: World, step: Step)
    requires Inv(w) && Delivered(w) && Helpful(step)
    ensures Delivered(Do(w, step)) && SameSubmissions(w, Do(w, step))
  {
    FlipKeeps(w);
    hide Inv, ActA;
    if step.side == A {
      AStays(w, step.act);
    } else {
      BStays(Flip(w), step.act);
    }
  }

  lemma {:induction false} StaysDeliveredOverRun(w: World, steps: seq<Step>)
    requires Inv(w) && Delivered(w) && LossFree(steps)
    ensures Delivered(Run(w, steps)) && SameSubmissions(w, Run(w, steps))
    decreases |steps|
  {
    hide Inv, Do, Delivered;
    if steps != [] {
      StaysDelivered(w, steps[0]);
      DoIsSafe(w, steps[0]);
      StaysDeliveredOverRun(Do(w, steps[0]), steps[1..]);
    }
  }

  lemma BothSides(w: World) returns (steps: seq<Step>)
    requires Inv(w)
    ensures LossFree(steps)
    ensures var v := Run(w, steps); Inv(v) && SameSubmissions(w, v) && Delivered(v) && Delivered(Flip(v))
  {
    hide Inv, Run, Delivered;
    var s1 := OneSide(w);
    var mid := Run(w, s1);
    FlipKeeps(mid);
    var s2 := OneSide(Flip(mid));
    RunFlipped(Flip(mid), s2);
    steps := FlipSteps(s2);
    FlipsAreHelpful(s2);
    StaysDeliveredOverRun(mid, steps);
    RunIsSafe(mid, steps);
    RunAppend(w, s1, steps);
    steps := s1 + steps;
  }

  // From every reachable state some loss-free run delivers everything submitted on both sides
  // and leaves both endpoints with nothing to send again.
  lemma NoDeadlock(cfgA: Config, cfgB: Config, past: seq<Step>) returns (steps: seq<Step>)
    ensures LossFree(steps)
    ensures var w := Run(Start(cfgA, cfgB), past);
      var v := Run(w, steps);
      && SameSubmissions(w, v)
      && v.a.link.rel == v.a.link.unack == [] && v.b.accepted == SentWires(v.a)
      && v.b.link.rel == v.b.link.unack == [] && v.a.accepted == SentWires(v.b)
  {
    StartIsSafe(cfgA, cfgB);
    RunIsSafe(Start(cfgA, cfgB), past);
    var w := Run(Start(cfgA, cfgB), past);
    steps := BothSides(w);
    var v := Run(w, steps);
    hide Inv, Run, Wires, Start;
    AcceptedSome(v);
    AcceptedSome(Flip(v));
  }

  lemma AcceptedSome(w: World)
    requires Inv(w)
    ensures w.b.accepted <= SentWires(w.a) && |SentWires(w.a)| == |w.a.sent|
    ensures Inv(Flip(w))
  {}
}
