// Exactly when quiet Three-wire (H5) endpoints get everything across: a condition on their
// counters, windows, queues and acknowledgement flags that can be read off the two states.
// Source: drivers/blue8852be/hci_h5.c, lines 176-185, 284-324, 387-400, 463-468 and 680-796.
module H5Progress {
  import opened Bytes
  import opened Framing
  import opened GoBackN
  import opened H5Link
  import opened H5Run
  import opened H5Stall

  /** Quiet endpoints, and the condition. */

  // Active and awake, with nothing under way and nothing unreliable queued; the timer guards
  // whatever is outstanding. The windows are arbitrary.
  ghost predicate Calm(w: World) {
    && Talking(w) && w.ab == [] && w.ba == []
    && w.a.link.unrel == [] && w.b.link.unrel == []
    && TimerOk(w.a.link) && TimerOk(w.b.link)
  }

  // The next packet q expects was submitted to p and fits p's window.
  predicate CanOffer(p: Peer, q: Peer) { |q.accepted| < |p.sent| && |q.accepted| < p.culled + p.link.txWin }

  // An acknowledgement of all q accepted names packets p has outstanding or may send again.
  predicate CanHear(p: Peer, q: Peer) { |q.accepted| <= p.culled + Reach(p) }

  // Once acknowledged, p can send the rest.
  predicate CanGoOn(p: Peer, q: Peer) { |q.accepted| == |p.sent| || p.link.txWin > 0 }

  // q can put an acknowledgement on a frame p takes: a bare one, or a packet p expects, if need
  // be after p has told q what it accepted.
  predicate CanAnswer(q: Peer, p: Peer, lean: bool) {
    || Owes(q.link, lean)
    || (|p.accepted| < |q.sent| && q.link.txWin > 0
        && (CanOffer(q, p) || (Owes(p.link, lean) && CanHear(q, p))))
  }

  // Whether a gets through, if every allocation succeeds; if memory may run out (lean), a failing
  // allocation can help a bare acknowledgement out.
  predicate Recoverable(w: World, lean: bool) {
    var p, q := w.a, w.b;
    || p.culled == |p.sent|
    || CanOffer(p, q)
    || (CanHear(p, q) && CanGoOn(p, q) && CanAnswer(q, p, lean))
  }

  predicate CanRecover(w: World) { Recoverable(w, false) }

  predicate Emptied(p: Peer) { p.link.rel == [] && p.link.unack == [] }

  lemma EmptiedIs(w: World)
    requires Inv(w)
    ensures Emptied(w.a) <==> w.a.culled == |w.a.sent|
  {
    PeersOk(w);
    assert |w.a.link.unack + w.a.link.rel| == |w.a.sent[w.a.culled..]|;
  }

  /** When it does not hold. */

  lemma NeverRecovers(w: World, steps: seq<Step>, lean: bool)
    requires Calm(w) && !Recoverable(w, lean) && AllQuiet(steps, lean)
    ensures !Emptied(Run(w, steps).a)
  {
    PeersOk(w);
    var v := Run(w, steps);
    if !CanHear(w.a, w.b) {
      ShrunkWindowStalls(w, steps);
    } else if |w.b.accepted| < |w.a.sent| && w.a.link.txWin == 0 {
      ZeroWindowStalls(w, steps);
    } else {
      LostAcksStall(w, steps, lean);
    }
    hide Talking, Run, Deaf, Mute, ZeroWindow, Recoverable, PeerOk;
    StalledIsNotEmptied(v, lean);
  }

  lemma StalledIsNotEmptied(v: World, lean: bool)
    requires Deaf(v) || ZeroWindow(v) || Mute(v, lean)
    requires v.a.culled < |v.a.sent|
    ensures !Emptied(v.a)
  {
    hide Inv;
    EmptiedIs(v);
  }

  /** When it does: runs of single exchanges, in which nothing is lost. */

  predicate Helpful(act: Act, lean: bool) { Quiet(act, lean) && !act.Lose? }

  predicate LossFree(steps: seq<Step>, lean: bool) { forall step :: step in steps ==> Helpful(step.act, lean) }

  lemma {:induction false} RunAppend(w: World, s: seq<Step>, t: seq<Step>)
    ensures Run(w, s + t) == Run(Run(w, s), t)
    decreases |s|
  {
    hide Do;
    if s == [] {
      assert s + t == t;
    } else {
      RunAppend(Do(w, s[0]), s[1..], t);
      assert (s + t)[1..] == s[1..] + t;
    }
  }

  lemma RunOne(w: World, step: Step)
    ensures Run(w, [step]) == Do(w, step)
  {
    hide Do;
    assert [step][1..] == [];
  }

  function Pass(alloc: Allocs): seq<Step> { [Step(A, Send(alloc))] + [Step(B, Receive)] }

  // The first half of an exchange: a's frame is on its way.
  lemma Sent(w: World, alloc: Allocs) returns (mid: World)
    requires Calm(w) && Transmit(w.a, alloc).out != []
    ensures mid == Run(w, [Step(A, Send(alloc))]) && Talking(mid)
    ensures mid.ab == Transmit(w.a, alloc).out && |mid.ab| == 1 && mid.ba == [] && mid.b == w.b
    ensures Kept(w.a, mid.a) && Acted(w.a, mid.a, Send(alloc), mid.ab, []) && mid.a.link.unrel == []
  {
    mid := ActA(w, Send(alloc));
    TalkingKeeps(w, Send(alloc));
    ActedOn(w, Send(alloc));
    RunOne(w, Step(A, Send(alloc)));
    hide Talking, ActA, Transmit, Run, Steady, TimerOk;
  }

  // The second half: b takes it.
  lemma Taken(w: World) returns (v: World)
    requires Talking(w) && |w.ab| == 1 && w.ba == []
    ensures v == Run(w, [Step(B, Receive)]) && Talking(v)
    ensures v.ab == [] && v.ba == [] && v.a == w.a
    ensures Kept(w.b, v.b) && Acted(w.b, v.b, Receive, [], w.ab)
  {
    var u := ActA(Flip(w), Receive);
    TalkingFlips(w);
    TalkingKeeps(Flip(w), Receive);
    ActedOn(Flip(w), Receive);
    TalkingFlips(u);
    RunOne(w, Step(B, Receive));
    v := Flip(u);
    hide Talking, ActA, Run, Steady, TimerOk, Acted;
  }

  // a sends one frame and b takes it.
  lemma PassOver(w: World, alloc: Allocs) returns (v: World)
    requires Calm(w) && Transmit(w.a, alloc).out != []
    ensures v == Run(w, Pass(alloc)) && Calm(v) && Kept(w.a, v.a) && Kept(w.b, v.b)
    ensures var out := Transmit(w.a, alloc).out;
      Acted(w.a, v.a, Send(alloc), out, []) && Acted(w.b, v.b, Receive, [], out)
  {
    hide Talking, Transmit, Run, Steady, TimerOk;
    var mid := Sent(w, alloc);
    v := Taken(mid);
    RunAppend(w, [Step(A, Send(alloc))], [Step(B, Receive)]);
  }

  lemma Lossless(lean: bool)
    ensures LossFree([], lean) && LossFree([Step(A, Timer)], lean) && LossFree(Pass(ALL), lean)
  {}

  // What an endpoint keeps that only sends, or rolls back.
  predicate SameCounts(p: Peer, q: Peer) {
    q.culled == p.culled && q.sent == p.sent && q.accepted == p.accepted && q.link.txWin == p.link.txWin
  }

  // What an endpoint keeps that takes a frame saying that so many were accepted.
  predicate Told(p: Peer, q: Peer, said: nat) {
    && q.sent == p.sent && q.link.txWin == p.link.txWin && q.link.rel == p.link.rel
    && q.culled == (if said <= p.culled + |p.link.unack| then said else p.culled)
    && q.culled + |q.link.unack| == p.culled + |p.link.unack|
  }

  // The allocations for which an owed acknowledgement goes out by itself.
  function AckAllocs(l: Link): Allocs { if Jam(l) then Allocs(true, true, false, true) else ALL }

  lemma SendsAck(p: Peer)
    requires Steady(p.link) && p.link.unrel == [] && p.link.ackReq
    ensures var t := Transmit(p, AckAllocs(p.link)); t.out != [] && !t.out[0].rel
  {}

  lemma SendsReliable(p: Peer)
    requires Steady(p.link) && p.link.unrel == [] && Jam(p.link)
    ensures var out := Transmit(p, ALL).out; out != [] && out[0].rel
  {}

  lemma CalmParts(w: World)
    requires Calm(w)
    ensures Inv(w) && Steady(w.a.link) && Steady(w.b.link)
    ensures w.a.culled <= |w.b.accepted| <= |w.a.sent| && w.b.culled <= |w.a.accepted| <= |w.b.sent|
    ensures w.a.culled + |w.a.link.unack| + |w.a.link.rel| == |w.a.sent|
    ensures w.b.culled + |w.b.link.unack| + |w.b.link.rel| == |w.b.sent|
  {
    PeersOk(w);
    assert |w.a.link.unack + w.a.link.rel| == |w.a.sent[w.a.culled..]|;
    assert |w.b.link.unack + w.b.link.rel| == |w.b.sent[w.b.culled..]|;
  }

  // a repeats a packet its peer has already.
  lemma SendOld(w: World) returns (v: World)
    requires Calm(w) && Jam(w.a.link) && w.a.culled + |w.a.link.unack| < |w.b.accepted|
    ensures v == Run(w, Pass(ALL)) && Calm(v) && v.b == w.b && SameCounts(w.a, v.a)
    ensures |v.a.link.unack| == |w.a.link.unack| + 1
  {
    CalmParts(w);
    SendsReliable(w.a);
    hide Inv, Talking, Transmit, Run, Steady, Calm;
    v := PassOver(w, ALL);
  }

  // a sends the packet its peer expects.
  lemma SendNew(w: World) returns (v: World)
    requires Calm(w) && Jam(w.a.link) && w.a.culled + |w.a.link.unack| == |w.b.accepted|
    ensures v == Run(w, Pass(ALL)) && Calm(v) && SameCounts(w.a, v.a)
    ensures |v.a.link.unack| == |w.a.link.unack| + 1
    ensures |v.b.accepted| == |w.b.accepted| + 1 && v.b.link.ackReq && Told(w.b, v.b, |w.a.accepted|)
  {
    CalmParts(w);
    SendsReliable(w.a);
    hide Inv, Talking, Transmit, Run, Steady, Calm;
    v := PassOver(w, ALL);
  }

  // a sends a bare acknowledgement.
  lemma Acknowledge(w: World, lean: bool) returns (v: World)
    requires Calm(w) && Owes(w.a.link, lean)
    ensures LossFree(Pass(AckAllocs(w.a.link)), lean)
    ensures v == Run(w, Pass(AckAllocs(w.a.link))) && Calm(v) && SameCounts(w.a, v.a)
    ensures |v.a.link.unack| == |w.a.link.unack|
    ensures v.b.accepted == w.b.accepted && v.b.link.ackReq == w.b.link.ackReq && Told(w.b, v.b, |w.a.accepted|)
  {
    CalmParts(w);
    assert Steady(w.a.link) && w.a.link.unrel == [];
    SendsAck(w.a);
    hide Inv, Talking, Transmit, Run, Steady, Calm;
    v := PassOver(w, AckAllocs(w.a.link));
  }

  // a rolls back.
  lemma Rewind(w: World, lean: bool) returns (steps: seq<Step>)
    requires Calm(w)
    ensures LossFree(steps, lean)
    ensures var v := Run(w, steps);
      && Calm(v) && v.b == w.b && SameCounts(w.a, v.a) && v.a.link.unack == [] && v.a.link.ackReq == w.a.link.ackReq
  {
    Lossless(lean);
    steps := if w.a.link.unack == [] then [] else [Step(A, Timer)];
    hide LossFree;
    if w.a.link.unack != [] {
      TalkingKeeps(w, Timer);
      ActedOn(w, Timer);
      RunOne(w, Step(A, Timer));
      hide Talking, ActA, Run, Steady;
    }
  }

  // a repeats old packets until an acknowledgement of all its peer accepted would be understood.
  lemma {:induction false} Repeat(w: World, lean: bool) returns (steps: seq<Step>)
    requires Calm(w) && CanHear(w.a, w.b)
    ensures LossFree(steps, lean)
    ensures var v := Run(w, steps);
      && Calm(v) && v.b == w.b && SameCounts(w.a, v.a)
      && |w.b.accepted| <= v.a.culled + |v.a.link.unack|
      && (w.a.culled + |w.a.link.unack| <= |w.b.accepted| ==> v.a.culled + |v.a.link.unack| == |w.b.accepted|)
      && (|w.b.accepted| <= w.a.culled + |w.a.link.unack| ==> v == w)
    decreases |w.b.accepted| - (w.a.culled + |w.a.link.unack|)
  {
    CalmParts(w);
    Lossless(lean);
    hide Calm, Inv, Steady, LossFree;
    if |w.b.accepted| <= w.a.culled + |w.a.link.unack| {
      steps := [];
    } else {
      var v := SendOld(w);
      var more := Repeat(v, lean);
      hide Run;
      Chain(w, Pass(ALL), more, lean);
      steps := Pass(ALL) + more;
    }
  }

  lemma Flipped(w: World)
    ensures Calm(Flip(w)) == Calm(w) && Flip(Flip(w)) == w
  {
    TalkingFlips(w);
    hide Talking;
  }

  function FlipStep(s: Step): Step { Step(if s.side == A then B else A, s.act) }

  function FlipSteps(steps: seq<Step>): seq<Step> { seq(|steps|, i requires 0 <= i < |steps| => FlipStep(steps[i])) }

  lemma {:induction false} RunFlipped(w: World, steps: seq<Step>)
    ensures Run(Flip(w), FlipSteps(steps)) == Flip(Run(w, steps))
    decreases |steps|
  {
    hide ActA;
    if steps != [] {
      RunFlipped(Do(w, steps[0]), steps[1..]);
      assert FlipSteps(steps)[1..] == FlipSteps(steps[1..]);
    }
  }

  // A run of the flipped world, seen from here.
  lemma FlipBack(w: World, steps: seq<Step>, lean: bool)
    requires LossFree(steps, lean)
    ensures LossFree(FlipSteps(steps), lean)
    ensures Run(w, FlipSteps(steps)) == Flip(Run(Flip(w), steps))
    ensures Calm(Run(w, FlipSteps(steps))) == Calm(Run(Flip(w), steps))
  {
    RunFlipped(Flip(w), steps);
    Flipped(Run(Flip(w), steps));
    hide Run, Calm;
  }

  lemma Chain(w: World, s: seq<Step>, t: seq<Step>, lean: bool)
    requires LossFree(s, lean) && LossFree(t, lean)
    ensures LossFree(s + t, lean) && Run(w, s + t) == Run(Run(w, s), t)
  {
    RunAppend(w, s, t);
    hide Run;
  }

  // a gets the packet its peer expects across; until then the peer is not disturbed.
  lemma Offer(w: World, lean: bool) returns (steps: seq<Step>)
    requires Calm(w) && CanOffer(w.a, w.b)
    ensures LossFree(steps, lean)
    ensures var v := Run(w, steps);
      && Calm(v) && SameCounts(w.a, v.a) && v.a.culled + |v.a.link.unack| == |v.b.accepted|
      && |v.b.accepted| == |w.b.accepted| + 1 && v.b.link.ackReq && Told(w.b, v.b, |w.a.accepted|)
  {
    hide Calm, Run, Told, LossFree;
    var s := UpToDate(w, lean);
    var v := SendNew(Run(w, s));
    Lossless(lean);
    Chain(w, s, Pass(ALL), lean);
    steps := s + Pass(ALL);
  }

  // a repeats from the start exactly what its peer has already.
  lemma UpToDate(w: World, lean: bool) returns (steps: seq<Step>)
    requires Calm(w) && CanOffer(w.a, w.b)
    ensures LossFree(steps, lean)
    ensures var v := Run(w, steps);
      && Calm(v) && v.b == w.b && SameCounts(w.a, v.a)
      && v.a.culled + |v.a.link.unack| == |v.b.accepted| && Jam(v.a.link)
  {
    CalmParts(w);
    hide Calm, Inv, Steady, Run, LossFree;
    var s1 := Rewind(w, lean);
    var w1 := Run(w, s1);
    var s2 := Repeat(w1, lean);
    CalmParts(Run(w1, s2));
    Chain(w, s1, s2, lean);
    steps := s1 + s2;
  }

  // b acknowledges, and everything it accepted is released.
  lemma Answer(w: World, lean: bool) returns (steps: seq<Step>)
    requires Calm(w) && Owes(w.b.link, lean) && |w.b.accepted| <= w.a.culled + |w.a.link.unack|
    ensures LossFree(steps, lean)
    ensures var v := Run(w, steps);
      && Calm(v) && SameCounts(w.b, v.b) && |v.b.link.unack| == |w.b.link.unack|
      && v.a.sent == w.a.sent && v.a.link.txWin == w.a.link.txWin && v.a.accepted == w.a.accepted
      && v.a.link.ackReq == w.a.link.ackReq && v.a.link.rel == w.a.link.rel && v.a.culled == |v.b.accepted|
  {
    hide Calm, Run, LossFree;
    Flipped(w);
    var u := Acknowledge(Flip(w), lean);
    var t := Pass(AckAllocs(w.b.link));
    FlipBack(w, t, lean);
    steps := FlipSteps(t);
  }

  // a rolls back and sends until no packet takes the place of a bare acknowledgement. What it
  // sends arrives, so nothing is outstanding that its peer has not accepted.
  lemma Unjam(w: World, lean: bool) returns (steps: seq<Step>)
    requires Calm(w)
    ensures LossFree(steps, lean)
    ensures var v := Run(w, steps);
      && Calm(v) && SameCounts(w.a, v.a) && !Jam(v.a.link) && v.a.culled + |v.a.link.unack| <= |v.b.accepted|
      && v.b.sent == w.b.sent && v.b.link.txWin == w.b.link.txWin && w.b.culled <= v.b.culled
      && |w.b.accepted| <= |v.b.accepted|
  {
    CalmParts(w);
    hide Calm, Inv, Steady, Run, LossFree;
    var s1 := Rewind(w, lean);
    var s2 := SendAll(Run(w, s1), lean);
    Chain(w, s1, s2, lean);
    steps := s1 + s2;
  }

  lemma {:induction false} SendAll(w: World, lean: bool) returns (steps: seq<Step>)
    requires Calm(w) && w.a.culled + |w.a.link.unack| <= |w.b.accepted|
    ensures LossFree(steps, lean)
    ensures var v := Run(w, steps);
      && Calm(v) && SameCounts(w.a, v.a) && !Jam(v.a.link) && v.a.culled + |v.a.link.unack| <= |v.b.accepted|
      && v.b.sent == w.b.sent && v.b.link.txWin == w.b.link.txWin && w.b.culled <= v.b.culled
      && |w.b.accepted| <= |v.b.accepted|
    decreases if Jam(w.a.link) then w.a.link.txWin - |w.a.link.unack| else 0
  {
    CalmParts(w);
    Lossless(lean);
    hide Calm, Inv, Steady, LossFree;
    if !Jam(w.a.link) {
      steps := [];
    } else {
      var v: World;
      if w.a.culled + |w.a.link.unack| < |w.b.accepted| {
        v := SendOld(w);
      } else {
        v := SendNew(w);
      }
      var more := SendAll(v, lean);
      hide Run;
      Chain(w, Pass(ALL), more, lean);
      steps := Pass(ALL) + more;
    }
  }

  // b answers: by a bare acknowledgement, or on the packet a expects.
  lemma Reply(w: World, lean: bool) returns (steps: seq<Step>)
    requires Calm(w) && w.b.link.ackReq && |w.b.accepted| <= w.a.culled + |w.a.link.unack|
    requires Jam(w.b.link) ==> w.b.culled + |w.b.link.unack| == |w.a.accepted|
    ensures LossFree(steps, lean)
    ensures var v := Run(w, steps);
      && Calm(v) && SameCounts(w.b, v.b) && v.a.sent == w.a.sent && v.a.link.txWin == w.a.link.txWin
      && v.a.culled == |v.b.accepted| && |w.a.accepted| <= |v.a.accepted|
      && (v.a.accepted == w.a.accepted
          || (v.a.link.ackReq && |v.a.accepted| <= v.b.culled + |v.b.link.unack|))
  {
    hide Calm, Run, LossFree;
    if Jam(w.b.link) {
      Flipped(w);
      var u := SendNew(Flip(w));
      Lossless(lean);
      FlipBack(w, Pass(ALL), lean);
      steps := FlipSteps(Pass(ALL));
    } else {
      steps := Answer(w, lean);
    }
  }

  // One packet goes across and is acknowledged, whatever the other direction can hear.
  lemma Round(w: World, lean: bool) returns (steps: seq<Step>)
    requires Calm(w) && CanOffer(w.a, w.b)
    ensures LossFree(steps, lean)
    ensures var v := Run(w, steps);
      && Calm(v) && v.a.sent == w.a.sent && v.a.link.txWin == w.a.link.txWin
      && |v.b.accepted| == |w.b.accepted| + 1 && v.a.culled == |v.b.accepted|
  {
    CalmParts(w);
    hide Calm, Inv, Steady, Run, LossFree;
    Flipped(w);
    var t := Unjam(Flip(w), lean);
    FlipBack(w, t, lean);
    var s1 := FlipSteps(t);
    var w1 := Run(w, s1);
    var s2 := Offer(w1, lean);
    var w2 := Run(w1, s2);
    var s3 := Reply(w2, lean);
    Chain(w, s1, s2, lean);
    Chain(w, s1 + s2, s3, lean);
    steps := s1 + s2 + s3;
  }

  // With everything released, one packet after the other goes across and is acknowledged.
  lemma {:induction false} Finish(w: World, lean: bool) returns (steps: seq<Step>)
    requires Calm(w) && w.a.culled == |w.b.accepted| && CanGoOn(w.a, w.b)
    ensures LossFree(steps, lean)
    ensures var v := Run(w, steps); Calm(v) && v.a.culled == |v.a.sent|
    decreases |w.a.sent| - |w.b.accepted|
  {
    CalmParts(w);
    Lossless(lean);
    hide Calm, Inv, Steady, LossFree;
    if w.a.culled == |w.a.sent| {
      steps := [];
    } else {
      var s1 := Round(w, lean);
      var w1 := Run(w, s1);
      CalmParts(w1);
      var s2 := Finish(w1, lean);
      hide Run;
      Chain(w, s1, s2, lean);
      steps := s1 + s2;
    }
  }

  // An acknowledgement that can be heard releases all that was accepted.
  lemma Heard(w: World, lean: bool) returns (steps: seq<Step>)
    requires Calm(w) && CanHear(w.a, w.b) && Owes(w.b.link, lean)
    ensures LossFree(steps, lean)
    ensures var v := Run(w, steps);
      && Calm(v) && SameCounts(w.b, v.b) && |v.b.link.unack| == |w.b.link.unack|
      && v.a.sent == w.a.sent && v.a.link.txWin == w.a.link.txWin && v.a.accepted == w.a.accepted
      && v.a.culled == |v.b.accepted|
  {
    hide Calm, Run, CanHear, LossFree, Owes;
    var s1 := Repeat(w, lean);
    var s2 := Answer(Run(w, s1), lean);
    Chain(w, s1, s2, lean);
    steps := s1 + s2;
  }

  lemma RecoverByAck(w: World, lean: bool) returns (steps: seq<Step>)
    requires Calm(w) && CanHear(w.a, w.b) && CanGoOn(w.a, w.b) && Owes(w.b.link, lean)
    ensures LossFree(steps, lean)
    ensures var v := Run(w, steps); Calm(v) && v.a.culled == |v.a.sent|
  {
    hide Calm, Run, CanHear, LossFree;
    var s1 := Heard(w, lean);
    var s2 := Finish(Run(w, s1), lean);
    Chain(w, s1, s2, lean);
    steps := s1 + s2;
  }

  // So does a packet of the peer's that a expects.
  lemma RecoverByPacket(w: World, lean: bool) returns (steps: seq<Step>)
    requires Calm(w) && CanHear(w.a, w.b) && CanGoOn(w.a, w.b) && CanOffer(w.b, w.a)
    ensures LossFree(steps, lean)
    ensures var v := Run(w, steps); Calm(v) && v.a.culled == |v.a.sent|
  {
    hide Calm, Run, CanHear, LossFree;
    var s1 := Repeat(w, lean);
    var w1 := Run(w, s1);
    Flipped(w1);
    var t := Offer(Flip(w1), lean);
    FlipBack(w1, t, lean);
    var s2 := FlipSteps(t);
    var s3 := Finish(Run(w1, s2), lean);
    Chain(w, s1, s2, lean);
    Chain(w, s1 + s2, s3, lean);
    steps := s1 + s2 + s3;
  }

  // And so does a packet b can only send once a has acknowledged the ones before.
  lemma RecoverByTurns(w: World, lean: bool) returns (steps: seq<Step>)
    requires Calm(w) && CanHear(w.a, w.b) && CanGoOn(w.a, w.b)
    requires |w.a.accepted| < |w.b.sent| && w.b.link.txWin > 0 && Owes(w.a.link, lean) && CanHear(w.b, w.a)
    ensures LossFree(steps, lean)
    ensures var v := Run(w, steps); Calm(v) && v.a.culled == |v.a.sent|
  {
    hide Calm, Run, LossFree, Owes;
    Flipped(w);
    var t := Heard(Flip(w), lean);
    FlipBack(w, t, lean);
    var s1 := FlipSteps(t);
    var s2 := RecoverByPacket(Run(w, s1), lean);
    Chain(w, s1, s2, lean);
    steps := s1 + s2;
  }

  lemma RecoverByOffer(w: World, lean: bool) returns (steps: seq<Step>)
    requires Calm(w) && CanOffer(w.a, w.b)
    ensures LossFree(steps, lean)
    ensures var v := Run(w, steps); Calm(v) && v.a.culled == |v.a.sent|
  {
    CalmParts(w);
    hide Calm, Run, LossFree;
    var s1 := Round(w, lean);
    var s2 := Finish(Run(w, s1), lean);
    Chain(w, s1, s2, lean);
    steps := s1 + s2;
  }

  lemma Recovers(w: World, lean: bool) returns (steps: seq<Step>)
    requires Calm(w) && Recoverable(w, lean)
    ensures LossFree(steps, lean) && Emptied(Run(w, steps).a)
  {
    hide Calm, CanHear, CanOffer, CanGoOn, Owes, LossFree;
    Lossless(lean);
    steps := [];
    if w.a.culled == |w.a.sent| {
      assert Run(w, []) == w;
    } else if CanOffer(w.a, w.b) {
      steps := RecoverByOffer(w, lean);
    } else if Owes(w.b.link, lean) {
      steps := RecoverByAck(w, lean);
    } else if CanOffer(w.b, w.a) {
      steps := RecoverByPacket(w, lean);
    } else {
      steps := RecoverByTurns(w, lean);
    }
    hide Run, Recoverable;
    CalmParts(Run(w, steps));
    EmptiedIs(Run(w, steps));
  }

  // The two halves together, for both readings of what memory may do; losing frames or not
  // makes no difference.
  lemma RecoverableExactlyWhen(w: World, lean: bool)
    requires Calm(w)
    ensures Recoverable(w, lean) <==> exists steps :: AllQuiet(steps, lean) && Emptied(Run(w, steps).a)
    ensures Recoverable(w, lean) <==> exists steps :: LossFree(steps, lean) && Emptied(Run(w, steps).a)
  {
    forall steps | LossFree(steps, lean)
      ensures AllQuiet(steps, lean)
    {
    }
    hide Calm, AllQuiet, LossFree, Emptied, Run, Recoverable;
    if Recoverable(w, lean) {
      var steps := Recovers(w, lean);
    } else {
      forall steps | AllQuiet(steps, lean)
        ensures !Emptied(Run(w, steps).a)
      {
        NeverRecovers(w, steps, lean);
      }
    }
  }

  // From quiet endpoints, whatever the windows, with every allocation succeeding: some run in
  // which nobody hands over anything new gets everything a was given across and acknowledged if
  // and only if the condition holds; and then losing nothing is enough.
  lemma RecoversExactlyWhen(w: World)
    requires Calm(w)
    ensures CanRecover(w) <==> exists steps :: AllQuiet(steps, false) && Emptied(Run(w, steps).a)
    ensures CanRecover(w) <==> exists steps :: LossFree(steps, false) && Emptied(Run(w, steps).a)
  {
    hide Calm, AllQuiet, LossFree, Emptied, Run, Recoverable;
    RecoverableExactlyWhen(w, false);
  }

  // If allocations may fail, an owed acknowledgement can always go out by itself: a reliable
  // packet ahead of it does not get its buffer.
  lemma RecoversWithFailuresExactlyWhen(w: World)
    requires Calm(w)
    ensures Recoverable(w, true) <==> exists steps :: AllQuiet(steps, true) && Emptied(Run(w, steps).a)
  {
    hide Calm, AllQuiet, LossFree, Emptied, Run, Recoverable;
    RecoverableExactlyWhen(w, true);
  }

  // A whole window accepted whose acknowledgements are all lost stalls, though more packets wait,
  // whatever memory does.
  lemma LostWindowStalls(w: World, steps: seq<Step>, lean: bool)
    requires Calm(w) && AllQuiet(steps, lean) && !w.b.link.ackReq && |w.a.accepted| == |w.b.sent|
    requires w.a.culled + w.a.link.txWin == |w.b.accepted| < |w.a.sent|
    ensures !Emptied(Run(w, steps).a)
  {
    CalmParts(w);
    hide Calm, Run, AllQuiet, Emptied;
    NeverRecovers(w, steps, lean);
  }
}
