// When one run of quiet Three-wire (H5) endpoints gets everything across in both directions.
// Source: drivers/blue8852be/hci_h5.c, lines 176-185, 284-324, 387-400, 463-468 and 680-796.
module H5BothEnds {
  import opened GoBackN
  import opened H5Link
  import opened H5Run
  import opened H5Stall
  import opened H5Progress

  // Everything b accepted is released, and what a accepted is released or can be told.
  ghost predicate Settled(w: World) {
    && Calm(w) && w.a.culled == |w.b.accepted| && CanGoOn(w.a, w.b) && CanGoOn(w.b, w.a)
    && (w.b.culled == |w.a.accepted|
        || (w.a.link.ackReq && |w.a.accepted| <= w.b.culled + |w.b.link.unack|))
  }

  function Missing(w: World): int { |w.a.sent| - |w.b.accepted| + |w.b.sent| - |w.a.accepted| }

  // a gets its next packet across and acknowledged, and tells b what it accepted on the way.
  lemma Turn(w: World) returns (steps: seq<Step>)
    requires Calm(w) && CanOffer(w.a, w.b) && CanHear(w.b, w.a) && CanGoOn(w.b, w.a)
    ensures LossFree(steps, false)
    ensures var v := Run(w, steps); Settled(v) && Missing(v) < Missing(w)
  {
    CalmParts(w);
    hide Calm, Run, LossFree, CanHear, Inv, Steady;
    Flipped(w);
    var t1 := Repeat(Flip(w), false);
    FlipBack(w, t1, false);
    var s1 := FlipSteps(t1);
    var w1 := Run(w, s1);
    var s2 := Offer(w1, false);
    var w2 := Run(w1, s2);
    Flipped(w2);
    var t3 := Rewind(Flip(w2), false);
    FlipBack(w2, t3, false);
    var s3 := FlipSteps(t3);
    var w3 := Run(w2, s3);
    var s4 := Reply(w3, false);
    CalmParts(Run(w3, s4));
    Chain(w, s1, s2, false);
    Chain(w, s1 + s2, s3, false);
    Chain(w, s1 + s2 + s3, s4, false);
    steps := s1 + s2 + s3 + s4;
  }

  predicate BothEmptied(w: World) { Emptied(w.a) && Emptied(w.b) }

  lemma BothEmptiedIs(w: World)
    requires Calm(w)
    ensures BothEmptied(w) <==> w.a.culled == |w.a.sent| && w.b.culled == |w.b.sent|
  {
    CalmParts(w);
  }

  lemma MissingIsNat(w: World)
    requires Calm(w)
    ensures Missing(w) >= 0
  {
    CalmParts(w);
  }

  lemma {:induction false} FinishBoth(w: World) returns (steps: seq<Step>)
    requires Settled(w) && Missing(w) >= 0
    ensures LossFree(steps, false) && BothEmptied(Run(w, steps))
    decreases Missing(w), if w.b.culled == |w.a.accepted| then 0 else 1, 1
  {
    CalmParts(w);
    BothEmptiedIs(w);
    Lossless(false);
    hide Calm, Inv, Steady, LossFree, BothEmptied;
    if w.a.culled < |w.a.sent| {
      steps := ByTurn(w);
    } else if w.b.culled != |w.a.accepted| {
      steps := ByAnswer(w);
    } else if w.b.culled == |w.b.sent| {
      steps := [];
    } else {
      SettledFlips(w);
      var t := ByTurn(Flip(w));
      FlipBack(w, t, false);
      EmptiedFlips(Run(Flip(w), t));
      steps := FlipSteps(t);
    }
  }

  lemma SettledFlips(w: World)
    requires Settled(w) && w.b.culled == |w.a.accepted|
    ensures Settled(Flip(w)) && Missing(Flip(w)) == Missing(w)
  {
    Flipped(w);
    hide Calm;
  }

  lemma EmptiedFlips(w: World)
    ensures BothEmptied(Flip(w)) == BothEmptied(w)
  {}

  lemma {:induction false} ByTurn(w: World) returns (steps: seq<Step>)
    requires Settled(w) && Missing(w) >= 0 && w.a.culled < |w.a.sent|
    ensures LossFree(steps, false) && BothEmptied(Run(w, steps))
    decreases Missing(w), 0, 0
  {
    CalmParts(w);
    hide Calm, Inv, Steady, LossFree, BothEmptied, Run;
    var s1 := Turn(w);
    MissingIsNat(Run(w, s1));
    var s2 := FinishBoth(Run(w, s1));
    Chain(w, s1, s2, false);
    steps := s1 + s2;
  }

  // a has nothing left to send, so its acknowledgement goes out by itself.
  lemma {:induction false} ByAnswer(w: World) returns (steps: seq<Step>)
    requires Settled(w) && Missing(w) >= 0 && w.a.culled == |w.a.sent| && w.b.culled != |w.a.accepted|
    ensures LossFree(steps, false) && BothEmptied(Run(w, steps))
    decreases Missing(w), 1, 0
  {
    CalmParts(w);
    hide Calm, Inv, Steady, LossFree, BothEmptied, Run;
    Flipped(w);
    var t := Answer(Flip(w), false);
    FlipBack(w, t, false);
    var s1 := FlipSteps(t);
    var s2 := FinishBoth(Run(w, s1));
    Chain(w, s1, s2, false);
    steps := s1 + s2;
  }

  /** Getting there from quiet endpoints. */

  // a is told, or offers a packet: everything it was given follows, and b's with it.
  lemma ByOffer(w: World) returns (steps: seq<Step>)
    requires Calm(w) && CanOffer(w.a, w.b) && CanHear(w.b, w.a) && CanGoOn(w.b, w.a)
    ensures LossFree(steps, false) && BothEmptied(Run(w, steps))
  {
    hide Calm, LossFree, BothEmptied, Run;
    var s1 := Turn(w);
    var w1 := Run(w, s1);
    SettledIsCalm(w1);
    MissingIsNat(w1);
    var s2 := FinishBoth(w1);
    Chain(w, s1, s2, false);
    steps := s1 + s2;
  }

  lemma SettledIsCalm(w: World)
    requires Settled(w)
    ensures Calm(w)
  {}

  // b can acknowledge, and a has more to send.
  lemma ByAckThenOffer(w: World) returns (steps: seq<Step>)
    requires Calm(w) && CanHear(w.a, w.b) && Owes(w.b.link, false)
    requires |w.b.accepted| < |w.a.sent| && w.a.link.txWin > 0 && CanHear(w.b, w.a) && CanGoOn(w.b, w.a)
    ensures LossFree(steps, false) && BothEmptied(Run(w, steps))
  {
    hide Calm, LossFree, BothEmptied, Run, Owes;
    var s1 := Heard(w, false);
    var s2 := ByOffer(Run(w, s1));
    Chain(w, s1, s2, false);
    steps := s1 + s2;
  }

  // a was acknowledged already, and b can hear.
  lemma ByLastAck(w: World) returns (steps: seq<Step>)
    requires Calm(w) && w.a.culled == |w.a.sent| && Owes(w.a.link, false)
    requires CanHear(w.b, w.a) && CanGoOn(w.b, w.a)
    ensures LossFree(steps, false) && BothEmptied(Run(w, steps))
  {
    CalmParts(w);
    hide Calm, LossFree, BothEmptied, Run, Owes, Inv, Steady;
    Flipped(w);
    var t := Heard(Flip(w), false);
    FlipBack(w, t, false);
    var s1 := FlipSteps(t);
    var w1 := Run(w, s1);
    MissingIsNat(w1);
    var s2 := FinishBoth(w1);
    Chain(w, s1, s2, false);
    steps := s1 + s2;
  }

  // Both have an acknowledgement to send and nothing else the other lacks.
  lemma ByBothAcks(w: World) returns (steps: seq<Step>)
    requires Calm(w) && Owes(w.a.link, false) && Owes(w.b.link, false) && CanHear(w.a, w.b) && CanHear(w.b, w.a)
    requires |w.b.accepted| == |w.a.sent| && |w.a.accepted| == |w.b.sent|
    ensures LossFree(steps, false) && BothEmptied(Run(w, steps))
  {
    CalmParts(w);
    hide Calm, LossFree, BothEmptied, Run, Inv, Steady;
    var v := Acknowledge(w, false);
    CalmParts(v);
    var s2 := Answer(v, false);
    var p := Pass(AckAllocs(w.a.link));
    Chain(w, p, s2, false);
    steps := p + s2;
    BothEmptiedIs(Run(w, steps));
  }

  lemma FlipBoth(w: World, t: seq<Step>) returns (steps: seq<Step>)
    requires LossFree(t, false) && BothEmptied(Run(Flip(w), t))
    ensures LossFree(steps, false) && BothEmptied(Run(w, steps))
  {
    hide LossFree, BothEmptied, Run, Calm;
    FlipBack(w, t, false);
    EmptiedFlips(Run(Flip(w), t));
    steps := FlipSteps(t);
  }

  // Of two endpoints that could each get through alone, one can start for both.
  lemma Starts(w: World)
    requires Calm(w) && CanRecover(w) && CanRecover(Flip(w))
    requires !CanOffer(w.a, w.b) && !CanOffer(w.b, w.a)
    requires w.a.culled < |w.a.sent| && w.b.culled < |w.b.sent|
    ensures CanHear(w.a, w.b) && CanHear(w.b, w.a) && CanGoOn(w.a, w.b) && CanGoOn(w.b, w.a)
    ensures || (Owes(w.b.link, false) && |w.b.accepted| < |w.a.sent|)
            || (Owes(w.a.link, false) && |w.a.accepted| < |w.b.sent|)
            || (Owes(w.a.link, false) && Owes(w.b.link, false))
  {
    CalmParts(w);
    hide Calm, Inv, Steady, Owes, CanHear;
  }

  lemma HearsAndGoesOn(w: World)
    requires Calm(w) && CanRecover(w) && (w.a.culled == |w.a.sent| || CanOffer(w.a, w.b) || CanOffer(w.b, w.a))
    ensures CanHear(w.a, w.b) && CanGoOn(w.a, w.b)
  {
    CalmParts(w);
    hide Calm, Inv, Steady, Owes;
  }

  lemma BothRecover(w: World) returns (steps: seq<Step>)
    requires Calm(w) && CanRecover(w) && CanRecover(Flip(w))
    ensures LossFree(steps, false) && BothEmptied(Run(w, steps))
  {
    Flipped(w);
    CalmParts(w);
    BothEmptiedIs(w);
    Lossless(false);
    assert Run(w, []) == w;
    hide Calm, LossFree, BothEmptied, Run, Inv, Steady, Owes, CanHear;
    if w.a.culled == |w.a.sent| && w.b.culled == |w.b.sent| {
      steps := [];
    } else if CanOffer(w.a, w.b) {
      HearsAndGoesOn(Flip(w));
      steps := ByOffer(w);
    } else if CanOffer(w.b, w.a) {
      HearsAndGoesOn(w);
      var t := ByOffer(Flip(w));
      steps := FlipBoth(w, t);
    } else if w.a.culled == |w.a.sent| {
      steps := ByLastAck(w);
    } else if w.b.culled == |w.b.sent| {
      var t := ByLastAck(Flip(w));
      steps := FlipBoth(w, t);
    } else {
      Starts(w);
      if Owes(w.b.link, false) && |w.b.accepted| < |w.a.sent| {
        steps := ByAckThenOffer(w);
      } else if Owes(w.a.link, false) && |w.a.accepted| < |w.b.sent| {
        var t := ByAckThenOffer(Flip(w));
        steps := FlipBoth(w, t);
      } else {
        steps := ByBothAcks(w);
      }
    }
  }

  // One run gets everything across in both directions if and only if each direction could by
  // itself: neither uses up what the other needs.
  lemma BothRecoverExactlyWhen(w: World)
    requires Calm(w)
    ensures CanRecover(w) && CanRecover(Flip(w)) <==>
      exists steps :: AllQuiet(steps, false) && BothEmptied(Run(w, steps))
    ensures CanRecover(w) && CanRecover(Flip(w)) <==>
      exists steps :: LossFree(steps, false) && BothEmptied(Run(w, steps))
  {
    forall steps | LossFree(steps, false)
      ensures AllQuiet(steps, false)
    {
    }
    hide Calm, AllQuiet, LossFree, Run, CanRecover, Emptied;
    Flipped(w);
    if CanRecover(w) && CanRecover(Flip(w)) {
      var steps := BothRecover(w);
    } else {
      forall steps | AllQuiet(steps, false)
        ensures !BothEmptied(Run(w, steps))
      {
        OneNeverRecovers(w, steps);
      }
    }
  }

  lemma OneNeverRecovers(w: World, steps: seq<Step>)
    requires Calm(w) && AllQuiet(steps, false) && !(CanRecover(w) && CanRecover(Flip(w)))
    ensures !BothEmptied(Run(w, steps))
  {
    Flipped(w);
    QuietFlips(steps);
    RunFlipped(w, steps);
    hide Calm, AllQuiet, Run, Recoverable, Emptied;
    if !CanRecover(w) {
      NeverRecovers(w, steps, false);
    } else {
      NeverRecovers(Flip(w), FlipSteps(steps), false);
    }
  }

  lemma QuietFlips(steps: seq<Step>)
    requires AllQuiet(steps, false)
    ensures AllQuiet(FlipSteps(steps), false)
  {
    forall s | s in FlipSteps(steps)
      ensures Quiet(s.act, false)
    {
      var i :| 0 <= i < |steps| && s == FlipStep(steps[i]);
      assert steps[i] in steps;
    }
  }
}
