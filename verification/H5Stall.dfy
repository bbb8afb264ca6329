// When Three-wire (H5) endpoints wait for ever. A reliable packet that arrives again is dropped
// with its header and not acknowledged again, the window may shrink below what was accepted, and
// the retransmission timer may be lost to the sleep protocol.
// Source: drivers/blue8852be/hci_h5.c, lines 147-189, 284-423, 447-481 and 737-796.
module H5Stall {
  import opened Bytes
  import opened Framing
  import opened GoBackN
  import opened H5Link
  import opened H5Run

  /** Endpoints that only exchange data: active, awake, and without link control messages. */

  predicate Steady(l: Link) {
    l.state == Active && l.sleep == Awake && forall skb :: skb in l.unrel ==> skb.ptype != LINK_PKT
  }

  predicate TimerOk(l: Link) { l.unack != [] ==> l.timer }

  const ALL: Allocs := Allocs(true, true, true, true)

  // The next dequeue that gets its memory sends a reliable packet. It takes the place of a bare
  // acknowledgement, and the acknowledgement is no longer owed.
  predicate Jam(l: Link) { l.rel != [] && |l.unack| < l.txWin }

  predicate NoControl(frames: seq<Moving>) { forall fl :: fl in frames ==> fl.frame.chan != LINK_PKT }

  ghost predicate Talking(w: World) {
    Inv(w) && Steady(w.a.link) && Steady(w.b.link) && NoControl(w.ab) && NoControl(w.ba)
  }

  // What stays the same for an endpoint while data is exchanged.
  predicate Kept(p: Peer, q: Peer) {
    Steady(q.link) && q.link.txWin == p.link.txWin && !q.reset && (TimerOk(p.link) ==> TimerOk(q.link))
  }

  // An endpoint takes a frame: a reliable one that is not expected changes nothing at all.
  lemma TakeFacts(p: Peer, fl: Moving)
    requires PeerOk(p) && FlightOk(fl) && Steady(p.link) && fl.frame.chan != LINK_PKT
    requires p.culled <= fl.a <= p.culled + MAX_WINDOW
    requires fl.rel ==> |p.accepted| <= fl.k + MAX_WINDOW && fl.k <= |p.accepted| + MAX_WINDOW
    ensures var q := Take(p, fl.frame);
      && Kept(p, q) && q.sent == p.sent && q.link.rel == p.link.rel && q.link.unrel == p.link.unrel
      && if fl.rel && fl.k != |p.accepted| then q == p
         else
           && q.culled == (if fl.a <= p.culled + |p.link.unack| then fl.a else p.culled)
           && q.culled + |q.link.unack| == p.culled + |p.link.unack|
           && q.link.ackReq == (p.link.ackReq || fl.rel)
           && (!p.link.timer ==> !q.link.timer)
           && q.accepted == if fl.rel then p.accepted + [fl.msg] else p.accepted
  {
    NumbersAreAbsolute(p, fl);
    hide CullCount, HandleLink;
  }

  // An endpoint transmits: the next packet inside the window, or something unreliable.
  lemma SendFacts(p: Peer, alloc: Allocs)
    requires PeerOk(p) && Steady(p.link)
    ensures var t := Transmit(p, alloc);
      var q := t.peer;
      && Kept(p, q) && q.sent == p.sent && q.culled == p.culled && q.accepted == p.accepted && |t.out| <= 1
      && (t.out == [] ==> q == p)
      && (t.out != [] ==>
          var fl := t.out[0];
          && fl.a == |p.accepted| && fl.frame.chan != LINK_PKT && !q.link.ackReq
          && (fl.rel ==>
              && |p.link.unack| < p.link.txWin && p.link.rel != [] && fl.k == p.culled + |p.link.unack|
              && |q.link.unack| == |p.link.unack| + 1)
          && (!fl.rel ==>
              q.link.unack == p.link.unack && q.link.rel == p.link.rel && q.link.timer == p.link.timer)
          && (p.link.unrel == [] ==> q.link.unrel == [] && (!fl.rel ==> p.link.ackReq && fl.frame.chan == ACK_PKT)))
      && (alloc == ALL && p.link.unrel == [] && Jam(p.link) ==> t.out != [] && t.out[0].rel)
  {
    var l := p.link;
    if l.unrel != [] {
      assert l.unrel[0] in l.unrel;
    }
  }

  lemma ExpireFacts(p: Peer)
    requires PeerOk(p) && Steady(p.link)
    ensures var q := Expire(p);
      && Kept(p, q) && q.sent == p.sent && q.culled == p.culled && q.accepted == p.accepted
      && q.link.unrel == p.link.unrel && q.link.ackReq == p.link.ackReq && (Jam(p.link) ==> Jam(q.link))
      && if p.link.timer then q.link.unack == [] else q == p
  {}

  lemma SubmitFacts(p: Peer, skb: Skb)
    requires PeerOk(p) && Steady(p.link)
    ensures var q := SubmitTo(p, skb);
      && Kept(p, q) && p.sent <= q.sent && q.culled == p.culled && q.accepted == p.accepted
      && q.link.unack == p.link.unack && q.link.ackReq == p.link.ackReq
  {}

  // The first frame on the way to a.
  lemma First(w: World)
    requires Inv(w) && w.ba != []
    ensures var fl := w.ba[0];
      && fl in w.ba && FlightOk(fl) && PeerOk(w.a) && PeerOk(w.b)
      && w.a.culled <= fl.a <= w.a.culled + MAX_WINDOW
      && (fl.rel ==> |w.a.accepted| <= fl.k + MAX_WINDOW && fl.k <= |w.a.accepted| + MAX_WINDOW)
  {
    hide PeerOk, FlightOk, Stream, Messages;
    FirstFrame(MAX_WINDOW, Messages(w.b.sent), w.b.culled, w.a.accepted, w.ba, w.ab);
    FirstFrame(MAX_WINDOW, Messages(w.a.sent), w.a.culled, w.b.accepted, w.ab, w.ba);
  }

  // How an endpoint acts while data is exchanged.
  lemma SteadyStays(w: World, act: Act)
    requires Talking(w) && !act.Control?
    ensures Kept(w.a, ActA(w, act).a)
  {
    PeersOk(w);
    if act.Send? {
      SendFacts(w.a, act.alloc);
    } else if act.Timer? {
      ExpireFacts(w.a);
    } else if act.Submit? {
      SubmitFacts(w.a, act.skb);
    } else if act.Receive? && w.ba != [] {
      First(w);
      TakeFacts(w.a, w.ba[0]);
    }
    hide Inv, Steady, TimerOk, Transmit, Expire, SubmitTo, Take, PeerOk, NoControl, Without;
  }

  lemma FramesStay(w: World, act: Act)
    requires Talking(w) && !act.Control?
    ensures NoControl(ActA(w, act).ab) && NoControl(ActA(w, act).ba)
  {
    PeersOk(w);
    if act.Send? {
      SendFacts(w.a, act.alloc);
    }
    Fewer(w.ba, 0);
    if act.Lose? {
      Fewer(w.ab, act.i);
    }
    hide Inv, Steady, TimerOk, Transmit, Expire, SubmitTo, Take, PeerOk, Without;
  }

  lemma Fewer<T>(s: seq<T>, i: nat)
    ensures i < |s| ==> forall x :: x in Without(s, i) ==> x in s
    ensures s != [] ==> s[0] in s && forall x :: x in s[1..] ==> x in s
  {}

  lemma TalkingKeeps(w: World, act: Act)
    requires Talking(w) && !act.Control?
    ensures Talking(ActA(w, act)) && Kept(w.a, ActA(w, act).a)
  {
    ActIsSafe(w, act);
    SteadyStays(w, act);
    FramesStay(w, act);
    PeersOk(w);
    OnlyAActs(w, act);
    hide Inv, Steady, TimerOk, NoControl, PeerOk, ActA;
    NotReset(w.b);
  }

  lemma OnlyAActs(w: World, act: Act)
    ensures ActA(w, act).b == w.b
  {}

  lemma NotReset(p: Peer)
    requires PeerOk(p)
    ensures !p.reset
  {}

  lemma PeersOk(w: World)
    requires Inv(w)
    ensures PeerOk(w.a) && PeerOk(w.b)
    ensures w.a.culled <= |w.b.accepted| <= |w.a.sent| && w.a.culled + |w.a.link.unack| <= |w.a.sent|
    ensures w.b.culled <= |w.a.accepted| <= |w.b.sent| && w.b.culled + |w.b.link.unack| <= |w.b.sent|
  {
    assert |w.a.link.unack + w.a.link.rel| == |w.a.sent[w.a.culled..]|;
    assert |w.b.link.unack + w.b.link.rel| == |w.b.sent[w.b.culled..]|;
  }

  lemma TalkingFlips(w: World)
    ensures Talking(Flip(w)) == Talking(w) && Flip(Flip(w)) == w
  {
    FlipKeeps(w);
    hide Inv, Steady, NoControl;
  }

  /** A window that shrank below what the peer accepted. */

  // How far beyond the released packets an acknowledgement can be understood.
  function Reach(p: Peer): nat { if |p.link.unack| < p.link.txWin then p.link.txWin else |p.link.unack| }

  // The peer is ahead of everything a can have outstanding: its acknowledgements name nothing.
  ghost predicate Deaf(w: World) { Talking(w) && OutOfReach(w.a, |w.b.accepted|, w.ba) }

  predicate OutOfReach(p: Peer, taken: nat, bwd: seq<Moving>) {
    && p.culled + Reach(p) < taken
    && (forall fl :: fl in bwd ==> fl.a <= p.culled || p.culled + Reach(p) < fl.a)
  }

  // What a does to its own side while data is exchanged, act by act.
  ghost predicate Acted(p: Peer, q: Peer, act: Act, out: seq<Moving>, bwd: seq<Moving>) {
    match act
    case Control(data) => true
    case Lose(i) => q == p && out == []
    case Submit(skb) =>
      && out == [] && q.culled == p.culled && q.accepted == p.accepted && p.sent <= q.sent
      && q.link.unack == p.link.unack && q.link.ackReq == p.link.ackReq
    case Timer =>
      && out == [] && q.culled == p.culled && q.accepted == p.accepted && q.sent == p.sent
      && q.link.unrel == p.link.unrel && q.link.ackReq == p.link.ackReq && (Jam(p.link) ==> Jam(q.link))
      && if p.link.timer then q.link.unack == [] else q == p
    case Receive =>
      && out == [] && q.sent == p.sent && q.link.unrel == p.link.unrel && q.link.rel == p.link.rel
      && if bwd == [] || (bwd[0].rel && bwd[0].k != |p.accepted|) then q == p
         else
           var fl := bwd[0];
           && p.culled <= fl.a && q.culled == (if fl.a <= p.culled + |p.link.unack| then fl.a else p.culled)
           && q.culled + |q.link.unack| == p.culled + |p.link.unack|
           && q.link.ackReq == (p.link.ackReq || fl.rel)
           && (!p.link.timer ==> !q.link.timer)
           && q.accepted == if fl.rel then p.accepted + [fl.msg] else p.accepted
    case Send(alloc) =>
      && q.culled == p.culled && q.accepted == p.accepted && q.sent == p.sent
      && (out == [] ==> q == p)
      && (out != [] ==>
          var fl := out[0];
          && |out| == 1 && fl.a == |p.accepted| && !q.link.ackReq
          && (fl.rel ==>
              && |p.link.unack| < p.link.txWin && p.link.rel != []
              && fl.k == p.culled + |p.link.unack| < |p.sent| && |q.link.unack| == |p.link.unack| + 1)
          && (!fl.rel ==>
              q.link.unack == p.link.unack && q.link.rel == p.link.rel && q.link.timer == p.link.timer)
          && (p.link.unrel == [] ==> q.link.unrel == [] && (!fl.rel ==> p.link.ackReq && fl.frame.chan == ACK_PKT)))
      && (alloc == ALL && p.link.unrel == [] && Jam(p.link) ==> out != [] && out[0].rel)
  }

  function Sends(w: World, act: Act): seq<Moving> {
    if act.Send? then Transmit(w.a, act.alloc).out else []
  }

  lemma ActedOn(w: World, act: Act)
    requires Talking(w) && !act.Control?
    ensures var v := ActA(w, act);
      && Acted(w.a, v.a, act, Sends(w, act), w.ba) && v.b == w.b
      && v.ab == (if act.Lose? && act.i < |w.ab| then Without(w.ab, act.i) else w.ab + Sends(w, act))
      && v.ba == if act.Receive? && w.ba != [] then w.ba[1..] else w.ba
  {
    PeersOk(w);
    hide Inv, PeerOk, Steady, TimerOk, NoControl, FlightOk;
    if act.Submit? {
      SubmitFacts(w.a, act.skb);
    } else if act.Send? {
      SendFacts(w.a, act.alloc);
      SentIsOld(w, act.alloc);
    } else if act.Timer? {
      ExpireFacts(w.a);
    } else if act.Receive? && w.ba != [] {
      First(w);
      TakeFacts(w.a, w.ba[0]);
    }
    hide Talking, Transmit, Expire, SubmitTo, Take;
    assert w.ab + [] == w.ab;
  }

  lemma SentIsOld(w: World, alloc: Allocs)
    requires Talking(w)
    ensures var t := Transmit(w.a, alloc);
      t.out != [] && t.out[0].rel ==> t.out[0].k < |w.a.sent|
  {
    PeersOk(w);
    SendFacts(w.a, alloc);
    TalkingKeeps(w, Send(alloc));
    PeersOk(ActA(w, Send(alloc)));
    hide Talking, Transmit, PeerOk;
  }

  lemma ReachShrinks(p: Peer, q: Peer, act: Act, out: seq<Moving>, taken: nat, bwd: seq<Moving>)
    requires OutOfReach(p, taken, bwd) && Acted(p, q, act, out, bwd) && q.link.txWin == p.link.txWin
    requires !act.Control?
    ensures q.culled == p.culled && Reach(q) <= Reach(p)
  {
    if bwd != [] {
      assert bwd[0] in bwd;
    }
  }

  lemma DeafA(w: World, act: Act)
    requires Deaf(w) && !act.Control?
    ensures Deaf(ActA(w, act)) && ActA(w, act).a.culled == w.a.culled
  {
    TalkingKeeps(w, act);
    ActedOn(w, act);
    ReachShrinks(w.a, ActA(w, act).a, act, Sends(w, act), |w.b.accepted|, w.ba);
    Fewer(w.ba, 0);
    if act.Lose? {
      Fewer(w.ab, act.i);
    }
    hide Talking, ActA, Without, Steady, TimerOk, Sends, Acted, Reach;
  }

  // A receiver to which only old packets come accepts nothing and repeats what it says.
  lemma AcceptsNothing(p: Peer, q: Peer, act: Act, out: seq<Moving>, bwd: seq<Moving>)
    requires Acted(p, q, act, out, bwd) && !act.Control?
    requires forall fl :: fl in bwd && fl.rel ==> fl.k < |p.accepted|
    ensures q.accepted == p.accepted && forall fl :: fl in out ==> fl.a == |p.accepted|
  {
    if bwd != [] {
      assert bwd[0] in bwd;
    }
  }

  // The peer never takes back what it accepted, and says so.
  lemma AcceptedGrows(p: Peer, q: Peer, act: Act, out: seq<Moving>, bwd: seq<Moving>)
    requires Acted(p, q, act, out, bwd) && !act.Control?
    ensures |p.accepted| <= |q.accepted| && forall fl :: fl in out ==> fl.a == |p.accepted|
  {}

  lemma DeafB(w: World, act: Act)
    requires Deaf(Flip(w)) && !act.Control?
    ensures Deaf(Flip(ActA(w, act))) && ActA(w, act).b == w.b
  {
    TalkingFlips(w);
    TalkingKeeps(w, act);
    TalkingFlips(ActA(w, act));
    ActedOn(w, act);
    AcceptedGrows(w.a, ActA(w, act).a, act, Sends(w, act), w.ba);
    if act.Lose? {
      Fewer(w.ab, act.i);
    }
    hide Talking, ActA, Without, Steady, TimerOk, Sends, Acted, Reach;
  }

  // Nothing but a new window ends this, not even new packets at either end.
  lemma {:induction false} ShrunkWindowStalls(w: World, steps: seq<Step>)
    requires Deaf(w) && NoControlSteps(steps)
    ensures var v := Run(w, steps);
      Deaf(v) && v.a.culled == w.a.culled < |v.a.sent|
    decreases |steps|
  {
    if steps == [] {
      PeersOk(w);
    } else {
      var step := steps[0];
      if step.side == A {
        DeafA(w, step.act);
      } else {
        DeafB(Flip(w), step.act);
      }
      hide Deaf, ActA;
      ShrunkWindowStalls(Do(w, step), steps[1..]);
    }
  }

  predicate NoControlSteps(steps: seq<Step>) { forall step :: step in steps ==> !step.act.Control? }

  /** A window of zero. */

  ghost predicate ZeroWindow(w: World) {
    && Talking(w) && w.a.link.txWin == 0 && |w.b.accepted| < |w.a.sent|
    && forall fl :: fl in w.ab && fl.rel ==> fl.k < |w.b.accepted|
  }

  lemma ClosedWindow(p: Peer, q: Peer, act: Act, out: seq<Moving>, bwd: seq<Moving>)
    requires Acted(p, q, act, out, bwd) && !act.Control? && p.link.txWin == 0
    ensures |p.sent| <= |q.sent| && forall fl :: fl in out ==> !fl.rel
  {}

  lemma ZeroWindowA(w: World, act: Act)
    requires ZeroWindow(w) && !act.Control?
    ensures ZeroWindow(ActA(w, act))
  {
    TalkingKeeps(w, act);
    ActedOn(w, act);
    ClosedWindow(w.a, ActA(w, act).a, act, Sends(w, act), w.ba);
    if act.Lose? {
      Fewer(w.ab, act.i);
    }
    hide Talking, ActA, Without, Steady, TimerOk, Sends, Acted;
  }

  lemma ZeroWindowB(w: World, act: Act)
    requires ZeroWindow(Flip(w)) && !act.Control?
    ensures ZeroWindow(Flip(ActA(w, act)))
  {
    TalkingFlips(w);
    TalkingKeeps(w, act);
    TalkingFlips(ActA(w, act));
    ActedOn(w, act);
    AcceptsNothing(w.a, ActA(w, act).a, act, Sends(w, act), w.ba);
    Fewer(w.ba, 0);
    hide Talking, ActA, Without, Steady, TimerOk, Sends, Acted;
  }

  lemma {:induction false} ZeroWindowStalls(w: World, steps: seq<Step>)
    requires ZeroWindow(w) && NoControlSteps(steps)
    ensures var v := Run(w, steps);
      ZeroWindow(v) && v.a.culled < |v.a.sent|
    decreases |steps|
  {
    if steps == [] {
      PeersOk(w);
    } else {
      var step := steps[0];
      if step.side == A {
        ZeroWindowA(w, step.act);
      } else {
        ZeroWindowB(Flip(w), step.act);
      }
      hide ZeroWindow, ActA;
      ZeroWindowStalls(Do(w, step), steps[1..]);
    }
  }

  /** Lost acknowledgements. */

  // Everything p can send is old to a peer that accepted so many.
  predicate NothingNew(p: Peer, taken: nat) { taken == |p.sent| || p.culled + p.link.txWin <= taken }

  // No acknowledgement gives q anything new to send to a peer that accepted so many.
  predicate Helpless(q: Peer, taken: nat) {
    taken == |q.sent| || q.link.txWin == 0 || q.culled + Reach(q) < taken
  }

  // An endpoint can send a bare acknowledgement: it owes one, and no reliable packet takes its
  // place. If memory may run out (lean), a reliable packet may not get its buffer.
  predicate Owes(l: Link, lean: bool) { l.ackReq && (lean || !Jam(l)) }

  // Both sides can only repeat themselves: b has no acknowledgement it can send by itself, and the
  // reliable packets both can send are dropped with their headers, acknowledgements included.
  ghost predicate Mute(w: World, lean: bool) {
    && Talking(w) && w.a.culled < |w.a.sent|
    && w.a.link.unrel == [] && w.b.link.unrel == [] && !Owes(w.b.link, lean)
    && NothingNew(w.a, |w.b.accepted|) && NothingNew(w.b, |w.a.accepted|)
    && (Owes(w.a.link, lean) ==> Helpless(w.b, |w.a.accepted|))
    && Repeats(w.ab, |w.b.accepted|, |w.a.accepted|, Helpless(w.b, |w.a.accepted|))
    && OldOnly(w.ba, |w.a.accepted|)
  }

  predicate OldOnly(frames: seq<Moving>, taken: nat) { forall fl :: fl in frames ==> fl.rel && fl.k < taken }

  // Frames under way are old, or bare acknowledgements that do not help.
  predicate Repeats(frames: seq<Moving>, taken: nat, said: nat, helpless: bool) {
    forall fl :: fl in frames ==> if fl.rel then fl.k < taken else fl.a == said && helpless
  }

  lemma MuteSender(p: Peer, q: Peer, act: Act, out: seq<Moving>, bwd: seq<Moving>, taken: nat, helpless: bool,
                   lean: bool)
    requires Acted(p, q, act, out, bwd) && NothingNew(p, taken) && Quiet(act, lean) && p.link.unrel == []
    requires Owes(p.link, lean) ==> helpless
    requires q.link.txWin == p.link.txWin && OldOnly(bwd, |p.accepted|)
    ensures NothingNew(q, taken) && q.link.unrel == [] && (Owes(q.link, lean) ==> helpless)
    ensures q.sent == p.sent && q.culled == p.culled && q.accepted == p.accepted
    ensures Repeats(out, taken, |p.accepted|, helpless)
  {
    if bwd != [] {
      assert bwd[0] in bwd;
    }
  }

  lemma MuteReceiver(p: Peer, q: Peer, act: Act, out: seq<Moving>, bwd: seq<Moving>, taken: nat, lean: bool)
    requires Acted(p, q, act, out, bwd) && NothingNew(p, taken) && Quiet(act, lean)
    requires p.link.unrel == [] && !Owes(p.link, lean)
    requires q.link.txWin == p.link.txWin && p.culled <= taken
    requires Repeats(bwd, |p.accepted|, taken, Helpless(p, taken))
    ensures NothingNew(q, taken) && q.link.unrel == [] && !Owes(q.link, lean) && q.accepted == p.accepted && q.sent == p.sent
    ensures Helpless(p, taken) ==> Helpless(q, taken)
    ensures OldOnly(out, taken)
  {
    if bwd != [] {
      assert bwd[0] in bwd;
    }
  }

  // Nobody hands over anything new.
  predicate Idle(act: Act) { !act.Submit? && !act.Control? }

  // Nor, unless memory may run out, does any allocation fail.
  predicate Quiet(act: Act, lean: bool) { Idle(act) && (act.Send? && !lean ==> act.alloc == ALL) }

  lemma OldOnlyStays(frames: seq<Moving>, out: seq<Moving>, i: nat, taken: nat)
    requires OldOnly(frames, taken)
    ensures i < |frames| ==> OldOnly(Without(frames, i), taken)
    ensures frames != [] ==> OldOnly(frames[1..], taken)
    ensures OldOnly(out, taken) ==> OldOnly(frames + out, taken)
  {
    Fewer(frames, i);
    hide Without;
  }

  lemma RepeatsStays(frames: seq<Moving>, out: seq<Moving>, i: nat, taken: nat, said: nat, helpless: bool)
    requires Repeats(frames, taken, said, helpless)
    ensures i < |frames| ==> Repeats(Without(frames, i), taken, said, helpless)
    ensures frames != [] ==> Repeats(frames[1..], taken, said, helpless)
    ensures Repeats(out, taken, said, helpless) ==> Repeats(frames + out, taken, said, helpless)
  {
    Fewer(frames, i);
    hide Without;
  }

  lemma RepeatsMore(frames: seq<Moving>, taken: nat, said: nat, before: bool, now: bool)
    requires before ==> now
    ensures Repeats(frames, taken, said, before) ==> Repeats(frames, taken, said, now)
  {}

  lemma MuteA(w: World, act: Act, lean: bool)
    requires Mute(w, lean) && Quiet(act, lean)
    ensures Mute(ActA(w, act), lean)
  {
    TalkingKeeps(w, act);
    ActedOn(w, act);
    var h := Helpless(w.b, |w.a.accepted|);
    MuteSender(w.a, ActA(w, act).a, act, Sends(w, act), w.ba, |w.b.accepted|, h, lean);
    OldOnlyStays(w.ba, [], 0, |w.a.accepted|);
    RepeatsStays(w.ab, Sends(w, act), if act.Lose? then act.i else 0, |w.b.accepted|, |w.a.accepted|, h);
    hide Talking, ActA, Without, Steady, TimerOk, Sends, Acted, NothingNew, Helpless, OldOnly, Repeats, Owes;
  }

  lemma MuteB(w: World, act: Act, lean: bool)
    requires Mute(Flip(w), lean) && Quiet(act, lean)
    ensures Mute(Flip(ActA(w, act)), lean)
  {
    TalkingFlips(w);
    TalkingKeeps(w, act);
    TalkingFlips(ActA(w, act));
    PeersOk(w);
    ActedOn(w, act);
    var v := ActA(w, act);
    MuteReceiver(w.a, v.a, act, Sends(w, act), w.ba, |w.b.accepted|, lean);
    OldOnlyStays(w.ab, Sends(w, act), if act.Lose? then act.i else 0, |w.b.accepted|);
    RepeatsStays(w.ba, [], 0, |w.a.accepted|, |w.b.accepted|, Helpless(w.a, |w.b.accepted|));
    RepeatsMore(v.ba, |w.a.accepted|, |w.b.accepted|, Helpless(w.a, |w.b.accepted|), Helpless(v.a, |w.b.accepted|));
    hide Talking, ActA, Without, Steady, TimerOk, Sends, Acted, NothingNew, Helpless, OldOnly, Repeats, Owes, PeerOk;
  }

  predicate AllQuiet(steps: seq<Step>, lean: bool) { forall step :: step in steps ==> Quiet(step.act, lean) }

  // Until somebody hands over something new, however often the sender times out and sends again,
  // and though nothing need be lost any more, it never learns that its packets arrived.
  lemma {:induction false} LostAcksStall(w: World, steps: seq<Step>, lean: bool)
    requires Mute(w, lean) && AllQuiet(steps, lean)
    ensures var v := Run(w, steps); Mute(v, lean) && v.a.culled < |v.a.sent|
    decreases |steps|
  {
    if steps != [] {
      var step := steps[0];
      if step.side == A {
        MuteA(w, step.act, lean);
      } else {
        MuteB(Flip(w), step.act, lean);
      }
      hide Mute, ActA;
      LostAcksStall(Do(w, step), steps[1..], lean);
    }
  }

  /** A timer lost to the sleep protocol. */

  // The timer fires while the link sleeps, and the wake-up leaves it off, whatever is outstanding.
  lemma SleepLosesTimer(l: Link, f: GoodFrame)
    requires l.state == Active && l.sleep != Awake && Accepts(l, f) && f.chan == LINK_PKT && MessageLen(f) >= 2
    requires StartsWith(f.payload, WAKEUP_REQ) || StartsWith(f.payload, WOKEN_REQ)
    ensures var n := TakeFrame(Timeout(l), f).link;
      && n.state == Active && n.sleep == Awake && !n.timer && n.rel == l.rel
      && n.unack == l.unack[CullCount(|l.unack|, l.txSeq, f.ack)..]
  {
    hide CullCount;
    assert WAKEUP_REQ[0] == 5 && WOKEN_REQ[0] == 6;
  }

  // What a has outstanding was lost, its timer is off, and it may or can send nothing else.
  ghost predicate TimerLost(w: World) {
    var l := w.a.link;
    && Talking(w) && l.unack != [] && !l.timer && (l.rel == [] || l.txWin <= |l.unack|)
    && |w.b.accepted| == w.a.culled
    && Unreliable(w.ab) && NotBeyond(w.ba, w.a.culled)
  }

  predicate Unreliable(frames: seq<Moving>) { forall fl :: fl in frames ==> !fl.rel }

  predicate NotBeyond(frames: seq<Moving>, n: nat) { forall fl :: fl in frames ==> fl.a <= n }

  lemma UnreliableStays(frames: seq<Moving>, out: seq<Moving>, i: nat)
    requires Unreliable(frames)
    ensures i < |frames| ==> Unreliable(Without(frames, i))
    ensures frames != [] ==> Unreliable(frames[1..])
    ensures Unreliable(out) ==> Unreliable(frames + out)
  {
    Fewer(frames, i);
    hide Without;
  }

  lemma NotBeyondStays(frames: seq<Moving>, out: seq<Moving>, i: nat, n: nat)
    requires NotBeyond(frames, n)
    ensures i < |frames| ==> NotBeyond(Without(frames, i), n)
    ensures frames != [] ==> NotBeyond(frames[1..], n)
    ensures NotBeyond(out, n) ==> NotBeyond(frames + out, n)
  {
    Fewer(frames, i);
    hide Without;
  }

  lemma TimerStaysOff(p: Peer, q: Peer, act: Act, out: seq<Moving>, bwd: seq<Moving>)
    requires Acted(p, q, act, out, bwd) && Idle(act) && q.link.txWin == p.link.txWin
    requires p.link.unack != [] && !p.link.timer && (p.link.rel == [] || p.link.txWin <= |p.link.unack|)
    requires NotBeyond(bwd, p.culled)
    ensures q.culled == p.culled && q.sent == p.sent
    ensures q.link.unack != [] && !q.link.timer && (q.link.rel == [] || q.link.txWin <= |q.link.unack|)
    ensures Unreliable(out)
  {
    if bwd != [] {
      assert bwd[0] in bwd;
    }
  }

  lemma TimerLostA(w: World, act: Act)
    requires TimerLost(w) && Idle(act)
    ensures TimerLost(ActA(w, act)) && ActA(w, act).a.culled == w.a.culled
  {
    TalkingKeeps(w, act);
    ActedOn(w, act);
    TimerStaysOff(w.a, ActA(w, act).a, act, Sends(w, act), w.ba);
    NotBeyondStays(w.ba, [], 0, w.a.culled);
    UnreliableStays(w.ab, Sends(w, act), if act.Lose? then act.i else 0);
    hide Talking, ActA, Without, Steady, TimerOk, Sends, Acted, Unreliable, NotBeyond;
  }

  lemma TimerLostB(w: World, act: Act)
    requires TimerLost(Flip(w)) && !act.Control?
    ensures TimerLost(Flip(ActA(w, act))) && ActA(w, act).b == w.b
  {
    TalkingFlips(w);
    TalkingKeeps(w, act);
    TalkingFlips(ActA(w, act));
    ActedOn(w, act);
    assert forall fl :: fl in w.ba && fl.rel ==> fl.k < |w.a.accepted|;
    AcceptsNothing(w.a, ActA(w, act).a, act, Sends(w, act), w.ba);
    UnreliableStays(w.ba, [], 0);
    NotBeyondStays(w.ab, Sends(w, act), if act.Lose? then act.i else 0, w.b.culled);
    hide Talking, ActA, Without, Steady, TimerOk, Sends, Acted, Unreliable;
  }

  // Until a is handed something new, whatever b does, a never sends its outstanding packets again.
  lemma {:induction false} TimerLostStalls(w: World, steps: seq<Step>)
    requires TimerLost(w) && forall step :: step in steps ==> !step.act.Control? && (step.side == A ==> Idle(step.act))
    ensures var v := Run(w, steps); TimerLost(v) && v.a.culled == w.a.culled
    decreases |steps|
  {
    if steps != [] {
      var step := steps[0];
      if step.side == A {
        TimerLostA(w, step.act);
      } else {
        TimerLostB(Flip(w), step.act);
      }
      hide TimerLost, ActA;
      TimerLostStalls(Do(w, step), steps[1..]);
    }
  }
}
