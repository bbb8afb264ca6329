// Three-wire (H5) links that stay down: a run from the opening of both endpoints, in which two
// frames are lost and one timer fires late, after which one link is active, the other is not,
// and nothing the drivers do ever changes that.
// Source: drivers/blue8852be/hci_h5.c, lines 147-210 and 326-385.
module H5Down {
  import opened Bytes
  import opened Framing
  import opened GoBackN
  import opened H5Link
  import opened H5Run
  import opened H5Stall
  import opened H5Progress
  import opened H5Bringup
  import H5Wire

  const CONF_4: seq<byte> := [0x03, 0xfc, 4]

  type Words = s: seq<seq<byte>> | forall m :: m in s ==> m in {SYNC_REQ, SYNC_RSP, CONF_4, CONF_RSP}

  function Queued(words: Words): (r: seq<UnrelSkb>)
    ensures |r| == |words|
  {
    seq(|words|, i requires 0 <= i < |words| => Skb(LINK_PKT, words[i]))
  }

  function Said(m: seq<byte>): Moving
    requires m in {SYNC_REQ, SYNC_RSP, CONF_4, CONF_RSP}
  {
    Carry(Frame(false, 0, 0, false, LINK_PKT, m), 0, 0)
  }

  function Moved(words: Words): (r: seq<Moving>)
    ensures |r| == |words|
  {
    seq(|words|, i requires 0 <= i < |words| => Said(words[i]))
  }

  // An endpoint that has exchanged nothing but link control messages.
  function LinkWith(words: Words, state: LinkState, timer: bool): Link {
    Link([], [], Queued(words), 0, 0, 0, TX_WIN_MAX, state, Awake, false, timer)
  }

  function End(words: Words, state: LinkState, timer: bool, reset: bool): Peer {
    Peer(LinkWith(words, state, timer), [], 0, [], reset)
  }

  function Place(a: Peer, b: Peer, ab: Words, ba: Words): World { World(a, b, Moved(ab), Moved(ba)) }

  lemma MovedParts(u: Words, m: seq<byte>)
    requires m in {SYNC_REQ, SYNC_RSP, CONF_4, CONF_RSP}
    ensures Moved(u + [m]) == Moved(u) + [Said(m)] && Moved([m] + u)[0] == Said(m)
    ensures Moved([m] + u)[1..] == Moved(u) && Queued(u + [m]) == Queued(u) + [Skb(LINK_PKT, m)]
    ensures Queued([m] + u)[0] == Skb(LINK_PKT, m) && Queued([m] + u)[1..] == Queued(u)
  {}

  /** Steps of a. */

  lemma SendStep(q: Words, u: Words, state: LinkState, timer: bool, reset: bool,
                 b: Peer, ab: Words, more: Words, ba: Words)
    requires q != [] && q == [q[0]] + u && more == ab + [q[0]]
    ensures Do(Place(End(q, state, timer, reset), b, ab, ba), Step(A, Send(ALL)))
      == Place(End(u, state, timer, reset), b, more, ba)
  {
    MovedParts(u, q[0]);
    MovedParts(ab, q[0]);
    SendsMessage(q, u, state, timer);
    hide Queued, Moved, Dequeue;
  }

  lemma SendsMessage(q: Words, u: Words, state: LinkState, timer: bool)
    requires q != [] && q == [q[0]] + u
    ensures Dequeue(LinkWith(q, state, timer), ALL) == Sent(LinkWith(u, state, timer), Some(Said(q[0]).frame))
  {
    MovedParts(u, q[0]);
    hide Queued;
  }

  lemma LoseStep(a: Peer, b: Peer, m: seq<byte>, ba: Words)
    requires m in {SYNC_REQ, SYNC_RSP, CONF_4, CONF_RSP}
    ensures Do(Place(a, b, [m], ba), Step(A, Lose(0))) == Place(a, b, [], ba)
  {
    assert Without(Moved([m]), 0) == Moved([]);
  }

  lemma TimerStep(u: Words, q: Words, reset: bool, b: Peer, ab: Words, ba: Words)
    requires q == u + [SYNC_REQ]
    ensures Do(Place(End(u, Uninitialized, true, reset), b, ab, ba), Step(A, Timer))
      == Place(End(q, Uninitialized, true, reset), b, ab, ba)
  {
    MovedParts(u, SYNC_REQ);
    hide Queued;
  }

  // What a link makes of a message.
  predicate Resets(state: LinkState, m: seq<byte>) { state == Active && m in {SYNC_REQ, SYNC_RSP} }

  function NextWords(words: Words, state: LinkState, m: seq<byte>): Words {
    var kept := if Resets(state, m) then [] else words;
    if m == SYNC_REQ then kept + [SYNC_RSP]
    else if m == SYNC_RSP then kept + [CONF_4]
    else if m == CONF_4 then words + [CONF_RSP] + [CONF_4]
    else words
  }

  function NextState(state: LinkState, m: seq<byte>): LinkState {
    if m == SYNC_REQ then if state == Active then Uninitialized else state
    else if m == SYNC_RSP then Initialized
    else if m == CONF_4 then state
    else Active
  }

  lemma ReceiveStep(m: seq<byte>, u: Words, v: Words, state: LinkState, timer: bool, reset: bool,
                    b: Peer, ab: Words, q: Words, ba: Words)
    requires m in {SYNC_REQ, SYNC_RSP, CONF_4, CONF_RSP} && q == [m] + ba && v == NextWords(u, state, m)
    ensures Do(Place(End(u, state, timer, reset), b, ab, q), Step(A, Receive))
      == Place(End(v, NextState(state, m), timer && !Resets(state, m), reset || Resets(state, m)), b, ab, ba)
  {
    MovedParts(ba, m);
    TakesMessage(m, u, state, timer, reset);
    hide Moved, Take, NextWords, NextState, Resets, End;
  }

  lemma TakesMessage(m: seq<byte>, u: Words, state: LinkState, timer: bool, reset: bool)
    requires m in {SYNC_REQ, SYNC_RSP, CONF_4, CONF_RSP}
    ensures Take(End(u, state, timer, reset), Said(m).frame)
      == End(NextWords(u, state, m), NextState(state, m), timer && !Resets(state, m), reset || Resets(state, m))
  {
    var l := LinkWith(u, state, timer);
    var f := Said(m).frame;
    TakesLink(l, f);
    Handles(m, u, state, timer);
    hide HandleLink, TakeFrame, CullCount, Queued;
    assert f.payload == m && Accepts(l, f) && CullCount(0, 0, 0) == 0;
  }

  lemma TakesLink(l: Link, f: GoodFrame)
    requires f == Frame(false, 0, 0, false, LINK_PKT, f.payload) && l.unack == [] && l.rxAck == 0
    ensures TakeFrame(l, f).link == HandleLink(l, f.payload, |f.payload|)
  {
    hide HandleLink;
  }

  lemma Handles(m: seq<byte>, u: Words, state: LinkState, timer: bool)
    requires m in {SYNC_REQ, SYNC_RSP, CONF_4, CONF_RSP}
    ensures HandleLink(LinkWith(u, state, timer), m, |m|)
      == LinkWith(NextWords(u, state, m), NextState(state, m), timer && !Resets(state, m))
  {
    MovedParts(u, SYNC_RSP);
    MovedParts([], SYNC_RSP);
    MovedParts(u, CONF_4);
    MovedParts([], CONF_4);
    MovedParts(u, CONF_RSP);
    MovedParts(u + [CONF_RSP], CONF_4);
    var l := LinkWith(u, state, timer);
    H5Wire.Answers(l, m, |m|);
    H5Wire.Pairs(m);
    assert m[..2] == [m[0], m[1]];
    assert ConfReq(l) == CONF_4;
    assert Queued([]) == [];
    hide Queued, StartsWith;
  }

  /** The same steps of b. */

  lemma StepFlipped(a: Peer, b: Peer, ab: Words, ba: Words, act: Act)
    ensures Do(Place(a, b, ab, ba), Step(B, act)) == Flip(Do(Place(b, a, ba, ab), Step(A, act)))
  {
    hide ActA, Moved;
  }

  lemma SendStepB(q: Words, u: Words, state: LinkState, timer: bool, reset: bool,
                  a: Peer, ba: Words, more: Words, ab: Words)
    requires q != [] && q == [q[0]] + u && more == ba + [q[0]]
    ensures Do(Place(a, End(q, state, timer, reset), ab, ba), Step(B, Send(ALL)))
      == Place(a, End(u, state, timer, reset), ab, more)
  {
    StepFlipped(a, End(q, state, timer, reset), ab, ba, Send(ALL));
    SendStep(q, u, state, timer, reset, a, ba, more, ab);
    hide Do, End, Moved;
  }

  lemma LoseStepB(b: Peer, a: Peer, m: seq<byte>, ab: Words)
    requires m in {SYNC_REQ, SYNC_RSP, CONF_4, CONF_RSP}
    ensures Do(Place(a, b, ab, [m]), Step(B, Lose(0))) == Place(a, b, ab, [])
  {
    StepFlipped(a, b, ab, [m], Lose(0));
    LoseStep(b, a, m, ab);
    hide Do, End, Moved;
  }

  lemma ReceiveStepB(m: seq<byte>, u: Words, v: Words, state: LinkState, timer: bool, reset: bool,
                     a: Peer, ba: Words, q: Words, ab: Words)
    requires m in {SYNC_REQ, SYNC_RSP, CONF_4, CONF_RSP} && q == [m] + ab && v == NextWords(u, state, m)
    ensures Do(Place(a, End(u, state, timer, reset), q, ba), Step(B, Receive))
      == Place(a, End(v, NextState(state, m), timer && !Resets(state, m), reset || Resets(state, m)), ab, ba)
  {
    StepFlipped(a, End(u, state, timer, reset), q, ba, Receive);
    ReceiveStep(m, u, v, state, timer, reset, a, ba, q, ab);
    hide Do, End, Moved, NextWords, NextState, Resets;
  }

  /** The run. */

  lemma RunFour(w0: World, w1: World, w2: World, w3: World, w4: World, steps: seq<Step>)
    requires |steps| == 4 && Do(w0, steps[0]) == w1 && Do(w1, steps[1]) == w2
    requires Do(w2, steps[2]) == w3 && Do(w3, steps[3]) == w4
    ensures Run(w0, steps) == w4
  {
    hide Do;
    assert steps[1..][1..][1..][1..] == [];
    assert Run(w3, steps[1..][1..][1..]) == w4;
    assert Run(w2, steps[1..][1..]) == w4;
  }

  lemma RunThree(w0: World, w1: World, w2: World, w3: World, steps: seq<Step>)
    requires |steps| == 3 && Do(w0, steps[0]) == w1 && Do(w1, steps[1]) == w2 && Do(w2, steps[2]) == w3
    ensures Run(w0, steps) == w3
  {
    hide Do;
    assert steps[1..][1..][1..] == [];
    assert Run(w2, steps[1..][1..]) == w3;
  }

  const PART_1: seq<Step> := [Step(A, Send(ALL)), Step(A, Lose(0)), Step(B, Send(ALL)), Step(A, Receive)]
  const PART_2: seq<Step> := [Step(A, Send(ALL)), Step(B, Receive), Step(B, Send(ALL)), Step(A, Receive)]
  const PART_3: seq<Step> := [Step(A, Send(ALL)), Step(A, Send(ALL)), Step(A, Timer), Step(A, Send(ALL))]
  const PART_4: seq<Step> := [Step(B, Receive), Step(B, Receive), Step(B, Send(ALL)), Step(A, Receive)]
  const PART_5: seq<Step> := [Step(B, Receive), Step(B, Send(ALL)), Step(B, Lose(0))]

  const AT_0: World :=
    Place(End([SYNC_REQ], Uninitialized, true, false), End([SYNC_REQ], Uninitialized, true, false), [], [])
  const AT_1: World :=
    Place(End([SYNC_RSP], Uninitialized, true, false), End([], Uninitialized, true, false), [], [])
  const AT_2: World :=
    Place(End([CONF_RSP, CONF_4], Uninitialized, true, false), End([], Initialized, true, false), [], [])
  const AT_3: World :=
    Place(End([], Uninitialized, true, false), End([], Initialized, true, false), [CONF_RSP, CONF_4, SYNC_REQ], [])
  const AT_4: World :=
    Place(End([], Active, true, false), End([CONF_4], Active, true, false), [SYNC_REQ], [])
  const AT_5: World :=
    Place(End([], Active, true, false), End([], Uninitialized, false, true), [], [])

  lemma Part1()
    ensures Run(AT_0, PART_1) == AT_1
  {
    hide Do, End, Place, Moved, Queued;
    var w1 := Place(End([], Uninitialized, true, false), End([SYNC_REQ], Uninitialized, true, false), [SYNC_REQ], []);
    var w2 := Place(End([], Uninitialized, true, false), End([SYNC_REQ], Uninitialized, true, false), [], []);
    var w3 := Place(End([], Uninitialized, true, false), End([], Uninitialized, true, false), [], [SYNC_REQ]);
    SendStep([SYNC_REQ], [], Uninitialized, true, false, End([SYNC_REQ], Uninitialized, true, false), [], [SYNC_REQ], []);
    LoseStep(End([], Uninitialized, true, false), End([SYNC_REQ], Uninitialized, true, false), SYNC_REQ, []);
    SendStepB([SYNC_REQ], [], Uninitialized, true, false, End([], Uninitialized, true, false), [], [SYNC_REQ], []);
    ReceiveStep(SYNC_REQ, [], [SYNC_RSP], Uninitialized, true, false, End([], Uninitialized, true, false), [], [SYNC_REQ], []);
    RunFour(AT_0, w1, w2, w3, AT_1, PART_1);
  }

  lemma Part2()
    ensures Run(AT_1, PART_2) == AT_2
  {
    hide Do, End, Place, Moved, Queued;
    var w1 := Place(End([], Uninitialized, true, false), End([], Uninitialized, true, false), [SYNC_RSP], []);
    var w2 := Place(End([], Uninitialized, true, false), End([CONF_4], Initialized, true, false), [], []);
    var w3 := Place(End([], Uninitialized, true, false), End([], Initialized, true, false), [], [CONF_4]);
    SendStep([SYNC_RSP], [], Uninitialized, true, false, End([], Uninitialized, true, false), [], [SYNC_RSP], []);
    ReceiveStepB(SYNC_RSP, [], [CONF_4], Uninitialized, true, false, End([], Uninitialized, true, false), [], [SYNC_RSP], []);
    SendStepB([CONF_4], [], Initialized, true, false, End([], Uninitialized, true, false), [], [CONF_4], []);
    ReceiveStep(CONF_4, [], [CONF_RSP, CONF_4], Uninitialized, true, false, End([], Initialized, true, false), [], [CONF_4], []);
    RunFour(AT_1, w1, w2, w3, AT_2, PART_2);
  }

  lemma Part3()
    ensures Run(AT_2, PART_3) == AT_3
  {
    hide Do, End, Place, Moved, Queued;
    var w1 := Place(End([CONF_4], Uninitialized, true, false), End([], Initialized, true, false), [CONF_RSP], []);
    var w2 := Place(End([], Uninitialized, true, false), End([], Initialized, true, false), [CONF_RSP, CONF_4], []);
    var w3 := Place(End([SYNC_REQ], Uninitialized, true, false), End([], Initialized, true, false), [CONF_RSP, CONF_4], []);
    SendStep([CONF_RSP, CONF_4], [CONF_4], Uninitialized, true, false, End([], Initialized, true, false), [], [CONF_RSP], []);
    SendStep([CONF_4], [], Uninitialized, true, false, End([], Initialized, true, false), [CONF_RSP], [CONF_RSP, CONF_4], []);
    TimerStep([], [SYNC_REQ], false, End([], Initialized, true, false), [CONF_RSP, CONF_4], []);
    SendStep([SYNC_REQ], [], Uninitialized, true, false, End([], Initialized, true, false), [CONF_RSP, CONF_4], [CONF_RSP, CONF_4, SYNC_REQ], []);
    RunFour(AT_2, w1, w2, w3, AT_3, PART_3);
  }

  lemma Part4()
    ensures Run(AT_3, PART_4) == AT_4
  {
    hide Do, End, Place, Moved, Queued;
    var w1 := Place(End([], Uninitialized, true, false), End([], Active, true, false), [CONF_4, SYNC_REQ], []);
    var w2 := Place(End([], Uninitialized, true, false), End([CONF_RSP, CONF_4], Active, true, false), [SYNC_REQ], []);
    var w3 := Place(End([], Uninitialized, true, false), End([CONF_4], Active, true, false), [SYNC_REQ], [CONF_RSP]);
    ReceiveStepB(CONF_RSP, [], [], Initialized, true, false, End([], Uninitialized, true, false), [], [CONF_RSP, CONF_4, SYNC_REQ], [CONF_4, SYNC_REQ]);
    ReceiveStepB(CONF_4, [], [CONF_RSP, CONF_4], Active, true, false, End([], Uninitialized, true, false), [], [CONF_4, SYNC_REQ], [SYNC_REQ]);
    SendStepB([CONF_RSP, CONF_4], [CONF_4], Active, true, false, End([], Uninitialized, true, false), [], [CONF_RSP], [SYNC_REQ]);
    ReceiveStep(CONF_RSP, [], [], Uninitialized, true, false, End([CONF_4], Active, true, false), [SYNC_REQ], [CONF_RSP], []);
    RunFour(AT_3, w1, w2, w3, AT_4, PART_4);
  }

  lemma Part5()
    ensures Run(AT_4, PART_5) == AT_5
  {
    hide Do, End, Place, Moved, Queued;
    var w1 := Place(End([], Active, true, false), End([SYNC_RSP], Uninitialized, false, true), [], []);
    var w2 := Place(End([], Active, true, false), End([], Uninitialized, false, true), [], [SYNC_RSP]);
    ReceiveStepB(SYNC_REQ, [CONF_4], [SYNC_RSP], Active, true, false, End([], Active, true, false), [], [SYNC_REQ], []);
    SendStepB([SYNC_RSP], [], Uninitialized, false, true, End([], Active, true, false), [], [SYNC_RSP], []);
    LoseStepB(End([], Uninitialized, false, true), End([], Active, true, false), SYNC_RSP, []);
    RunThree(AT_4, w1, w2, AT_5, PART_5);
  }

  const TO_DOWN: seq<Step> := PART_1 + PART_2 + PART_3 + PART_4 + PART_5

  lemma RunsThere()
    ensures Run(BOTH_OPENED, TO_DOWN) == AT_5
  {
    assert BOTH_OPENED == AT_0;
    Part1();
    Part2();
    Part3();
    Part4();
    Part5();
    hide Run, End, Place;
    H5Progress.RunAppend(AT_0, PART_1, PART_2);
    H5Progress.RunAppend(AT_0, PART_1 + PART_2, PART_3);
    H5Progress.RunAppend(AT_0, PART_1 + PART_2 + PART_3, PART_4);
    H5Progress.RunAppend(AT_0, PART_1 + PART_2 + PART_3 + PART_4, PART_5);
  }

  // Two lost frames and a late timer: one link is active, the other was reset with its timer off,
  // and whatever the drivers do, both are never active at once again.
  lemma LinksStayDown(steps: seq<Step>)
    requires Undisturbed(steps)
    ensures Run(BOTH_OPENED, TO_DOWN).a.link.state == Active
    ensures !BothActive(Run(Run(BOTH_OPENED, TO_DOWN), steps))
  {
    RunsThere();
    DownIsSound();
    hide Run, Sound, CanComeUp;
    StaysDownOverRun(AT_5, steps);
    NotBothActive(Run(AT_5, steps));
  }

  lemma NotBothActive(w: World)
    requires !CanComeUp(w)
    ensures !BothActive(w)
  {}

  lemma DownIsSound()
    ensures Sound(AT_5) && !CanComeUp(AT_5) && AT_5.a.link.state == Active
  {
    assert Moved([]) == [] && Queued([]) == [];
    assert ToA(AT_5) == [] && ToB(AT_5) == [];
  }
}
