// HCILL, the power-saving protocol of the Texas Instruments driver: data waits while the device
// sleeps and is released, in order, when it wakes up.
// Source: drivers/blue8852be/hci_ll.c, lines 51-109 and 118-125, 186-380 and 444-449.
module Hcill {
  import opened Bytes

  datatype State = Asleep | AsleepToAwake | Awake | AwakeToAsleep

  const GO_TO_SLEEP_IND: byte := 0x30
  const GO_TO_SLEEP_ACK: byte := 0x31
  const WAKE_UP_IND: byte := 0x32
  const WAKE_UP_ACK: byte := 0x33

  // A packet of the HCI layer, its type octet in front, or a command of the protocol.
  datatype Item = Data(octets: seq<byte>) | Command(cmd: byte)

  type Packet = i: Item | i.Data? witness Data([])

  datatype Ll = Ll(state: State, txq: seq<Item>, waitQ: seq<Packet>)

  const OPENED := Ll(Awake, [], [])

  // __ll_do_awake
  function DoAwake(ll: Ll): Ll { Ll(Awake, ll.txq + ll.waitQ, []) }

  // send_hcill_cmd, when the packet for it can be allocated.
  function SendCmd(ll: Ll, cmd: byte): Ll { ll.(txq := ll.txq + [Command(cmd)]) }

  // ll_enqueue
  function Enqueue(ll: Ll, skb: Packet, alloc: bool): Ll {
    match ll.state
    case Awake => ll.(txq := ll.txq + [skb])
    case Asleep =>
      var l := ll.(waitQ := ll.waitQ + [skb]);
      if alloc then SendCmd(l, WAKE_UP_IND).(state := AsleepToAwake) else l
    case AsleepToAwake => ll.(waitQ := ll.waitQ + [skb])
    case AwakeToAsleep => ll
  }

  // ll_device_want_to_wakeup
  function WantToWakeUp(ll: Ll, alloc: bool): Ll {
    if ll.state == AsleepToAwake || ll.state == Asleep then
      if alloc then DoAwake(SendCmd(ll, WAKE_UP_ACK)) else ll
    else DoAwake(ll)
  }

  // ll_device_want_to_sleep
  function WantToSleep(ll: Ll, alloc: bool): Ll {
    if alloc then SendCmd(ll, GO_TO_SLEEP_ACK).(state := Asleep) else ll
  }

  // ll_recv_frame: the device's commands; its sleep acknowledgement is only reported.
  function Receive(ll: Ll, cmd: byte, alloc: bool): Ll {
    if cmd == GO_TO_SLEEP_IND then WantToSleep(ll, alloc)
    else if cmd == WAKE_UP_IND then WantToWakeUp(ll, alloc)
    else if cmd == WAKE_UP_ACK then DoAwake(ll)
    else ll
  }

  // What the host answers, in octets: to 0x30 with 0x31, after which it counts as asleep; to 0x32
  // with 0x33 unless it is awake already, and then with everything that waits, as on 0x33. An
  // answer that cannot be allocated leaves all as it was; any other command is ignored.
  lemma Answers(ll: Ll, cmd: byte, alloc: bool)
    ensures var n := Receive(ll, cmd, alloc);
      var wakes := ll.state in {Asleep, AsleepToAwake};
      && (cmd == 0x30 ==> n == if alloc then Ll(Asleep, ll.txq + [Command(0x31)], ll.waitQ) else ll)
      && (cmd == 0x32 && wakes ==>
          n == if alloc then Ll(Awake, ll.txq + [Command(0x33)] + ll.waitQ, []) else ll)
      && (cmd == 0x33 || (cmd == 0x32 && !wakes) ==> n == Ll(Awake, ll.txq + ll.waitQ, []))
      && (cmd !in {0x30, 0x32, 0x33} ==> n == ll)
  {}

  // A packet goes out at once while the device is awake. Otherwise it waits behind the others,
  // and the first one for a sleeping device asks it to wake up, with 0x32.
  lemma Asks(ll: Ll, skb: Packet, alloc: bool)
    requires ll.state != AwakeToAsleep
    ensures var n := Enqueue(ll, skb, alloc);
      && (ll.state == Awake ==> n == Ll(Awake, ll.txq + [skb], ll.waitQ))
      && (ll.state != Awake ==> n.waitQ == ll.waitQ + [skb])
      && (ll.state == Asleep && alloc ==> n.txq == ll.txq + [Command(0x32)] && n.state == AsleepToAwake)
      && (ll.state == Asleep && !alloc ==> n.txq == ll.txq && n.state == Asleep)
      && (ll.state == AsleepToAwake ==> n.txq == ll.txq && n.state == AsleepToAwake)
  {}

  /** Runs, for any device and any allocation failures. */

  datatype Event = Submit(skb: Packet, alloc: bool) | FromDevice(cmd: byte, alloc: bool) | Transmit

  // What was transmitted, and what the HCI layer handed over.
  datatype World = World(ll: Ll, sent: seq<Item>, accepted: seq<Packet>)

  const START := World(OPENED, [], [])

  function Do(w: World, e: Event): World {
    match e
    case Submit(skb, alloc) => w.(ll := Enqueue(w.ll, skb, alloc), accepted := w.accepted + [skb])
    case FromDevice(cmd, alloc) => w.(ll := Receive(w.ll, cmd, alloc))
    case Transmit => // ll_dequeue
      if w.ll.txq == [] then w else w.(ll := w.ll.(txq := w.ll.txq[1..]), sent := w.sent + [w.ll.txq[0]])
  }

  function Run(w: World, events: seq<Event>): World
    decreases |events|
  {
    if events == [] then w else Run(Do(w, events[0]), events[1..])
  }

  // The packets among the items.
  function DataOf(items: seq<Item>): seq<Packet> {
    if items == [] then []
    else (if items[0].Data? then [items[0]] else []) + DataOf(items[1..])
  }

  // Everything ever put in the transmit queue, in order.
  function Log(w: World): seq<Item> { w.sent + w.ll.txq }

  predicate Inv(w: World) {
    && DataOf(Log(w)) + w.ll.waitQ == w.accepted
    && w.ll.state != AwakeToAsleep
    && (w.ll.state == Awake ==> w.ll.waitQ == [])
  }

  lemma {:induction false} DataAppend(a: seq<Item>, b: seq<Item>)
    ensures DataOf(a + b) == DataOf(a) + DataOf(b)
    decreases |a|
  {
    if a == [] {
      assert a + b == b;
    } else {
      DataAppend(a[1..], b);
      assert (a + b)[1..] == a[1..] + b;
    }
  }

  lemma DataOne(item: Item)
    ensures DataOf([item]) == if item.Data? then [item] else []
  {
    assert [item][1..] == [];
  }

  lemma {:induction false} DataOnly(skbs: seq<Packet>)
    ensures DataOf(skbs) == skbs
    decreases |skbs|
  {
    if skbs != [] {
      DataOnly(skbs[1..]);
    }
  }

  // What a step adds to the log.
  function Added(w: World, e: Event): seq<Item> {
    match e
    case Submit(skb, alloc) =>
      if w.ll.state == Awake then [skb]
      else if w.ll.state == Asleep && alloc then [Command(WAKE_UP_IND)]
      else []
    case FromDevice(cmd, alloc) =>
      if cmd == GO_TO_SLEEP_IND then if alloc then [Command(GO_TO_SLEEP_ACK)] else []
      else if cmd == WAKE_UP_ACK then w.ll.waitQ
      else if cmd != WAKE_UP_IND then []
      else if w.ll.state in {Asleep, AsleepToAwake} then
        if alloc then [Command(WAKE_UP_ACK)] + w.ll.waitQ else []
      else w.ll.waitQ
    case Transmit => []
  }

  // Nothing ever leaves the log or changes places in it.
  lemma LogGrows(w: World, e: Event)
    ensures Log(Do(w, e)) == Log(w) + Added(w, e)
  {
    if e.Transmit? && w.ll.txq != [] {
      assert w.ll.txq == [w.ll.txq[0]] + w.ll.txq[1..];
      assert w.sent + ([w.ll.txq[0]] + w.ll.txq[1..]) == (w.sent + [w.ll.txq[0]]) + w.ll.txq[1..];
    }
  }

  lemma SubmitAdds(w: World, skb: Packet, alloc: bool)
    requires Inv(w)
    ensures var e := Submit(skb, alloc);
      DataOf(Added(w, e)) + Do(w, e).ll.waitQ == w.ll.waitQ + [skb]
  {
    DataOne(Command(WAKE_UP_IND));
    DataOne(skb);
    NothingIn(w.ll.waitQ + [skb]);
    assert [skb] + [] == [skb] && [] + [skb] == [skb];
    hide DataOf, Log;
  }

  lemma DeviceAdds(w: World, cmd: byte, alloc: bool)
    requires Inv(w)
    ensures var e := FromDevice(cmd, alloc);
      DataOf(Added(w, e)) + Do(w, e).ll.waitQ == w.ll.waitQ
  {
    DataOnly(w.ll.waitQ);
    DataAppend([Command(WAKE_UP_ACK)], w.ll.waitQ);
    DataOne(Command(WAKE_UP_ACK));
    DataOne(Command(GO_TO_SLEEP_ACK));
    NothingIn(w.ll.waitQ);
    hide DataOf, Log;
  }

  lemma NothingIn(q: seq<Packet>)
    ensures DataOf([]) == [] && [] + q == q && q + [] == q
  {}

  lemma AddedData(w: World, e: Event)
    requires Inv(w)
    ensures DataOf(Added(w, e)) + Do(w, e).ll.waitQ == w.ll.waitQ + if e.Submit? then [e.skb] else []
  {
    hide DataOf, Log, Inv, Added, Do;
    if e.Submit? {
      SubmitAdds(w, e.skb, e.alloc);
    } else if e.FromDevice? {
      DeviceAdds(w, e.cmd, e.alloc);
      NothingIn(w.ll.waitQ);
    } else {
      TransmitAdds(w);
    }
  }

  lemma TransmitAdds(w: World)
    ensures DataOf(Added(w, Transmit)) + Do(w, Transmit).ll.waitQ == w.ll.waitQ + []
  {}

  lemma Regroup(log: seq<Item>, added: seq<Item>, waiting: seq<Packet>, before: seq<Packet>, more: seq<Packet>)
    requires DataOf(added) + waiting == before + more
    ensures DataOf(log + added) + waiting == DataOf(log) + before + more
  {
    DataAppend(log, added);
    hide DataOf;
    assert (DataOf(log) + DataOf(added)) + waiting == DataOf(log) + (DataOf(added) + waiting);
  }

  lemma DoKeeps(w: World, e: Event)
    requires Inv(w)
    ensures Inv(Do(w, e))
  {
    hide Log, Added, DataOf, Do;
    LogGrows(w, e);
    AddedData(w, e);
    StateKeeps(w, e);
    Regroup(Log(w), Added(w, e), Do(w, e).ll.waitQ, w.ll.waitQ, if e.Submit? then [e.skb] else []);
  }

  lemma StateKeeps(w: World, e: Event)
    requires Inv(w)
    ensures var v := Do(w, e);
      && v.ll.state != AwakeToAsleep && (v.ll.state == Awake ==> v.ll.waitQ == [])
      && v.accepted == w.accepted + if e.Submit? then [e.skb] else []
  {
    hide DataOf;
  }

  lemma {:induction false} RunKeeps(w: World, events: seq<Event>)
    requires Inv(w)
    ensures Inv(Run(w, events))
    decreases |events|
  {
    hide Inv, Do;
    if events != [] {
      DoKeeps(w, events[0]);
      RunKeeps(Do(w, events[0]), events[1..]);
    }
  }

  // Over every run, whatever the device says and whichever commands cannot be allocated: the
  // packets transmitted, those queued and those waiting are exactly the packets accepted, in
  // order; nothing waits while the device is awake; and no packet meets the branch that drops it.
  lemma NothingDroppedOrReordered(events: seq<Event>)
    ensures var w := Run(START, events);
      && DataOf(w.sent) + DataOf(w.ll.txq) + w.ll.waitQ == w.accepted
      && (w.ll.state == Awake ==> w.ll.waitQ == [])
      && w.ll.state != AwakeToAsleep
  {
    RunKeeps(START, events);
    hide Run, DataOf;
    var w := Run(START, events);
    DataAppend(w.sent, w.ll.txq);
  }

  // One wake-up, from either side, releases everything that waits, in order.
  lemma WakeUpReleases(w: World, cmd: byte)
    requires Inv(w) && cmd in {WAKE_UP_IND, WAKE_UP_ACK}
    ensures var v := Do(w, FromDevice(cmd, true));
      v.ll.waitQ == [] && v.ll.state == Awake && DataOf(Log(v)) == w.accepted
  {
    hide Log, DataOf;
    DoKeeps(w, FromDevice(cmd, true));
  }

  /** When data may be sent. */

  // After this log, does the device know that the host is awake? It does at the start, no longer
  // after the host acknowledged going to sleep, and again after a wake-up command of the host.
  predicate Up(log: seq<Item>) {
    if log == [] then true
    else
      var last := log[|log| - 1];
      if last == Command(GO_TO_SLEEP_ACK) then false
      else if last == Command(WAKE_UP_IND) || last == Command(WAKE_UP_ACK) then true
      else Up(log[..|log| - 1])
  }

  // No packet follows a sleep acknowledgement without a wake-up command between them.
  predicate Legal(log: seq<Item>) {
    forall i :: 0 <= i < |log| && log[i].Data? ==> Up(log[..i])
  }

  // The device acknowledges wake-ups only while one is under way.
  predicate Solicited(w: World, e: Event) {
    e.FromDevice? && e.cmd == WAKE_UP_ACK ==> w.ll.state != Asleep
  }

  predicate AllSolicited(w: World, events: seq<Event>)
    decreases |events|
  {
    events != [] ==> Solicited(w, events[0]) && AllSolicited(Do(w, events[0]), events[1..])
  }

  predicate Courteous(w: World) { Legal(Log(w)) && (w.ll.state != Asleep <==> Up(Log(w))) }

  lemma {:induction false} LegalAppend(log: seq<Item>, more: seq<Packet>)
    requires Legal(log) && (more != [] ==> Up(log))
    ensures Legal(log + more) && Up(log + more) == Up(log)
    decreases |more|
  {
    if more == [] {
      assert log + more == log;
    } else {
      LegalOneMore(log, more[0]);
      LegalAppend(log + [more[0]], more[1..]);
      assert log + more == log + [more[0]] + more[1..];
    }
  }

  lemma LegalOneMore(log: seq<Item>, item: Item)
    requires Legal(log) && (item.Data? ==> Up(log))
    ensures Legal(log + [item])
    ensures Up(log + [item]) ==
      if item == Command(GO_TO_SLEEP_ACK) then false
      else if item == Command(WAKE_UP_IND) || item == Command(WAKE_UP_ACK) then true
      else Up(log)
  {
    var all := log + [item];
    assert all[..|log|] == log;
    forall i | 0 <= i < |all| && all[i].Data?
      ensures Up(all[..i])
    {
      if i < |log| {
        assert all[..i] == log[..i];
      }
    }
  }

  lemma SubmitIsCourteous(w: World, skb: Packet, alloc: bool)
    requires Inv(w) && Courteous(w)
    ensures Courteous(Do(w, Submit(skb, alloc)))
  {
    LogGrows(w, Submit(skb, alloc));
    var log := Log(w);
    LegalOneMore(log, Command(WAKE_UP_IND));
    if w.ll.state == Awake {
      LegalAppend(log, [skb]);
    }
    assert log + [] == log;
    hide Log, Legal, Up, DataOf;
  }

  lemma DeviceIsCourteous(w: World, cmd: byte, alloc: bool)
    requires Inv(w) && Courteous(w) && Solicited(w, FromDevice(cmd, alloc))
    ensures Courteous(Do(w, FromDevice(cmd, alloc)))
  {
    LogGrows(w, FromDevice(cmd, alloc));
    var log := Log(w);
    LegalOneMore(log, Command(WAKE_UP_ACK));
    LegalOneMore(log, Command(GO_TO_SLEEP_ACK));
    LegalAppend(log + [Command(WAKE_UP_ACK)], w.ll.waitQ);
    assert log + [Command(WAKE_UP_ACK)] + w.ll.waitQ == log + ([Command(WAKE_UP_ACK)] + w.ll.waitQ);
    if w.ll.state != Asleep {
      LegalAppend(log, w.ll.waitQ);
    }
    assert log + [] == log;
    hide Log, Legal, Up, DataOf;
  }

  lemma DoIsCourteous(w: World, e: Event)
    requires Inv(w) && Courteous(w) && Solicited(w, e)
    ensures Courteous(Do(w, e))
  {
    match e
    case Submit(skb, alloc) => SubmitIsCourteous(w, skb, alloc);
    case FromDevice(cmd, alloc) => DeviceIsCourteous(w, cmd, alloc);
    case Transmit =>
      LogGrows(w, e);
      assert Log(w) + [] == Log(w);
      hide Log, Legal, Up, DataOf;
  }

  lemma {:induction false} RunIsCourteous(w: World, events: seq<Event>)
    requires Inv(w) && Courteous(w) && AllSolicited(w, events)
    ensures Courteous(Run(w, events))
    decreases |events|
  {
    hide Inv, Courteous, Do, Solicited;
    if events != [] {
      DoKeeps(w, events[0]);
      DoIsCourteous(w, events[0]);
      RunIsCourteous(Do(w, events[0]), events[1..]);
    }
  }

  lemma {:induction false} SolicitedAppend(w: World, events: seq<Event>, e: Event)
    ensures AllSolicited(w, events + [e]) <==> AllSolicited(w, events) && Solicited(Run(w, events), e)
    decreases |events|
  {
    hide Do, Solicited;
    if events == [] {
      assert [] + [e] == [e] && [e][1..] == [];
    } else {
      SolicitedAppend(Do(w, events[0]), events[1..], e);
      assert (events + [e])[1..] == events[1..] + [e];
    }
  }

  lemma {:induction false} RunOneMore(w: World, events: seq<Event>, e: Event)
    ensures Run(w, events + [e]) == Do(Run(w, events), e)
    decreases |events|
  {
    hide Do;
    if events == [] {
      assert [] + [e] == [e] && [e][1..] == [];
    } else {
      RunOneMore(Do(w, events[0]), events[1..], e);
      assert (events + [e])[1..] == events[1..] + [e];
    }
  }

  // Taking the acknowledgement of no wake-up for a new one, the host sends data unannounced.
  lemma StrayAcknowledgement(w: World, e: Event, skb: Packet, alloc: bool)
    requires Inv(w) && Courteous(w) && !Solicited(w, e)
    ensures !Legal(Log(Do(Do(w, e), Submit(skb, alloc))))
  {
    LogGrows(w, e);
    var v := Do(w, e);
    LogGrows(v, Submit(skb, alloc));
    var log := Log(Do(v, Submit(skb, alloc)));
    assert log == Log(w) + (w.ll.waitQ + [skb]);
    var i := |Log(w)|;
    assert log[i].Data? by { assert log[i] == (w.ll.waitQ + [skb])[0]; }
    assert log[..i] == Log(w);
    assert !Up(log[..i]);
    hide Up, Log;
  }

  // No packet handed over after any part of the run goes out unannounced.
  ghost predicate AlwaysLegal(events: seq<Event>, skb: Packet, alloc: bool) {
    forall n: nat :: n <= |events| ==> Legal(Log(Run(START, events[..n] + [Submit(skb, alloc)])))
  }

  lemma StartIsCourteous()
    ensures Inv(START) && Courteous(START) && START.ll.state != Asleep
  {}

  lemma AnyPrefix(events: seq<Event>, n: nat)
    requires AllSolicited(START, events) && n <= |events|
    ensures AllSolicited(START, events[..n])
    decreases |events|
  {
    if n < |events| {
      var most := events[..|events| - 1];
      assert events == most + [events[|events| - 1]];
      SolicitedAppend(START, most, events[|events| - 1]);
      AnyPrefix(most, n);
      assert most[..n] == events[..n];
    } else {
      assert events[..n] == events;
    }
  }

  lemma SolicitedIsLegal(events: seq<Event>, skb: Packet, alloc: bool)
    requires AllSolicited(START, events)
    ensures AlwaysLegal(events, skb, alloc)
  {
    hide AllSolicited, Run, Log, Legal, Inv, Courteous;
    StartIsCourteous();
    forall n: nat | n <= |events|
      ensures Legal(Log(Run(START, events[..n] + [Submit(skb, alloc)])))
    {
      AnyPrefix(events, n);
      SolicitedAppend(START, events[..n], Submit(skb, alloc));
      RunIsCourteous(START, events[..n] + [Submit(skb, alloc)]);
      CourteousIsLegal(Run(START, events[..n] + [Submit(skb, alloc)]));
    }
  }

  lemma CourteousIsLegal(w: World)
    requires Courteous(w)
    ensures Legal(Log(w))
  {}

  lemma {:induction false} LegalIsSolicited(events: seq<Event>, skb: Packet, alloc: bool)
    requires AlwaysLegal(events, skb, alloc)
    ensures AllSolicited(START, events)
    decreases |events|
  {
    if events != [] {
      var k := |events| - 1;
      var most, e := events[..k], events[k];
      assert events == most + [e];
      assert forall n: nat :: n <= k ==> most[..n] == events[..n];
      hide Run, Log, Legal, Do;
      LegalIsSolicited(most, skb, alloc);
      SolicitedAppend(START, most, e);
      StartIsCourteous();
      RunKeeps(START, most);
      RunIsCourteous(START, most);
      RunOneMore(START, most, e);
      RunOneMore(START, events, Submit(skb, alloc));
      assert events[..|events|] == events;
      hide Inv, Courteous, AllSolicited;
      if !Solicited(Run(START, most), e) {
        StrayAcknowledgement(Run(START, most), e, skb, alloc);
      }
    }
  }

  // Over every run, for every packet that may be handed over at any point of it: no packet is
  // ever sent between a sleep acknowledgement and the next wake-up command if and only if the
  // device acknowledges only wake-ups under way.
  lemma NoDataToASleeper(events: seq<Event>, skb: Packet, alloc: bool)
    ensures AllSolicited(START, events) <==> AlwaysLegal(events, skb, alloc)
  {
    hide AllSolicited, AlwaysLegal;
    if AllSolicited(START, events) {
      SolicitedIsLegal(events, skb, alloc);
    }
    if AlwaysLegal(events, skb, alloc) {
      LegalIsSolicited(events, skb, alloc);
    }
  }

  // A late acknowledgement breaks that: a wake-up crosses the device's wish to sleep, the host
  // agrees to sleep, and then takes the acknowledgement of its own wake-up for a new one.
  lemma LateAcknowledgement(skb: Packet)
    ensures var w := Run(START, [FromDevice(GO_TO_SLEEP_IND, true), Submit(skb, true),
                                 FromDevice(GO_TO_SLEEP_IND, true), FromDevice(WAKE_UP_ACK, true)]);
      && Log(w) == [Command(GO_TO_SLEEP_ACK), Command(WAKE_UP_IND), Command(GO_TO_SLEEP_ACK), skb]
      && !Legal(Log(w))
  {
    var e1, e2, e3, e4 := FromDevice(GO_TO_SLEEP_IND, true), Submit(skb, true),
                          FromDevice(GO_TO_SLEEP_IND, true), FromDevice(WAKE_UP_ACK, true);
    var w2 := Do(Do(START, e1), e2);
    var w4 := Do(Do(w2, e3), e4);
    assert [e1, e2, e3, e4][1..] == [e2, e3, e4] && [e2, e3, e4][1..] == [e3, e4];
    assert [e3, e4][1..] == [e4] && [e4][1..] == [];
    assert Run(w2, [e3, e4]) == w4 by {
      assert Run(Do(w2, e3), [e4]) == w4;
    }
    assert Run(Do(START, e1), [e2, e3, e4]) == w4;
    var log := Log(w4);
    assert log[..3] == [Command(GO_TO_SLEEP_ACK), Command(WAKE_UP_IND), Command(GO_TO_SLEEP_ACK)];
    assert log[3].Data? && !Up(log[..3]);
  }
}
