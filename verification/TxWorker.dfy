// The transmit worker of the UART line discipline and its wake-up protocol: any number of
// callers, two atomic bits and one work item, interleaved step by step.
// Source: drivers/blue8852be/hci_ldisc.c, lines 98-181, 272-292 and 568-584.
module TxWorker {
  import opened Bytes

  // Where a caller of hci_uart_tx_wakeup stands; one that has finished is gone.
  datatype WakerPc = SetWakeup | TestSending | Schedule

  // Where hci_uart_write_work stands.
  datatype WorkerPc = Idle | Restart | Dequeue | AskTty | Write | ClearSending | TestWakeup

  // The bits, the work item and the tty's request flag; who stands where; the packet in hand,
  // the one parked after a partial write, the protocol's queue; and what was ever written and
  // ever enqueued.
  datatype Uart = Uart(wakeup: bool, sending: bool, pending: bool, ttyFlag: bool,
                       wakers: seq<WakerPc>, pc: WorkerPc,
                       hand: Option<seq<byte>>, txSkb: Option<seq<byte>>, queue: seq<seq<byte>>,
                       written: seq<byte>, enqueued: seq<byte>)

  const START := Uart(false, false, false, false, [], Idle, None, None, [], [], [])

  /** Steps. Each is one atomic action; one that is not enabled changes nothing. */

  datatype Step =
    | Enqueue(skb: seq<byte>) // hci_uart_send_frame up to the call of hci_uart_tx_wakeup
    | TtyWakeup               // hci_uart_tty_wakeup up to that call
    | Wake                    // any other caller
    | Waker(i: nat)
    | Worker(len: nat)        // len is what the tty accepts, if the action is a write

  function Arrives(w: Uart): Uart { w.(wakers := w.wakers + [SetWakeup]) }

  function WakerStep(w: Uart, i: nat): Uart
    requires i < |w.wakers|
  {
    match w.wakers[i]
    case SetWakeup => w.(wakeup := true, wakers := w.wakers[i := TestSending])
    case TestSending =>
      if w.sending then w.(wakers := Without(w.wakers, i))
      else w.(sending := true, wakers := w.wakers[i := Schedule])
    case Schedule => w.(pending := true, wakers := Without(w.wakers, i))
  }

  // hci_uart_dequeue
  function TakeNext(w: Uart): Uart {
    if w.txSkb.Some? then w.(hand := w.txSkb, txSkb := None, pc := AskTty)
    else if w.queue != [] then w.(hand := Some(w.queue[0]), queue := w.queue[1..], pc := AskTty)
    else w.(pc := ClearSending)
  }

  // The tty takes the first n octets of the packet in hand; the rest is parked.
  function WriteOut(w: Uart, skb: seq<byte>, n: nat): Uart
    requires n <= |skb|
  {
    var w2 := w.(written := w.written + skb[..n], hand := None);
    if n < |skb| then w2.(txSkb := Some(skb[n..]), pc := ClearSending) else w2.(pc := Dequeue)
  }

  function Least(a: nat, b: nat): nat { if a < b then a else b }

  function WorkerStep(w: Uart, len: nat): Uart {
    match w.pc
    case Idle => if w.pending then w.(pending := false, pc := Restart) else w
    case Restart => w.(wakeup := false, pc := Dequeue)
    case Dequeue => TakeNext(w)
    case AskTty => w.(ttyFlag := true, pc := Write)
    case Write => if w.hand.None? then w else WriteOut(w, w.hand.value, Least(len, |w.hand.value|))
    case ClearSending => w.(sending := false, pc := TestWakeup)
    case TestWakeup => w.(pc := if w.wakeup then Restart else Idle)
  }

  function Do(w: Uart, step: Step): Uart {
    match step
    case Enqueue(skb) => Arrives(w.(queue := w.queue + [skb], enqueued := w.enqueued + skb))
    case TtyWakeup => Arrives(w.(ttyFlag := false))
    case Wake => Arrives(w)
    case Waker(i) => if i < |w.wakers| then WakerStep(w, i) else w
    case Worker(len) => WorkerStep(w, len)
  }

  function Run(w: Uart, steps: seq<Step>): Uart
    decreases |steps|
  {
    if steps == [] then w else Run(Do(w, steps[0]), steps[1..])
  }

  /** The wake-up invariant. */

  // Something only the worker can do: take a queued packet while none is parked, or ask the
  // tty to call back for the parked one.
  predicate Todo(w: Uart) {
    if w.txSkb.Some? then !w.ttyFlag else w.queue != []
  }

  // Somebody will set the wake-up bit, or has.
  predicate Called(w: Uart) { SetWakeup in w.wakers || w.wakeup }

  predicate Busy(w: Uart) { w.pc.Restart? || w.pc.Dequeue? || w.pc.AskTty? || w.pc.Write? }

  // The worker runs, or is about to.
  predicate Coming(w: Uart) { Schedule in w.wakers || w.pending }

  predicate Wakeful(w: Uart) {
    && (Todo(w) ==> Called(w) || Busy(w))
    && (w.pc == Write && !w.ttyFlag ==> Called(w))
    && (w.wakeup ==> TestSending in w.wakers || Coming(w) || w.pc != Idle)
    && (w.sending ==> Coming(w) || Busy(w) || w.pc == ClearSending)
  }

  predicate HandOk(w: Uart) {
    && (w.hand.Some? <==> w.pc.AskTty? || w.pc.Write?)
    && (w.hand.Some? ==> w.txSkb.None?)
    && (w.txSkb.Some? ==> w.txSkb.value != [])
  }

  function Octets(skb: Option<seq<byte>>): seq<byte> { if skb.Some? then skb.value else [] }

  // Everything enqueued is written, in hand, parked or queued, in this order.
  predicate Conserved(w: Uart) {
    w.enqueued == InOrder(w.written, Octets(w.hand), Octets(w.txSkb), Concat(w.queue))
  }

  function InOrder(written: seq<byte>, hand: seq<byte>, parked: seq<byte>, queued: seq<byte>): seq<byte> {
    written + (hand + (parked + queued))
  }

  predicate Inv(w: Uart) { Wakeful(w) && HandOk(w) && Conserved(w) }

  lemma MembersStay<T(!new)>(s: seq<T>, i: nat, y: T)
    requires i < |s|
    ensures y in s[i := y]
    ensures forall x :: x in s && x != s[i] ==> x in s[i := y] && x in Without(s, i)
  {
    assert s[i := y][i] == y;
    forall x | x in s && x != s[i]
      ensures x in s[i := y] && x in Without(s, i)
    {
      var k :| 0 <= k < |s| && s[k] == x;
      assert s[i := y][k] == x;
      assert Without(s, i)[if k < i then k else k - 1] == x;
    }
  }

  lemma ArrivalKeeps(w: Uart)
    requires Wakeful(w)
    ensures Wakeful(Arrives(w)) && Called(Arrives(w))
  {
    assert Arrives(w).wakers[|w.wakers|] == SetWakeup;
    assert forall x :: x in w.wakers ==> x in Arrives(w).wakers;
  }

  lemma WakerKeeps(w: Uart, i: nat)
    requires Wakeful(w) && i < |w.wakers|
    ensures Wakeful(WakerStep(w, i))
  {
    MembersStay(w.wakers, i, if w.wakers[i] == SetWakeup then TestSending else Schedule);
    hide Without;
  }

  lemma WorkerKeeps(w: Uart, len: nat)
    requires Wakeful(w) && HandOk(w)
    ensures Wakeful(WorkerStep(w, len))
  {
    if w.pc == Write {
      hide WriteOut;
      WriteIs(w, w.hand.value, Least(len, |w.hand.value|));
    }
  }

  lemma WriteIs(w: Uart, skb: seq<byte>, n: nat)
    requires n <= |skb|
    ensures var v := WriteOut(w, skb, n);
      && v.hand == None && v.txSkb == (if n < |skb| then Some(skb[n..]) else w.txSkb)
      && v.pc == (if n < |skb| then ClearSending else Dequeue)
      && v.written == w.written + skb[..n]
      && v == w.(written := v.written, hand := None, txSkb := v.txSkb, pc := v.pc)
  {}

  lemma WorkerKeepsHand(w: Uart, len: nat)
    requires HandOk(w)
    ensures HandOk(WorkerStep(w, len))
  {}

  lemma WriteConserves(w: Uart, skb: seq<byte>, n: nat)
    requires w.hand == Some(skb) && w.txSkb == None && n <= |skb| && Conserved(w)
    ensures Conserved(WriteOut(w, skb, n))
  {
    var q := Concat(w.queue);
    assert skb == skb[..n] + skb[n..];
    assert InOrder(w.written, skb, [], q) == InOrder(w.written + skb[..n], [], skb[n..], q);
  }

  lemma TakeConserves(w: Uart)
    requires w.hand == None && Conserved(w)
    ensures Conserved(TakeNext(w))
  {
    if w.txSkb.None? && w.queue != [] {
      var first, rest := w.queue[0], Concat(w.queue[1..]);
      assert InOrder(w.written, [], [], first + rest) == InOrder(w.written, first, [], rest);
    } else if w.txSkb.Some? {
      assert InOrder(w.written, [], w.txSkb.value, Concat(w.queue)) == InOrder(w.written, w.txSkb.value, [], Concat(w.queue));
    }
  }

  lemma WorkerConserves(w: Uart, len: nat)
    requires HandOk(w) && Conserved(w)
    ensures Conserved(WorkerStep(w, len))
  {
    hide InOrder, TakeNext, WriteOut;
    if w.pc == Write {
      WriteConserves(w, w.hand.value, Least(len, |w.hand.value|));
    } else if w.pc == Dequeue {
      TakeConserves(w);
    }
  }

  lemma EnqueueConserves(w: Uart, skb: seq<byte>)
    requires Conserved(w)
    ensures Conserved(Do(w, Enqueue(skb)))
  {
    ConcatSnoc(w.queue, skb);
    var h, p, q := Octets(w.hand), Octets(w.txSkb), Concat(w.queue);
    assert InOrder(w.written, h, p, q + skb) == InOrder(w.written, h, p, q) + skb;
  }

  // Whoever adds work is still to set the wake-up bit.
  lemma EnqueueKeeps(w: Uart, skb: seq<byte>)
    requires Wakeful(w)
    ensures Wakeful(Do(w, Enqueue(skb)))
  {
    ArrivalKeeps(w);
    assert Do(w, Enqueue(skb)).wakers == Arrives(w).wakers;
  }

  lemma TtyWakeupKeeps(w: Uart)
    requires Wakeful(w)
    ensures Wakeful(Do(w, TtyWakeup))
  {
    ArrivalKeeps(w);
    assert Do(w, TtyWakeup).wakers == Arrives(w).wakers;
  }

  lemma CallerKeeps(w: Uart, step: Step)
    requires Inv(w) && !step.Enqueue? && !step.Worker?
    ensures Inv(Do(w, step))
  {
    hide Wakeful, Octets, InOrder, Without, Concat;
    match step
    case TtyWakeup => TtyWakeupKeeps(w);
    case Wake => ArrivalKeeps(w);
    case Waker(i) =>
      if i < |w.wakers| {
        WakerKeeps(w, i);
      }
  }

  lemma EnqueueKeepsAll(w: Uart, skb: seq<byte>)
    requires Inv(w)
    ensures Inv(Do(w, Enqueue(skb)))
  {
    EnqueueConserves(w, skb);
    EnqueueKeeps(w, skb);
    hide Wakeful, Conserved;
  }

  lemma DoKeeps(w: Uart, step: Step)
    requires Inv(w)
    ensures Inv(Do(w, step))
  {
    hide Wakeful, HandOk, Conserved, WorkerStep;
    if step.Worker? {
      WorkerKeeps(w, step.len);
      WorkerKeepsHand(w, step.len);
      WorkerConserves(w, step.len);
    } else if step.Enqueue? {
      EnqueueKeepsAll(w, step.skb);
    } else {
      CallerKeeps(w, step);
    }
  }

  lemma {:induction false} RunKeeps(w: Uart, steps: seq<Step>)
    requires Inv(w)
    ensures Inv(Run(w, steps))
    decreases |steps|
  {
    hide Inv, Do;
    if steps != [] {
      DoKeeps(w, steps[0]);
      RunKeeps(Do(w, steps[0]), steps[1..]);
    }
  }

  // Nobody is inside the protocol.
  predicate Quiet(w: Uart) { w.pc == Idle && !w.pending && w.wakers == [] }

  // No wake-up is lost: over every interleaving of any number of callers with the worker, once
  // all of them have come to rest, either every packet has been written out, or one is parked
  // and the tty still owes the call that will resume it. The worker can be scheduled again.
  lemma NoLostWakeup(steps: seq<Step>)
    requires Quiet(Run(START, steps))
    ensures var w := Run(START, steps);
      && !w.sending && w.hand.None?
      && (if w.txSkb.None? then w.queue == [] && w.written == w.enqueued else w.ttyFlag)
  {
    RunKeeps(START, steps);
    hide Run;
  }

  // The octets leave in the order they were enqueued, whatever the tty accepts each time.
  lemma OctetsInOrder(steps: seq<Step>)
    ensures var w := Run(START, steps);
      && w.written <= w.enqueued
      && w.enqueued == InOrder(w.written, Octets(w.hand), Octets(w.txSkb), Concat(w.queue))
  {
    RunKeeps(START, steps);
    hide Run, Wakeful, HandOk, Octets;
  }

  /** Progress: once the tty accepts whole packets, everything goes out. */

  function Left(w: Uart): nat {
    |w.queue| + (if w.hand.Some? then 1 else 0) + (if w.txSkb.Some? then 1 else 0)
  }

  function Remaining(pc: WakerPc): nat {
    match pc
    case SetWakeup => 3
    case TestSending => 2
    case Schedule => 1
  }

  function WakerCost(wakers: seq<WakerPc>): nat {
    if wakers == [] then 0 else Remaining(wakers[0]) + WakerCost(wakers[1..])
  }

  function Stage(w: Uart): nat { if w.hand.Some? then 0 else if w.ttyFlag then 2 else 1 }

  function WorkerCost(w: Uart): nat {
    var again := if w.wakeup then 10 else 0;
    var queued := if w.pending then 20 else 0;
    match w.pc
    case Idle => queued
    case Restart => queued + 7
    case Dequeue => queued + again + 6
    case AskTty => queued + again + 5
    case Write => queued + again + 4
    case ClearSending => queued + again + 2
    case TestWakeup => queued + again + 1
  }

  // Callers first, then the worker; when all rest and a packet is parked, the tty calls.
  function Continuation(w: Uart): seq<Step>
    requires Inv(w)
    decreases Left(w), Stage(w), WakerCost(w.wakers), WorkerCost(w)
  {
    if Quiet(w) && w.txSkb.None? then []
    else
      DoKeeps(w, NextStep(w));
      NextStepCounts(w);
      [NextStep(w)] + Continuation(Do(w, NextStep(w)))
  }

  function NextStep(w: Uart): Step {
    if w.wakers != [] then Waker(0)
    else if w.pc != Idle || w.pending then Worker(|Octets(w.hand)|)
    else TtyWakeup
  }

  lemma NextStepCounts(w: Uart)
    requires Inv(w) && !(Quiet(w) && w.txSkb.None?)
    ensures var v := Do(w, NextStep(w));
      || Left(v) < Left(w)
      || (Left(v) == Left(w) && Stage(v) < Stage(w))
      || (Left(v) == Left(w) && Stage(v) == Stage(w) && WakerCost(v.wakers) < WakerCost(w.wakers))
      || (Left(v) == Left(w) && Stage(v) == Stage(w) && WakerCost(v.wakers) == WakerCost(w.wakers)
          && WorkerCost(v) < WorkerCost(w))
  {
    hide Conserved;
    if w.wakers != [] {
      WakerCounts(w);
      WakerLeavesPackets(w);
      hide Wakeful, Left, Stage, WakerCost, WakerStep;
    } else if w.pc != Idle || w.pending {
      hide Wakeful;
      WorkerCounts(w);
    }
  }

  lemma WakerCounts(w: Uart)
    requires w.wakers != []
    ensures var v := WakerStep(w, 0);
      WakerCost(v.wakers) < WakerCost(w.wakers)
  {
    FirstMovesOn(w.wakers, if w.wakers[0] == SetWakeup then TestSending else Schedule);
    hide WakerCost, Without;
  }

  lemma WakerLeavesPackets(w: Uart)
    requires w.wakers != []
    ensures Left(WakerStep(w, 0)) == Left(w) && Stage(WakerStep(w, 0)) == Stage(w)
  {}

  lemma FirstMovesOn(wakers: seq<WakerPc>, pc: WakerPc)
    requires wakers != []
    ensures WakerCost(wakers[0 := pc]) == WakerCost(wakers) - Remaining(wakers[0]) + Remaining(pc)
    ensures WakerCost(Without(wakers, 0)) < WakerCost(wakers)
  {
    assert wakers[0 := pc][1..] == wakers[1..] && Without(wakers, 0) == wakers[1..];
  }

  lemma WorkerCounts(w: Uart)
    requires HandOk(w) && (w.pc != Idle || w.pending)
    ensures var v := WorkerStep(w, |Octets(w.hand)|);
      || Left(v) < Left(w)
      || (Left(v) == Left(w) && Stage(v) < Stage(w))
      || (Left(v) == Left(w) && Stage(v) == Stage(w) && v.wakers == w.wakers && WorkerCost(v) < WorkerCost(w))
  {}

  // From every reachable state, without anything further being enqueued, the callers and the
  // worker get everything written in finitely many steps.
  lemma {:induction false} EverythingGoesOut(w: Uart)
    requires Inv(w)
    ensures var v := Run(w, Continuation(w)); v.written == w.enqueued && Quiet(v)
    ensures forall step :: step in Continuation(w) ==> !step.Enqueue?
    decreases Left(w), Stage(w), WakerCost(w.wakers), WorkerCost(w)
  {
    hide WorkerStep, WakerStep, WorkerCost, WakerCost, Stage;
    if Quiet(w) && w.txSkb.None? {
      assert w.written + [] + [] + [] == w.written;
    } else {
      DoKeeps(w, NextStep(w));
      NextStepCounts(w);
      var v := Do(w, NextStep(w));
      EverythingGoesOut(v);
      OnlyEnqueueEnqueues(w, NextStep(w));
      assert Continuation(w)[0] == NextStep(w) && Continuation(w)[1..] == Continuation(v);
    }
  }

  lemma OnlyEnqueueEnqueues(w: Uart, step: Step)
    requires !step.Enqueue?
    ensures Do(w, step).enqueued == w.enqueued
  {
    hide Without, Least;
  }

  lemma {:induction false} RunAppend(w: Uart, a: seq<Step>, b: seq<Step>)
    ensures Run(w, a + b) == Run(Run(w, a), b)
    decreases |a|
  {
    hide Do;
    if a == [] {
      assert a + b == b;
    } else {
      RunAppend(Do(w, a[0]), a[1..], b);
      assert (a + b)[1..] == a[1..] + b;
    }
  }

  lemma OneMore(w: Uart, steps: seq<Step>, step: Step)
    ensures Run(w, steps + [step]) == Do(Run(w, steps), step)
  {
    RunAppend(w, steps, [step]);
    var v := Run(w, steps);
    assert Run(v, [step]) == Run(Do(v, step), [step][1..]);
  }
}
