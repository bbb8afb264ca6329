// struct hci_uart's transmit side, with its bits, parked packet and queue updated in place.
// Every call is a run of the atomic actions of TxWorker; the trace lists them.
// Source: drivers/blue8852be/hci_ldisc.c, lines 98-181, 272-292 and 568-584.
module TxWorkerDriver {
  import opened Bytes
  import opened TxWorker

  class HciUart {
    var txWakeup: bool
    var sending: bool
    var workPending: bool
    var ttyFlag: bool
    var txSkb: Option<seq<byte>>
    var protoQueue: seq<seq<byte>>

    // Where everybody stands, and what went by.
    ghost var pc: WorkerPc
    ghost var wakers: seq<WakerPc>
    ghost var hand: Option<seq<byte>>
    ghost var written: seq<byte>
    ghost var enqueued: seq<byte>

    ghost function View(): Uart
      reads this
    {
      Uart(txWakeup, sending, workPending, ttyFlag, wakers, pc, hand, txSkb, protoQueue, written, enqueued)
    }

    // hci_uart_dequeue
    method DequeueSkb() returns (skb: Option<seq<byte>>)
      requires pc == Dequeue && hand.None?
      modifies `txSkb, `protoQueue, `hand, `pc
      ensures View() == WorkerStep(old(View()), 0) && skb == hand
      ensures pc == (if skb.Some? then AskTty else ClearSending) && (skb.Some? ==> txSkb.None?)
      ensures skb.None? ==> txSkb.None? && protoQueue == []
      ensures old(txSkb).None? && skb.Some? ==> |protoQueue| < |old(protoQueue)|
    {
      skb := txSkb;
      if skb.None? {
        if protoQueue != [] {
          skb := Some(protoQueue[0]);
          protoQueue := protoQueue[1..];
        }
      } else {
        txSkb := None;
      }
      hand := skb;
      pc := if skb.Some? then AskTty else ClearSending;
    }

    // hci_uart_tx_wakeup, for the caller that came last.
    method TxWakeup() returns (ghost trace: seq<Step>)
      requires wakers != [] && wakers[|wakers| - 1] == SetWakeup
      modifies `txWakeup, `sending, `workPending, `wakers
      ensures View() == Run(old(View()), trace)
      ensures wakers == old(wakers)[..|old(wakers)| - 1]
      ensures txWakeup && sending && workPending == (old(workPending) || !old(sending))
    {
      hide Do;
      ghost var start, me := View(), |wakers| - 1;
      txWakeup := true;
      wakers := wakers[me := TestSending];
      trace := [Waker(me)];
      CallerIs(start, me, TestSending);
      OneMore(start, [], Waker(me));
      ghost var mid := View();
      CallerIs(mid, me, Schedule);
      OneMore(start, trace, Waker(me));
      trace := trace + [Waker(me)];
      if sending {
        wakers := Without(wakers, me);
        return;
      }
      sending := true;
      wakers := wakers[me := Schedule];
      mid := View();
      CallerIs(mid, me, Schedule);
      OneMore(start, trace, Waker(me));
      workPending := true;
      wakers := Without(wakers, me);
      trace := trace + [Waker(me)];
    }

    // hci_uart_send_frame
    method SendFrame(skb: seq<byte>) returns (ghost trace: seq<Step>)
      modifies `protoQueue, `enqueued, `txWakeup, `sending, `workPending, `wakers
      ensures View() == Run(old(View()), trace)
      ensures protoQueue == old(protoQueue) + [skb] && enqueued == old(enqueued) + skb && wakers == old(wakers)
      ensures txWakeup && sending
    {
      ghost var start := View();
      protoQueue := protoQueue + [skb];
      enqueued := enqueued + skb;
      wakers := wakers + [SetWakeup];
      OneMore(start, [], Enqueue(skb));
      trace := TxWakeup();
      assert [] + [Enqueue(skb)] == [Enqueue(skb)];
      RunAppend(start, [Enqueue(skb)], trace);
      trace := [Enqueue(skb)] + trace;
    }

    // hci_uart_tty_wakeup
    method TtyHasRoom() returns (ghost trace: seq<Step>)
      modifies `ttyFlag, `txWakeup, `sending, `workPending, `wakers
      ensures View() == Run(old(View()), trace)
      ensures !ttyFlag && wakers == old(wakers) && txWakeup && sending
    {
      ghost var start := View();
      ttyFlag := false;
      wakers := wakers + [SetWakeup];
      OneMore(start, [], TtyWakeup);
      trace := TxWakeup();
      assert [] + [TtyWakeup] == [TtyWakeup];
      RunAppend(start, [TtyWakeup], trace);
      trace := [TtyWakeup] + trace;
    }

    // What the tty accepts is up to the tty.
    method TtyWrite(data: seq<byte>) returns (len: nat)
      ensures len <= |data|
    {
      len :| len <= |data|;
    }

    // The body of the loop: ask to be called back, write, and park what is left.
    method WritePacket(skb: seq<byte>) returns (len: nat, done: bool)
      requires pc == AskTty && hand == Some(skb) && txSkb.None?
      modifies `ttyFlag, `written, `txSkb, `hand, `pc
      ensures View() == WorkerStep(WorkerStep(old(View()), 0), len)
      ensures hand.None? && pc == (if done then Dequeue else ClearSending)
      ensures txSkb == (if done then None else Some(skb[len..])) && (!done ==> len < |skb|)
    {
      ttyFlag := true;
      len := TtyWrite(skb);
      written := written + skb[..len];
      hand := None;
      done := skb[len..] == [];
      if !done {
        txSkb := Some(skb[len..]);
      }
      pc := if done then Dequeue else ClearSending;
    }

    method ClearWakeup()
      requires pc == Restart
      modifies `txWakeup, `pc
      ensures View() == WorkerStep(old(View()), 0) && pc == Dequeue && !txWakeup
    {
      txWakeup := false;
      pc := Dequeue;
    }

    method EndPass() returns (again: bool)
      requires pc == ClearSending
      modifies `sending, `pc
      ensures View() == WorkerStep(WorkerStep(old(View()), 0), 0)
      ensures !sending && again == txWakeup && pc == if again then Restart else Idle
    {
      sending := false;
      again := txWakeup;
      pc := if again then Restart else Idle;
    }

    // The loop of one pass: until nothing is left or the tty has had enough.
    method WriteQueued(ghost start: Uart, ghost before: seq<Step>) returns (ghost trace: seq<Step>)
      requires pc == Dequeue && hand.None? && !txWakeup
      requires View() == Run(start, before) && WorkerOnly(before)
      modifies `ttyFlag, `txSkb, `protoQueue, `pc, `hand, `written
      ensures View() == Run(start, trace) && WorkerOnly(trace)
      ensures pc == ClearSending && hand.None? && (txSkb.None? ==> protoQueue == [])
    {
      hide Do, Run, WorkerStep, WorkerOnly;
      trace := Extend(start, before, 0);
      var skb := DequeueSkb();
      while skb.Some?
        invariant View() == Run(start, trace) && WorkerOnly(trace)
        invariant hand == skb && (skb.Some? ==> txSkb.None?)
        invariant pc == if skb.Some? then AskTty else ClearSending
        invariant skb.None? ==> txSkb.None? && protoQueue == []
        decreases |protoQueue| + if skb.Some? then 1 else 0
      {
        trace := Extend(start, trace, 0);
        var len, done := WritePacket(skb.value);
        trace := Extend(start, trace, len);
        if !done {
          break;
        }
        trace := Extend(start, trace, 0);
        skb := DequeueSkb();
      }
    }

    // hci_uart_write_work, with nobody else running.
    method WriteWork() returns (ghost trace: seq<Step>)
      requires pc == Restart && hand.None?
      modifies `txWakeup, `sending, `ttyFlag, `txSkb, `protoQueue, `pc, `hand, `written
      ensures View() == Run(old(View()), trace) && WorkerOnly(trace)
      ensures pc == Idle && hand.None? && !txWakeup && !sending
      ensures txSkb.None? ==> protoQueue == []
    {
      hide Do, Run, WorkerStep, WorkerOnly;
      ghost var start := View();
      RunsNothing(start);
      trace := [];
      assert WorkerOnly(trace) by { WorkerOnlyNothing(); }
      var again := true;
      while again
        invariant View() == Run(start, trace) && WorkerOnly(trace)
        invariant hand.None? && pc == if again then Restart else Idle
        invariant !again ==> !txWakeup && !sending && (txSkb.None? ==> protoQueue == [])
        decreases again
      {
        trace := Extend(start, trace, 0);
        ClearWakeup();
        trace := WriteQueued(start, trace);
        trace := Extend(start, Extend(start, trace, 0), 0);
        again := EndPass();
      }
    }
  }

  ghost predicate WorkerOnly(trace: seq<Step>) { forall step :: step in trace ==> step.Worker? }

  // The trace goes on with one more action of the worker.
  ghost function Extend(start: Uart, trace: seq<Step>, len: nat): (r: seq<Step>)
    ensures Run(start, r) == WorkerStep(Run(start, trace), len)
    ensures WorkerOnly(trace) ==> WorkerOnly(r)
  {
    OneMore(start, trace, Worker(len));
    trace + [Worker(len)]
  }

  lemma WorkerOnlyNothing()
    ensures WorkerOnly([])
  {}

  lemma RunsNothing(w: Uart)
    ensures Run(w, []) == w
  {}

  lemma CallerIs(w: Uart, me: nat, pc: WakerPc)
    requires |w.wakers| == me + 1
    ensures Do(w, Waker(me)) == WakerStep(w, me)
    ensures Without(w.wakers, me) == w.wakers[..me] && w.wakers[me := pc][..me] == w.wakers[..me]
  {}
}
