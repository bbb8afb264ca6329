// struct ll_struct and its operations, updated in place under the state lock. Whatever is called,
// everything accepted is, in order, transmitted, queued or waiting.
// Source: drivers/blue8852be/hci_ll.c, lines 72-109, 118-125, 186-380 and 444-449.
module HcillDriver {
  import opened Bytes
  import opened Hcill

  class LlStruct {
    var txq: seq<Item>
    var hcillState: State
    var txWaitQ: seq<Packet>

    // What was transmitted, and what the HCI layer handed over.
    ghost var sent: seq<Item>
    ghost var accepted: seq<Packet>

    function View(): Ll
      reads this
    {
      Ll(hcillState, txq, txWaitQ)
    }

    ghost function History(): World
      reads this
    {
      World(View(), sent, accepted)
    }

    ghost predicate Valid()
      reads this
    {
      Inv(History())
    }

    // ll_open
    constructor ()
      ensures Valid() && History() == START
    {
      txq, txWaitQ, hcillState := [], [], Awake;
      sent, accepted := [], [];
    }

    // send_hcill_cmd; alloc says whether there is memory for the command.
    method SendHcillCmd(cmd: byte, alloc: bool) returns (ok: bool)
      requires Valid()
      modifies `txq
      ensures Valid() && ok == alloc && View() == if alloc then SendCmd(old(View()), cmd) else old(View())
    {
      if !alloc {
        return false;
      }
      CommandIsNoData(sent, txq, cmd);
      txq := txq + [Command(cmd)];
      ok := true;
    }

    // __ll_do_awake
    method Awaken()
      requires Valid()
      modifies `txq, `txWaitQ, `hcillState
      ensures Valid() && hcillState == Awake && txWaitQ == [] && txq == old(txq + txWaitQ)
    {
      hide DataOf;
      WaitingIsData(sent, txq, txWaitQ);
      ghost var all := txq + txWaitQ;
      while txWaitQ != []
        invariant txq + txWaitQ == all
        decreases |txWaitQ|
      {
        var skb := txWaitQ[0];
        txWaitQ := txWaitQ[1..];
        assert txq + [skb] + txWaitQ == txq + ([skb] + txWaitQ);
        txq := txq + [skb];
      }
      assert txq == all;
      hcillState := Awake;
    }

    // ll_device_want_to_wakeup
    method DeviceWantToWakeUp(alloc: bool)
      requires Valid()
      modifies `txq, `txWaitQ, `hcillState
      ensures Valid() && View() == WantToWakeUp(old(View()), alloc)
    {
      if hcillState == AsleepToAwake || hcillState == Asleep {
        var ok := SendHcillCmd(WAKE_UP_ACK, alloc);
        if !ok {
          return;
        }
      }
      Awaken();
    }

    // ll_device_want_to_sleep
    method DeviceWantToSleep(alloc: bool)
      requires Valid()
      modifies `txq, `hcillState
      ensures Valid() && View() == WantToSleep(old(View()), alloc)
    {
      var ok := SendHcillCmd(GO_TO_SLEEP_ACK, alloc);
      if ok {
        hcillState := Asleep;
      }
    }

    // ll_recv_frame, with ll_device_woke_up
    method RecvFrame(cmd: byte, alloc: bool)
      requires Valid()
      modifies `txq, `txWaitQ, `hcillState
      ensures Valid() && History() == Do(old(History()), FromDevice(cmd, alloc))
    {
      if cmd == GO_TO_SLEEP_IND {
        DeviceWantToSleep(alloc);
      } else if cmd == WAKE_UP_IND {
        DeviceWantToWakeUp(alloc);
      } else if cmd == WAKE_UP_ACK {
        Awaken();
      }
    }

    // ll_enqueue
    method EnqueueSkb(skb: Packet, alloc: bool)
      requires Valid()
      modifies `txq, `txWaitQ, `hcillState, `accepted
      ensures Valid() && accepted == old(accepted) + [skb]
      ensures History() == Do(old(History()), Submit(skb, alloc))
    {
      hide DataOf;
      PacketIsData(sent, txq, txWaitQ, skb);
      accepted := accepted + [skb];
      if hcillState == Awake {
        txq := txq + [skb];
      } else if hcillState == Asleep {
        txWaitQ := txWaitQ + [skb];
        var ok := SendHcillCmd(WAKE_UP_IND, alloc);
        if ok {
          hcillState := AsleepToAwake;
        }
      } else if hcillState == AsleepToAwake {
        txWaitQ := txWaitQ + [skb];
      }
    }

    // ll_dequeue
    method DequeueItem() returns (item: Option<Item>)
      requires Valid()
      modifies `txq, `sent
      ensures Valid() && accepted == old(accepted) && txWaitQ == old(txWaitQ)
      ensures item.None? <==> old(txq) == []
      ensures if item.Some? then sent == old(sent) + [item.value] && [item.value] + txq == old(txq)
              else sent == old(sent) && txq == old(txq)
    {
      if txq == [] {
        return None;
      }
      item := Some(txq[0]);
      assert sent + txq == (sent + [txq[0]]) + txq[1..];
      sent := sent + [txq[0]];
      txq := txq[1..];
    }
  }

  lemma CommandIsNoData(sent: seq<Item>, txq: seq<Item>, cmd: byte)
    ensures DataOf(sent + (txq + [Command(cmd)])) == DataOf(sent + txq)
  {
    DataAppend(sent + txq, [Command(cmd)]);
    DataOne(Command(cmd));
    assert sent + (txq + [Command(cmd)]) == (sent + txq) + [Command(cmd)];
  }

  lemma WaitingIsData(sent: seq<Item>, txq: seq<Item>, waiting: seq<Packet>)
    ensures DataOf(sent + (txq + waiting)) == DataOf(sent + txq) + waiting
  {
    hide DataOf;
    DataAppend(sent + txq, waiting);
    DataOnly(waiting);
    assert sent + (txq + waiting) == (sent + txq) + waiting;
  }

  // Behind what is queued if nothing waits, behind what waits otherwise.
  lemma PacketIsData(sent: seq<Item>, txq: seq<Item>, waiting: seq<Packet>, skb: Packet)
    ensures DataOf(sent + (txq + [skb])) == DataOf(sent + txq) + [skb]
    ensures DataOf(sent + txq) + (waiting + [skb]) == DataOf(sent + txq) + waiting + [skb]
  {
    WaitingIsData(sent, txq, [skb]);
  }
}
