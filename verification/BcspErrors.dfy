// Streams in which frames are damaged: what a BCSP receiver makes of them is what it would make
// of the undamaged ones alone.
// Source: drivers/blue8852be/hci_bcsp.c, lines 425-472 and 580-686.
module BcspErrors {
  import opened Bytes
  import opened Machine
  import opened Framing
  import opened BcspCodec

  // A frame as it arrives: intact, or with one unescaped octet of header, payload or CRC replaced.
  datatype Arrival = Intact(f: GoodFrame) | Replaced(f: GoodFrame, i: nat, x: byte)
  {
    predicate Possible() {
      Replaced? ==> f.crc && i < |Raw(f)| && x != Raw(f)[i]
    }
  }

  function Received(a: Arrival): seq<byte>
    requires a.Possible()
  {
    if a.Intact? then Encode(a.f) else [DELIMITER] + (Escape(Raw(a.f)[a.i := a.x]) + [DELIMITER])
  }

  function Stream(arrivals: seq<Arrival>): seq<byte>
    requires forall a :: a in arrivals ==> a.Possible()
  {
    if arrivals == [] then [] else Received(arrivals[0]) + Stream(arrivals[1..])
  }

  function IntactOnes(arrivals: seq<Arrival>): seq<GoodFrame> {
    if arrivals == [] then []
    else (if arrivals[0].Intact? then [arrivals[0].f] else []) + IntactOnes(arrivals[1..])
  }

  lemma OneArrival(rx: RxValid, a: Arrival)
    requires Settle(rx).outs == [] && a.Possible()
    ensures var out := Feed(rx, Received(a));
      Settle(out.st).outs == [] && Parsed(out.outs) == if a.Intact? then [a.f] else []
  {
    if a.Intact? {
      hide Encode, RxByte, Settle, Parse, Run;
      FrameInFrameOut(rx, a.f);
      var outs := Feed(rx, Encode(a.f)).outs;
      assert outs == [outs[0]] && outs[1..] == [];
    } else {
      var tail := Escape(Raw(a.f)[a.i := a.x]) + [DELIMITER];
      Begun(rx);
      Resynchronise(rx);
      hide Escape, Raw, RxByte, Run;
      RunAppend(RxByte, rx, [DELIMITER], tail);
      RunOne(RxByte, rx, DELIMITER);
      OneOctetReplaced(RxByte(rx, DELIMITER).st, a.f, a.i, a.x);
    }
  }

  lemma Begun(rx: RxValid)
    requires Settle(rx).outs == []
    ensures RxByte(rx, DELIMITER).outs == []
  {}

  lemma {:induction false} ParsedAppend(a: seq<Packet>, b: seq<Packet>)
    ensures Parsed(a + b) == Parsed(a) + Parsed(b)
    decreases |a|
  {
    hide Parse, Parsed;
    BcspCodec.NothingFed(RX_INIT);
    if a == [] {
      assert a + b == b;
    } else {
      ParsedAppend(a[1..], b);
      ParsedCons(a[0], a[1..] + b);
      ParsedCons(a[0], a[1..]);
      assert a + b == [a[0]] + (a[1..] + b) && a == [a[0]] + a[1..];
    }
  }

  // However damaged frames lie among intact ones, and in whatever receive buffers, exactly the
  // intact ones are completed, each once, in order: damage is loss.
  lemma {:induction false} DamageIsLoss(rx: RxValid, arrivals: seq<Arrival>)
    requires Settle(rx).outs == [] && forall a :: a in arrivals ==> a.Possible()
    ensures var out := Feed(rx, Stream(arrivals));
      Settle(out.st).outs == [] && Parsed(out.outs) == IntactOnes(arrivals)
    decreases |arrivals|
  {
    hide RxByte, Settle, Received;
    if arrivals != [] {
      var a := arrivals[0];
      assert a in arrivals;
      OneArrival(rx, a);
      var first := Feed(rx, Received(a));
      DamageIsLoss(first.st, arrivals[1..]);
      var rest := Feed(first.st, Stream(arrivals[1..]));
      RunAppend(RxByte, rx, Received(a), Stream(arrivals[1..]));
      ParsedAppend(first.outs, rest.outs);
    }
  }

  lemma DamageIsLossInAnyChunks(rx: RxValid, arrivals: seq<Arrival>, chunks: seq<seq<byte>>)
    requires Settle(rx).outs == [] && forall a :: a in arrivals ==> a.Possible()
    ensures Concat(chunks) == Stream(arrivals) ==>
      var out := RunChunks(RxByte, rx, chunks);
      Settle(out.st).outs == [] && Parsed(out.outs) == IntactOnes(arrivals)
  {
    hide RxByte, Settle, Run, Stream;
    ChunksAreOneStretch(RxByte, rx, chunks);
    DamageIsLoss(rx, arrivals);
  }
}
