// The reassembly loop h4_recv_buf and its caller, with the buffer grown in place.
// Source: drivers/blue8852be/hci_h4.c, lines 87-132 and 154-273; drivers/blue8852be/h4_recv.h,
// lines 41-146; drivers/blue8852be/hci_nokia.c, lines 510-529.
module H4Driver {
  import opened Bytes
  import opened Machine
  import opened H4

  function UpSeq(up: Option<Packet>): seq<Packet> { if up.Some? then [up.value] else [] }

  class Reassembler {
    const pkts: Table
    const alignment: Align
    var padding: nat

    // The buffer being filled, when there is one.
    var hasSkb: bool
    var pktType: byte
    var expected: nat
    var data: seq<byte>

    function View(): H4State
      reads this
    {
      H4(pkts, alignment, if hasSkb then Some(Partial(pktType, expected, data)) else None, padding, None)
    }

    ghost predicate Valid()
      reads this
    {
      hasSkb ==> |data| < expected && padding == 0
    }

    // An alignment of zero means none.
    constructor (pkts: Table, alignment: nat)
      requires alignment < 256
      ensures Valid() && View() == H4(pkts, if alignment == 0 then 1 else alignment, None, 0, None)
    {
      this.pkts := pkts;
      this.alignment := if alignment != 0 then alignment else 1;
      padding, hasSkb, pktType, expected, data := 0, false, 0, 0, [];
    }

    // The index of the first entry of a type, or the length of the table.
    method FindType(ptype: byte) returns (i: nat)
      ensures i <= |pkts|
      ensures Find(pkts, ptype) == if i < |pkts| then Some(pkts[i]) else None
    {
      i := 0;
      while i < |pkts|
        invariant i <= |pkts|
        invariant Find(pkts, ptype) == Find(pkts[i..], ptype)
      {
        if pkts[i].ptype == ptype {
          break;
        }
        i := i + 1;
      }
    }

    // h4_recv_buf: ups is what is handed up, in order; on an error the rest is not looked at.
    method RecvBuf(buffer: seq<byte>) returns (ups: seq<Packet>, err: Option<Error>)
      requires Valid()
      modifies this
      ensures Valid()
      ensures var out := Feed(old(View()), buffer);
        View() == Recover(out.st) && ups == out.outs && err == out.st.error
    {
      hide Octet, Run, Continue;
      Begin(Octet, View(), buffer);
      ups, err := [], None;
      var i := 0;
      while i < |buffer|
        invariant 0 <= i <= |buffer| && Valid()
        invariant Feed(old(View()), buffer) == Continue(Octet, ups, View(), buffer[i..])
      {
        ghost var start, before := i, View();
        i := SkipPad(buffer, i);
        Piece(buffer, start, i);
        Leap(Octet, ups, before, buffer[start..], i - start);
        assert ups + [] == ups;
        if i == |buffer| {
          break;
        }
        before := View();
        var n, up, e := TakePiece(buffer[i..]);
        Leap(Octet, ups, before, buffer[i..], n);
        Piece(buffer, i, i + n);
        ups := ups + UpSeq(up);
        i := i + n;
        if e.Some? {
          ErrorEnds(ups, View().(error := e), buffer[i..]);
          return ups, e;
        }
        assert View().(error := None) == View();
      }
      assert buffer[i..] == [];
      End(Octet, ups, View());
    }

    // The loop that removes padding octets.
    method SkipPad(buffer: seq<byte>, from: nat) returns (i: nat)
      requires Valid() && from <= |buffer|
      modifies `padding
      ensures Valid() && from <= i <= |buffer|
      ensures Feed(old(View()), buffer[from..i]) == Out(View(), [])
      ensures padding == 0 || i == |buffer|
    {
      ghost var before := View();
      i := from;
      while padding > 0 && i < |buffer|
        invariant from <= i <= |buffer| && padding + (i - from) == before.padding
        invariant View() == before.(padding := padding)
        invariant before.padding > 0 ==> !hasSkb
      {
        padding := padding - 1;
        i := i + 1;
      }
      SkipPadding(before, buffer[from..i]);
    }

    // One turn of the loop: start a packet if there is none, fill it as far as the input goes,
    // and see whether it is complete.
    method TakePiece(rest: seq<byte>) returns (n: nat, up: Option<Packet>, err: Option<Error>)
      requires Valid() && padding == 0 && rest != []
      modifies this
      ensures Valid() && 0 < n <= |rest|
      ensures Feed(old(View()), rest[..n]) == Out(View().(error := err), UpSeq(up))
    {
      hide Octet, Arrive;
      n, up, err := 0, None, None;
      ghost var before := View();
      if !hasSkb {
        var k := FindType(rest[0]);
        if k == |pkts| {
          RunOne(Octet, before, rest[0]);
          TypeUnknown(before, rest[0]);
          assert rest[..1] == [rest[0]];
          return 1, None, Some(EILSEQ);
        }
        hasSkb, pktType, expected, data := true, pkts[k].ptype, pkts[k].hlen, [];
        n := 1;
      }
      ghost var n0 := n;
      var len := if expected - |data| < |rest| - n then expected - |data| else |rest| - n;
      ghost var had := data;
      data := data + rest[n..n + len];
      n := n + len;
      ghost var p := Partial(pktType, expected, data);
      if n0 == 1 {
        FillFromType(before, Find(pkts, pktType).value, rest[1..n]);
        assert rest[..n] == [pktType] + rest[1..n] && data == rest[1..n];
      } else {
        Fill(before, Partial(pktType, expected, had), rest[..n]);
      }
      assert Feed(before, rest[..n]) == Arrive(before, p);
      HeldIsReplaced(before, Some(p), p);
      if |data| < expected {
        StillPartial(before, p);
        return;
      }
      up, err := Finish();
    }

    // The end of the loop body, for a packet as long as expected so far.
    method Finish() returns (up: Option<Packet>, err: Option<Error>)
      requires hasSkb && |data| == expected && padding == 0
      modifies this
      ensures Valid()
      ensures Out(View().(error := err), UpSeq(up)) == Arrive(old(View()), Partial(old(pktType), old(expected), old(data)))
    {
      up, err := None, None;
      var i := FindType(pktType);
      if i >= |pkts| {
        hasSkb := false;
        return None, Some(EILSEQ);
      }
      if |data| == pkts[i].hlen {
        var dlen: nat := 0;
        if pkts[i].lsize == 1 {
          dlen := data[pkts[i].loff];
        } else if pkts[i].lsize == 2 {
          var low: nat, high: nat := data[pkts[i].loff], data[pkts[i].loff + 1];
          dlen := low + 256 * high;
        } else if pkts[i].lsize != 0 {
          hasSkb := false;
          return None, Some(EILSEQ);
        }
        expected := expected + dlen;
        if pkts[i].capacity - |data| < dlen {
          hasSkb := false;
          return None, Some(EMSGSIZE);
        }
        if dlen == 0 {
          up := Complete();
        }
      } else {
        up := Complete();
      }
    }

    method Complete() returns (up: Option<Packet>)
      requires hasSkb && padding == 0
      modifies `padding, `hasSkb
      ensures !hasSkb && padding == Pad(alignment, |data| + 1) && up == Some(Packet(pktType, data))
    {
      padding := (|data| + 1) % alignment;
      padding := (alignment - padding) % alignment;
      up := Some(Packet(pktType, data));
      hasSkb := false;
    }
  }

  // The transmit queue of the H4 drivers; a packet is prepared in place when it is queued.
  class TxQueue {
    var txq: seq<seq<byte>>

    constructor ()
      ensures txq == []
    {
      txq := [];
    }

    // h4_enqueue
    method EnqueueH4(ptype: byte, data: seq<byte>)
      modifies this
      ensures txq == old(txq) + [Typed(Packet(ptype, data))]
    {
      var skb := [ptype] + data;
      txq := txq + [skb];
    }

    // nokia_enqueue; filling may need memory.
    method EnqueueNokia(ptype: byte, data: seq<byte>, alloc: bool) returns (ok: bool)
      modifies this
      ensures ok <==> alloc || |data| % 2 == 1
      ensures txq == if ok then old(txq) + [NokiaEncode(Packet(ptype, data))] else old(txq)
    {
      var skb := [ptype] + data;
      if |skb| % 2 == 1 {
        if !alloc {
          return false;
        }
        skb := skb + [0];
      }
      txq := txq + [skb];
      ok := true;
    }

    // h4_dequeue
    method DequeueSkb() returns (skb: Option<seq<byte>>)
      modifies this
      ensures skb.None? <==> old(txq) == []
      ensures if skb.Some? then [skb.value] + txq == old(txq) else txq == old(txq)
    {
      if txq == [] {
        return None;
      }
      skb := Some(txq[0]);
      txq := txq[1..];
    }
  }

  lemma Piece(s: seq<byte>, from: nat, to: nat)
    requires from <= to <= |s|
    ensures s[from..][..to - from] == s[from..to] && s[from..][to - from..] == s[to..]
  {}

  lemma ErrorEnds(done: seq<Packet>, st: H4State, rest: seq<byte>)
    requires st.error.Some?
    ensures Continue(Octet, done, st, rest) == Out(st, done)
  {
    hide Octet;
    FailedStays(st, rest);
  }

  lemma TypeUnknown(st: H4State, b: byte)
    requires Idle(st) && Find(st.pkts, b) == None
    ensures Octet(st, b) == Out(st.(error := Some(EILSEQ)), [])
  {}

  lemma StillPartial(st: H4State, p: Partial)
    requires |p.data| < p.expected
    ensures Arrive(st, p) == Out(st.(held := Some(p)), [])
  {}
}
