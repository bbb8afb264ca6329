// The receive side of btmtkuart: STP octets split off in place, H4 reassembly underneath.
// Source: drivers/blue8852be/btmtkuart.c, lines 428-521 and 580-581.
module StpDriver {
  import opened Bytes
  import opened Machine
  import opened Stp
  import opened H4
  import opened H4Driver

  class MtkUart {
    const pad: array<byte>
    var cursor: nat
    var dlen: nat
    const h4: Reassembler

    function StpView(): StpState
      reads this, pad
    {
      Stp(pad[..], cursor, dlen)
    }

    ghost predicate Valid()
      reads this, pad, h4
    {
      StpOk(StpView()) && h4.Valid()
    }

    // btmtkuart_open
    constructor (pkts: Table)
      ensures Valid() && fresh(pad) && fresh(h4)
      ensures Ready(StpView()) && h4.View() == H4(pkts, 1, None, 0, None)
    {
      pad := new byte[PAD_SIZE](i => 0);
      cursor, dlen := 2, 0;
      h4 := new Reassembler(pkts, 0);
    }

    // btmtkuart_send_frame on a packet; alloc says whether room for header and trailer is found.
    method SendFrame(ptype: byte, data: seq<byte>, alloc: bool) returns (skb: Option<seq<byte>>)
      ensures skb == if alloc then Some(Stp.SendFrame([ptype] + data)) else None
    {
      var h4 := [ptype] + data;
      if !alloc {
        return None;
      }
      var dlen := |h4| % 4096;
      var header: seq<byte> := [0x80, dlen / 256, dlen % 256, 0];
      FieldOf(|h4|);
      skb := Some(header + h4 + [0, 0]);
    }

    // mtk_stp_split: where the octets for H4 start, if there are any to look at, and how many.
    method Split(data: seq<byte>) returns (start: Option<nat>, szH4: nat)
      requires StpOk(StpView()) && data != []
      modifies `cursor, `dlen, pad
      ensures StpOk(StpView())
      ensures start.None? ==> Strip(old(StpView()), data) == Out(StpView(), [])
      ensures start.Some? ==>
        var n := start.value + szH4;
        && 0 < n <= |data| && Strip(old(StpView()), data[..n]) == Out(StpView(), data[start.value..n])
        && Strip(old(StpView()), data[..start.value]) == Out(StpView().(dlen := dlen + szH4), [])
        && (n < |data| ==> dlen == 0)
    {
      hide StpByte, HeaderRead, Run;
      ghost var entry: StpValid := StpView();
      if dlen == 0 && cursor >= 6 {
        cursor := 0;
      }
      ghost var s: StpValid := StpView();
      var i := Gather(data);
      if dlen == 0 && cursor >= 6 {
        ReadHeader();
      }
      ghost var t: StpValid := StpView();
      Gathered(entry, s, data, i, t);
      if i == |data| {
        assert data[..i] == data;
        return None, 0;
      }
      szH4 := if |data| - i < dlen then |data| - i else dlen;
      dlen := dlen - szH4;
      start := Some(i);
      HandedOn(entry, data, i, szH4, t);
    }

    function View(): Uart
      reads this, pad, h4
      requires StpOk(StpView())
    {
      Uart(StpView(), h4.View())
    }

    // btmtkuart_recv: ups is what is handed up, in order; an H4 error ends the buffer.
    method Recv(data: seq<byte>) returns (ups: seq<Packet>, err: Option<Error>)
      requires Valid()
      modifies this, pad, h4
      ensures Valid() && Out(View(), ups) == Receive(old(View()), data)
      ensures err == Feed(old(h4.View()), Strip(old(StpView()), data).outs).st.error
    {
      hide StpByte, Octet, Run, Receive;
      ups, err := [], None;
      var left := 0;
      ghost var u := View();
      ghost var passed: seq<byte> := [];
      NothingFed(u);
      while left < |data|
        invariant left <= |data| && Valid()
        invariant Strip(u.stp, data[..left]) == Out(StpView(), passed)
        invariant Feed(u.h4, passed) == Out(h4.View(), ups)
      {
        ghost var before: StpValid := StpView();
        var start, szH4 := Split(data[left..]);
        if start.None? {
          PieceOn(u.stp, before, data, left, |data|);
          assert data[left..][..|data| - left] == data[left..];
          assert passed + [] == passed;
          left := |data|;
          break;
        }
        var n := start.value + szH4;
        ghost var from, piece := left + start.value, data[left..][start.value..n];
        PieceOn(u.stp, before, data, left, from);
        PieceOn(u.stp, before, data, left, left + n);
        assert passed + [] == passed;
        RunAppend(Octet, u.h4, passed, piece);
        var more, e := h4.RecvBuf(data[left..][start.value..n]);
        passed := passed + piece;
        ups := ups + more;
        left := left + n;
        if e.Some? {
          ErrorStops(u, data, from, left);
          ErrorSpoils(u, data, left);
          Received(u, data, left);
          return ups, e;
        }
      }
      assert data[..left] == data;
      CleanRuns(u, data);
      Received(u, data, |data|);
    }

    // Receive buffers one after the other, whatever became of those before.
    method RecvAll(buffers: seq<seq<byte>>) returns (ups: seq<Packet>)
      requires Valid()
      modifies this, pad, h4
      ensures Valid() && Out(View(), ups) == ReceiveAll(old(View()), buffers)
    {
      hide Receive;
      ups := [];
      var i := 0;
      ghost var u := View();
      assert ups + ReceiveAll(u, buffers).outs == ReceiveAll(u, buffers).outs && buffers[i..] == buffers;
      while i < |buffers|
        invariant i <= |buffers| && Valid()
        invariant var rest := ReceiveAll(View(), buffers[i..]);
          ReceiveAll(u, buffers) == Out(rest.st, ups + rest.outs)
      {
        ghost var here := ReceiveAll(View(), buffers[i..]);
        assert buffers[i..][1..] == buffers[i + 1..];
        var more, err := Recv(buffers[i]);
        ghost var rest := ReceiveAll(View(), buffers[i + 1..]);
        assert ups + (more + rest.outs) == ups + more + rest.outs;
        ups := ups + more;
        i := i + 1;
      }
      assert buffers[i..] == [];
    }

    // The H4 packets of any STP packets, in any receive buffers.
    method RecvPackets(buffers: seq<seq<byte>>, ghost packets: seq<Packet>, ghost parts: seq<seq<byte>>,
                       ghost gs: seq<Segment>)
      returns (ups: seq<Packet>)
      requires Valid() && Ready(StpView()) && Idle(h4.View()) && EncodesAll(h4.View(), packets, parts)
      requires (forall g :: g in gs ==> g.WellFormed()) && Concat(Payloads(gs)) == Concat(parts)
      requires Concat(buffers) == Concat(Segments(gs))
      modifies this, pad, h4
      ensures Valid() && ups == packets && Ready(StpView()) && h4.View() == old(h4.View())
    {
      hide EncodesAll, Receive, ReceiveAll;
      StpCarriesH4(View(), packets, parts, gs, buffers);
      ups := RecvAll(buffers);
    }

    // The loop that fills the pad.
    method Gather(data: seq<byte>) returns (i: nat)
      requires StpOk(StpView()) && (dlen == 0 ==> cursor < PAD_SIZE)
      modifies `cursor, pad
      ensures i == (if |data| <= PAD_SIZE - old(cursor) then |data| else PAD_SIZE - old(cursor))
      ensures StpView() == Stp(PadWith(old(pad[..]), old(cursor), data[..i]), old(cursor) + i, dlen)
    {
      i := 0;
      while cursor < 6 && i < |data|
        invariant i <= |data| && old(cursor) + i == cursor <= PAD_SIZE
        invariant pad[..] == PadWith(old(pad[..]), old(cursor), data[..i])
      {
        pad[cursor] := data[i];
        cursor := cursor + 1;
        i := i + 1;
      }
    }

    // The header is in the pad: take its length, or look for the next one.
    method ReadHeader()
      requires StpOk(StpView()) && dlen == 0 && cursor == PAD_SIZE
      modifies `cursor, `dlen
      ensures StpView() == HeaderRead(old(pad[..]))
    {
      var high: nat, low: nat := pad[3], pad[4];
      dlen := high % 16 * 256 + low;
      if pad[2] != 0x80 || dlen > 2048 {
        cursor := 2;
        dlen := 0;
      }
    }
  }

  lemma FieldOf(n: nat)
    ensures n % 4096 / 256 == n / 256 % 16 && n % 4096 % 256 == n % 256
  {}

  lemma NothingFed(u: Uart)
    ensures Feed(u.h4, []) == Out(u.h4, []) && Strip(u.stp, []) == Out(u.stp, [])
  {}

  // A stretch more: the first octets of data[left..] after the first left ones.
  lemma PieceOn(stp: StpValid, mid: StpValid, data: seq<byte>, left: nat, to: nat)
    requires left <= to <= |data| && Strip(stp, data[..left]).st == mid
    ensures var more := Strip(mid, data[left..][..to - left]);
      Strip(stp, data[..to]) == Out(more.st, Strip(stp, data[..left]).outs + more.outs)
  {
    hide StpByte;
    assert data[..to] == data[..left] + data[left..][..to - left];
    RunAppend(StpByte, stp, data[..left], data[left..][..to - left]);
  }

  // What becomes of the receiver with the first i octets gathered.
  lemma Gathered(entry: StpValid, s: StpValid, data: seq<byte>, i: nat, t: StpValid)
    requires data != [] && s == Rewind(entry)
    requires i == if |data| <= PAD_SIZE - s.cursor then |data| else PAD_SIZE - s.cursor
    requires s.dlen > 0 ==> t == s
    requires s.dlen == 0 ==>
      var pad := PadWith(s.pad, s.cursor, data[..i]);
      t == if s.cursor + i == PAD_SIZE then HeaderRead(pad) else Stp(pad, s.cursor + i, 0)
    ensures Strip(entry, data[..i]) == Out(t, []) && (i == 0 ==> t.dlen > 0)
  {
    hide HeaderRead;
    if s.dlen == 0 {
      assert StpByte(entry, data[0]) == StpByte(s, data[0]);
      if s.cursor + i == PAD_SIZE {
        PadCompletes(s, data[..i]);
      } else {
        PadFills(s, data[..i]);
      }
    }
  }

  lemma HandedOn(entry: StpValid, data: seq<byte>, i: nat, n: nat, t: StpValid)
    requires i + n <= |data| && n <= t.dlen
    requires Strip(entry, data[..i]) == Out(t, [])
    ensures Strip(entry, data[..i + n]) == Out(t.(dlen := t.dlen - n), data[i..i + n])
  {
    assert data[..i + n] == data[..i] + data[i..i + n];
    RunAppend(StpByte, entry, data[..i], data[i..i + n]);
    if n > 0 {
      PayloadPasses(t, data[i..i + n]);
    }
  }

  /** Serial buffers. */

  datatype Uart = Uart(stp: StpValid, h4: H4State)

  // H4 has met an error within the first n octets.
  predicate Spoilt(u: Uart, data: seq<byte>, n: nat)
    requires n <= |data|
  {
    Feed(u.h4, Strip(u.stp, data[..n]).outs).st.error.Some?
  }

  // The driver looks for an error where a payload ends.
  predicate Stops(u: Uart, data: seq<byte>, n: nat)
    requires n <= |data|
  {
    Strip(u.stp, data[..n]).st.dlen == 0 && Spoilt(u, data, n)
  }

  // How much of a receive buffer is used.
  function Used(u: Uart, data: seq<byte>, n: nat): (r: nat)
    requires n <= |data|
    ensures n <= r <= |data|
    decreases |data| - n
  {
    if n == |data| || Stops(u, data, n) then n else Used(u, data, n + 1)
  }

  // One receive buffer: after an H4 error, the rest behind its payload is not looked at.
  function Receive(u: Uart, buffer: seq<byte>): Out<Uart, Packet> {
    var s := Strip(u.stp, buffer[..Used(u, buffer, 0)]);
    var out := Feed(u.h4, s.outs);
    Out(Uart(s.st, Recover(out.st)), out.outs)
  }

  function ReceiveAll(u: Uart, buffers: seq<seq<byte>>): Out<Uart, Packet>
    decreases |buffers|
  {
    if buffers == [] then Out(u, [])
    else
      var first := Receive(u, buffers[0]);
      var rest := ReceiveAll(first.st, buffers[1..]);
      Out(rest.st, first.outs + rest.outs)
  }

  lemma Received(u: Uart, data: seq<byte>, n: nat)
    requires n <= |data| && Used(u, data, 0) == n
    ensures var s := Strip(u.stp, data[..n]);
      var out := Feed(u.h4, s.outs);
      Receive(u, data) == Out(Uart(s.st, Recover(out.st)), out.outs)
  {
    hide StpByte, Octet, Used;
  }

  // Without an error at some place there was none before, and after one it stays.
  lemma CleanBefore(u: Uart, data: seq<byte>, m: nat, n: nat)
    requires m <= n <= |data| && Spoilt(u, data, m)
    ensures Feed(u.h4, Strip(u.stp, data[..n]).outs) == Feed(u.h4, Strip(u.stp, data[..m]).outs)
  {
    hide StpByte, Octet;
    PieceOn(u.stp, Strip(u.stp, data[..m]).st, data, m, n);
    var passed := Strip(u.stp, data[..m]);
    var more := Strip(passed.st, data[m..][..n - m]).outs;
    RunAppend(Octet, u.h4, passed.outs, more);
    FailedStays(Feed(u.h4, passed.outs).st, more);
    assert Feed(u.h4, passed.outs).outs + [] == Feed(u.h4, passed.outs).outs;
  }

  lemma ErrorSpoils(u: Uart, data: seq<byte>, n: nat)
    requires n <= |data| && Spoilt(u, data, n)
    ensures Feed(u.h4, Strip(u.stp, data).outs).st.error == Feed(u.h4, Strip(u.stp, data[..n]).outs).st.error
  {
    hide StpByte, Octet, Run;
    assert data[..|data|] == data;
    CleanBefore(u, data, n, |data|);
  }

  lemma {:induction false} FirstStop(u: Uart, data: seq<byte>, k: nat, n: nat)
    requires k <= n <= |data| && (n == |data| || Stops(u, data, n))
    requires forall m :: k <= m < n ==> !Stops(u, data, m)
    ensures Used(u, data, k) == n
    decreases n - k
  {
    hide Stops;
    if k < n {
      FirstStop(u, data, k + 1, n);
    }
  }

  lemma CleanRuns(u: Uart, data: seq<byte>)
    requires !Spoilt(u, data, |data|)
    ensures Used(u, data, 0) == |data|
  {
    hide StpByte, Octet, Run;
    forall m | 0 <= m < |data|
      ensures !Stops(u, data, m)
    {
      if Spoilt(u, data, m) {
        CleanBefore(u, data, m, |data|);
      }
    }
    FirstStop(u, data, 0, |data|);
  }

  // The payload that starts at from brings the error, and is the last one used.
  lemma ErrorStops(u: Uart, data: seq<byte>, from: nat, n: nat)
    requires from <= n <= |data| && !Spoilt(u, data, from) && Spoilt(u, data, n)
    requires n - from <= Strip(u.stp, data[..from]).st.dlen
    requires n < |data| ==> Strip(u.stp, data[..n]).st.dlen == 0
    ensures Used(u, data, 0) == n
  {
    hide StpByte, Octet, Run;
    forall m | 0 <= m < n
      ensures !Stops(u, data, m)
    {
      if m <= from {
        if Spoilt(u, data, m) {
          CleanBefore(u, data, m, from);
        }
      } else {
        var mid := Strip(u.stp, data[..from]).st;
        PieceOn(u.stp, mid, data, from, m);
        PayloadPasses(mid, data[from..][..m - from]);
      }
    }
    FirstStop(u, data, 0, n);
  }

  // A stream whose H4 part is free of errors, in one piece.
  function Whole(u: Uart, data: seq<byte>): Out<Uart, Packet> {
    var s := Strip(u.stp, data);
    var out := Feed(u.h4, s.outs);
    Out(Uart(s.st, out.st), out.outs)
  }

  lemma CleanIsWhole(u: Uart, data: seq<byte>)
    requires Whole(u, data).st.h4.error.None?
    ensures Receive(u, data) == Whole(u, data)
  {
    hide StpByte, Octet, Run;
    assert data[..|data|] == data;
    CleanRuns(u, data);
    Received(u, data, |data|);
  }

  lemma WholeAppend(u: Uart, a: seq<byte>, b: seq<byte>)
    ensures var first := Whole(u, a);
      var rest := Whole(first.st, b);
      Whole(u, a + b) == Out(rest.st, first.outs + rest.outs)
  {
    hide StpByte, Octet;
    RunAppend(StpByte, u.stp, a, b);
    RunAppend(Octet, u.h4, Strip(u.stp, a).outs, Strip(Strip(u.stp, a).st, b).outs);
  }

  // However a stream without H4 errors is cut into receive buffers, the packets handed up and the
  // state left are those of the stream in one piece.
  lemma {:induction false} BuffersAreOne(u: Uart, buffers: seq<seq<byte>>)
    requires u.h4.error.None? && Whole(u, Concat(buffers)).st.h4.error.None?
    ensures ReceiveAll(u, buffers) == Whole(u, Concat(buffers))
    decreases |buffers|
  {
    hide StpByte, Octet, Run, Receive;
    if buffers == [] {
      NothingFed(u);
    } else {
      var more := Concat(buffers[1..]);
      WholeAppend(u, buffers[0], more);
      var first := Whole(u, buffers[0]);
      if first.st.h4.error.Some? {
        FailedStays(first.st.h4, Strip(first.st.stp, more).outs);
      }
      CleanIsWhole(u, buffers[0]);
      BuffersAreOne(first.st, buffers[1..]);
    }
  }

  // However an H4 stream is cut into STP packets, and however those are cut into receive
  // buffers, exactly the original H4 packets come out, in order, and nothing is left over.
  lemma StpCarriesH4(u: Uart, packets: seq<Packet>, parts: seq<seq<byte>>, gs: seq<Segment>, buffers: seq<seq<byte>>)
    requires Ready(u.stp) && Idle(u.h4) && EncodesAll(u.h4, packets, parts)
    requires (forall g :: g in gs ==> g.WellFormed()) && Concat(Payloads(gs)) == Concat(parts)
    requires Concat(buffers) == Concat(Segments(gs))
    ensures var out := ReceiveAll(u, buffers);
      out.outs == packets && Ready(out.st.stp) && out.st.h4 == u.h4
  {
    hide StpByte, Octet, EncodesAll, Idle, Run, ReceiveAll, Concat, Segments, Payloads;
    SegmentsIn(u.stp, gs);
    StreamIn(u.h4, packets, parts);
    IdleIsClean(u.h4);
    BuffersAreOne(u, buffers);
  }
}
