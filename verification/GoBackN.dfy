// The sliding window that BCSP and Three-wire (H5) share: sequence numbers modulo 8, the count
// an acknowledgement releases, and the invariant on absolute (unbounded) numbers that keeps
// the modular ones unambiguous.
// Source: drivers/blue8852be/hci_bcsp.c, lines 347-391; drivers/blue8852be/hci_h5.c, lines 284-324.
module GoBackN {
  import opened Bytes

  type Seq8 = n: nat | n < 8

  // The next number, and the one before.
  function Next(s: Seq8): Seq8 { (s + 1) % 8 }

  function Previous(s: Seq8): Seq8 { (s + 7) % 8 }

  // How far the acknowledged point lies behind the next number to send.
  function Behind(txseq: Seq8, ack: Seq8): nat { (txseq - ack) % 8 }

  // How many of n outstanding packets an acknowledgement releases.
  function CullCount(n: nat, txseq: Seq8, ack: Seq8): (r: nat)
    ensures r <= n
  {
    if Behind(txseq, ack) <= n then n - Behind(txseq, ack) else 0
  }

  // The acknowledgement names the boundary just after the p oldest of n outstanding packets.
  predicate AckPoint(n: nat, txseq: Seq8, ack: Seq8, p: nat) {
    p <= n && (txseq - (n - p)) % 8 == ack
  }

  lemma AckPointIsBehind(n: nat, txseq: Seq8, ack: Seq8, p: nat)
    requires n <= 7 && p <= n
    ensures AckPoint(n, txseq, ack, p) <==> n - p == Behind(txseq, ack)
  {
    var d := n - p;
    assert (txseq - d) % 8 == if txseq >= d then txseq - d else txseq - d + 8;
    assert Behind(txseq, ack) == if txseq >= ack then txseq - ack else txseq - ack + 8;
  }

  // With at most seven outstanding, exactly the packets below the acknowledged boundary are
  // released, the boundary is unique, and an acknowledgement naming none releases nothing.
  lemma CullIsExact(n: nat, txseq: Seq8, ack: Seq8)
    requires n <= 7
    ensures forall p: nat :: AckPoint(n, txseq, ack, p) ==> CullCount(n, txseq, ack) == p
    ensures (forall p: nat :: !AckPoint(n, txseq, ack, p)) ==> CullCount(n, txseq, ack) == 0
  {
    forall p: nat | AckPoint(n, txseq, ack, p)
      ensures CullCount(n, txseq, ack) == p
    {
      AckPointIsBehind(n, txseq, ack, p);
    }
    var b := Behind(txseq, ack);
    if b <= n {
      AckPointIsBehind(n, txseq, ack, n - b);
      assert AckPoint(n, txseq, ack, n - b);
    }
  }

  /** The backward walk over the outstanding packets, one number at a time. */

  lemma StepBack(txseq: Seq8, d: nat)
    ensures Previous((txseq - d) % 8) == (txseq - (d + 1)) % 8
  {}

  lemma StillBehind(txseq: Seq8, ack: Seq8, d: nat)
    requires d <= Behind(txseq, ack) && (txseq - d) % 8 != ack
    ensures d + 1 <= Behind(txseq, ack)
  {
    ReachedBehind(txseq, ack);
  }

  lemma ReachedBehind(txseq: Seq8, ack: Seq8)
    ensures (txseq - Behind(txseq, ack)) % 8 == ack
  {}

  lemma ReachedAck(txseq: Seq8, ack: Seq8, d: nat)
    requires d <= Behind(txseq, ack) && (txseq - d) % 8 == ack
    ensures d == Behind(txseq, ack)
  {
    AckPointIsBehind(d, txseq, ack, 0);
  }

  /** Absolute numbers. */

  // A frame on its way. If it is reliable, k is the absolute index of the message msg it
  // carries; a is the absolute number of messages its sender had accepted.
  datatype Flight<+F, +M> = Flight(frame: F, msg: M, rel: bool, k: nat, a: nat)

  // One direction: N packets submitted, c released by acknowledgements, R accepted by the
  // receiver; fwd carries the packets, bwd their acknowledgements.
  ghost predicate Direction<F, M>(W: nat, N: nat, c: nat, R: nat, fwd: seq<Flight<F, M>>, bwd: seq<Flight<F, M>>) {
    && c <= R <= c + W && R <= N
    && (forall i :: 0 <= i < |fwd| && fwd[i].rel ==> fwd[i].k < N && fwd[i].k < c + W && R <= fwd[i].k + W)
    && (forall i, j :: 0 <= i < j < |fwd| && fwd[i].rel && fwd[j].rel ==> fwd[i].k < fwd[j].k + W)
    && (forall i :: 0 <= i < |bwd| ==> c <= bwd[i].a <= R)
    && (forall i, j :: 0 <= i < j < |bwd| ==> bwd[i].a <= bwd[j].a)
  }

  // The whole point: inside the window a number modulo 8 names one absolute number only.
  lemma NumberIsUnambiguous(W: nat, k: nat, R: nat)
    requires W <= 7 && R <= k + W && k <= R + W
    ensures k % 8 == R % 8 <==> k == R
  {}

  lemma CullIsAbsolute(W: nat, c: nat, n: nat, a: nat)
    requires W <= 7 && n <= W && c <= a <= c + W
    ensures CullCount(n, (c + n) % 8, a % 8) == if a <= c + n then a - c else 0
  {
    DifferenceModulo(c + n, a);
  }

  lemma DifferenceModulo(x: nat, y: nat)
    requires -7 <= x - y <= 7
    ensures (x % 8 - y % 8) % 8 == if x >= y then x - y else x - y + 8
  {
    var q := x / 8 - y / 8;
    assert x - y == 8 * q + (x % 8 - y % 8);
    assert -1 <= q <= 1;
  }

  lemma SendKeeps<F, M>(W: nat, N: nat, c: nat, R: nat, fwd: seq<Flight<F, M>>, bwd: seq<Flight<F, M>>, fl: Flight<F, M>)
    requires Direction(W, N, c, R, fwd, bwd)
    requires fl.rel ==> c <= fl.k < c + W && fl.k < N
    ensures Direction(W, N, c, R, fwd + [fl], bwd)
  {}

  lemma AnswerKeeps<F, M>(W: nat, N: nat, c: nat, R: nat, fwd: seq<Flight<F, M>>, bwd: seq<Flight<F, M>>, fl: Flight<F, M>)
    requires Direction(W, N, c, R, fwd, bwd) && fl.a == R
    ensures Direction(W, N, c, R, fwd, bwd + [fl])
  {}

  lemma AcceptKeeps<F, M>(W: nat, N: nat, c: nat, R: nat, fwd: seq<Flight<F, M>>, bwd: seq<Flight<F, M>>)
    requires Direction(W, N, c, R, fwd, bwd) && fwd != []
    ensures Direction(W, N, c, R, fwd[1..], bwd)
    ensures fwd[0].rel && fwd[0].k == R ==> Direction(W, N, c, R + 1, fwd[1..], bwd)
  {}

  lemma AckKeeps<F, M>(W: nat, N: nat, c: nat, R: nat, fwd: seq<Flight<F, M>>, bwd: seq<Flight<F, M>>)
    requires Direction(W, N, c, R, fwd, bwd) && bwd != []
    ensures Direction(W, N, c, R, fwd, bwd[1..])
    ensures Direction(W, N, bwd[0].a, R, fwd, bwd[1..])
  {}

  lemma LossKeeps<F, M>(W: nat, N: nat, c: nat, R: nat, fwd: seq<Flight<F, M>>, bwd: seq<Flight<F, M>>, i: nat)
    requires Direction(W, N, c, R, fwd, bwd)
    ensures i < |fwd| ==> Direction(W, N, c, R, Without(fwd, i), bwd)
    ensures i < |bwd| ==> Direction(W, N, c, R, fwd, Without(bwd, i))
  {}

  /** Queues: u is outstanding and v waiting, together the part of s from c on. */

  lemma MoveOne<T>(u: seq<T>, v: seq<T>, s: seq<T>, c: nat)
    requires c <= |s| && u + v == s[c..] && v != []
    ensures c + |u| < |s| && u + [v[0]] + v[1..] == s[c..] && v[0] == s[c + |u|]
  {
    assert (u + v)[|u|] == v[0];
    assert u + [v[0]] + v[1..] == u + v;
  }

  lemma DropMore<T>(u: seq<T>, v: seq<T>, s: seq<T>, c: nat, r: nat)
    requires c <= |s| && u + v == s[c..] && r <= |u|
    ensures c + r <= |s| && u[r..] + v == s[c + r..]
  {
    assert |u + v| == |s| - c;
    assert (u + v)[r..] == u[r..] + v;
  }

  /** Contents. */

  // One direction with its messages: everything accepted is a prefix of what was submitted,
  // and a reliable frame carries the message of its index.
  ghost predicate Stream<F, M>(W: nat, sent: seq<M>, c: nat, accepted: seq<M>,
                               fwd: seq<Flight<F, M>>, bwd: seq<Flight<F, M>>) {
    && Direction(W, |sent|, c, |accepted|, fwd, bwd)
    && accepted <= sent
    && forall i :: 0 <= i < |fwd| && fwd[i].rel ==> fwd[i].msg == sent[fwd[i].k]
  }

  lemma StreamSubmit<F, M>(W: nat, sent: seq<M>, c: nat, accepted: seq<M>,
                           fwd: seq<Flight<F, M>>, bwd: seq<Flight<F, M>>, more: seq<M>)
    requires Stream(W, sent, c, accepted, fwd, bwd)
    ensures Stream(W, sent + more, c, accepted, fwd, bwd)
  {}

  lemma StreamSend<F, M>(W: nat, sent: seq<M>, c: nat, accepted: seq<M>,
                         fwd: seq<Flight<F, M>>, bwd: seq<Flight<F, M>>, fl: Flight<F, M>)
    requires Stream(W, sent, c, accepted, fwd, bwd)
    requires fl.rel ==> c <= fl.k < c + W && fl.k < |sent| && fl.msg == sent[fl.k]
    ensures Stream(W, sent, c, accepted, fwd + [fl], bwd)
  {
    SendKeeps(W, |sent|, c, |accepted|, fwd, bwd, fl);
    hide Direction;
  }

  lemma StreamAnswer<F, M>(W: nat, sent: seq<M>, c: nat, accepted: seq<M>,
                           fwd: seq<Flight<F, M>>, bwd: seq<Flight<F, M>>, fl: Flight<F, M>)
    requires Stream(W, sent, c, accepted, fwd, bwd) && fl.a == |accepted|
    ensures Stream(W, sent, c, accepted, fwd, bwd + [fl])
  {
    AnswerKeeps(W, |sent|, c, |accepted|, fwd, bwd, fl);
    hide Direction;
  }

  // The receiver takes the first frame and accepts its message exactly if the index is the
  // one it expects.
  lemma StreamAccept<F, M>(W: nat, sent: seq<M>, c: nat, accepted: seq<M>,
                           fwd: seq<Flight<F, M>>, bwd: seq<Flight<F, M>>)
    requires Stream(W, sent, c, accepted, fwd, bwd) && fwd != []
    ensures var fl := fwd[0];
      Stream(W, sent, c, if fl.rel && fl.k == |accepted| then accepted + [fl.msg] else accepted, fwd[1..], bwd)
  {
    AcceptKeeps(W, |sent|, c, |accepted|, fwd, bwd);
    if fwd[0].rel && fwd[0].k == |accepted| {
      assert fwd[0].msg == sent[|accepted|] by { assert Direction(W, |sent|, c, |accepted|, fwd, bwd); }
    }
    hide Direction;
  }

  // The receiver takes the first frame and passes its message over.
  lemma StreamPass<F, M>(W: nat, sent: seq<M>, c: nat, accepted: seq<M>,
                         fwd: seq<Flight<F, M>>, bwd: seq<Flight<F, M>>)
    requires Stream(W, sent, c, accepted, fwd, bwd) && fwd != []
    ensures Stream(W, sent, c, accepted, fwd[1..], bwd)
  {
    AcceptKeeps(W, |sent|, c, |accepted|, fwd, bwd);
    hide Direction;
  }

  // The sender takes the first acknowledgement, and may release up to what it says.
  lemma StreamAck<F, M>(W: nat, sent: seq<M>, c: nat, accepted: seq<M>,
                        fwd: seq<Flight<F, M>>, bwd: seq<Flight<F, M>>, released: nat)
    requires Stream(W, sent, c, accepted, fwd, bwd) && bwd != [] && released in {c, bwd[0].a}
    ensures Stream(W, sent, released, accepted, fwd, bwd[1..])
  {
    AckKeeps(W, |sent|, c, |accepted|, fwd, bwd);
    hide Direction;
  }

  lemma StreamLose<F, M>(W: nat, sent: seq<M>, c: nat, accepted: seq<M>,
                         fwd: seq<Flight<F, M>>, bwd: seq<Flight<F, M>>, i: nat)
    requires Stream(W, sent, c, accepted, fwd, bwd)
    ensures i < |fwd| ==> Stream(W, sent, c, accepted, Without(fwd, i), bwd)
    ensures i < |bwd| ==> Stream(W, sent, c, accepted, fwd, Without(bwd, i))
  {
    LossKeeps(W, |sent|, c, |accepted|, fwd, bwd, i);
    hide Direction;
  }

  // What the first frame can say, in a direction fwd with acknowledgements of the other,
  // whose sender has n outstanding and c released.
  lemma FirstFrame<F, M>(W: nat, sent: seq<M>, c: nat, accepted: seq<M>,
                         fwd: seq<Flight<F, M>>, bwd: seq<Flight<F, M>>)
    requires Stream(W, sent, c, accepted, fwd, bwd)
    ensures fwd != [] && fwd[0].rel ==> |accepted| <= fwd[0].k + W && fwd[0].k <= |accepted| + W
    ensures bwd != [] ==> c <= bwd[0].a <= c + W && bwd[0].a <= |sent|
  {}
}
