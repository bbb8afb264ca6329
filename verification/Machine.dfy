// Machines that take one input at a time, and what a stretch of input makes them do.
module Machine {
  import opened Bytes

  datatype Out<+S, +O> = Out(st: S, outs: seq<O>)

  function Run<S, I, O>(step: (S, I) -> Out<S, O>, st: S, input: seq<I>): Out<S, O>
    decreases |input|
  {
    if input == [] then Out(st, [])
    else
      var first := step(st, input[0]);
      var rest := Run(step, first.st, input[1..]);
      Out(rest.st, first.outs + rest.outs)
  }

  // The same input handed over in pieces, each starting where the last one stopped.
  function RunChunks<S, I, O>(step: (S, I) -> Out<S, O>, st: S, chunks: seq<seq<I>>): Out<S, O>
    decreases |chunks|
  {
    if chunks == [] then Out(st, [])
    else
      var first := Run(step, st, chunks[0]);
      var rest := RunChunks(step, first.st, chunks[1..]);
      Out(rest.st, first.outs + rest.outs)
  }

  lemma {:induction false} RunAppend<S, I, O>(step: (S, I) -> Out<S, O>, st: S, a: seq<I>, b: seq<I>)
    ensures var ra := Run(step, st, a);
      var rb := Run(step, ra.st, b);
      Run(step, st, a + b) == Out(rb.st, ra.outs + rb.outs)
    decreases |a|
  {
    if a == [] {
      assert a + b == b;
    } else {
      RunAppend(step, step(st, a[0]).st, a[1..], b);
      assert (a + b)[1..] == a[1..] + b;
    }
  }

  lemma RunOne<S, I, O>(step: (S, I) -> Out<S, O>, st: S, x: I)
    ensures Run(step, st, [x]) == step(st, x)
  {
    assert [x][1..] == [];
  }

  // However the input is cut, the state reached and the outputs are those of one piece.
  lemma {:induction false} ChunksAreOneStretch<S, I, O>(
    step: (S, I) -> Out<S, O>, st: S, chunks: seq<seq<I>>)
    ensures RunChunks(step, st, chunks) == Run(step, st, Concat(chunks))
    decreases |chunks|
  {
    if chunks != [] {
      var first := Run(step, st, chunks[0]);
      ChunksAreOneStretch(step, first.st, chunks[1..]);
      RunAppend(step, st, chunks[0], Concat(chunks[1..]));
    }
  }

  /** Following a run from the middle: what is out already, and what the rest will add. */

  function Continue<S, I, O>(step: (S, I) -> Out<S, O>, done: seq<O>, st: S, rest: seq<I>): Out<S, O> {
    var out := Run(step, st, rest);
    Out(out.st, done + out.outs)
  }

  lemma Advance<S, I, O>(step: (S, I) -> Out<S, O>, done: seq<O>, st: S, rest: seq<I>)
    requires rest != []
    ensures var first := step(st, rest[0]);
      Continue(step, done, st, rest) == Continue(step, done + first.outs, first.st, rest[1..])
  {
    var first := step(st, rest[0]);
    var later := Run(step, first.st, rest[1..]);
    assert done + (first.outs + later.outs) == done + first.outs + later.outs;
  }

  lemma Begin<S, I, O>(step: (S, I) -> Out<S, O>, st: S, input: seq<I>)
    ensures Continue(step, [], st, input) == Run(step, st, input)
  {
    assert [] + Run(step, st, input).outs == Run(step, st, input).outs;
  }

  lemma End<S, I, O>(step: (S, I) -> Out<S, O>, done: seq<O>, st: S)
    ensures Continue(step, done, st, []) == Out(st, done)
  {
    assert done + [] == done;
  }

  // The same over the first n inputs at once.
  lemma Leap<S, I, O>(step: (S, I) -> Out<S, O>, done: seq<O>, st: S, rest: seq<I>, n: nat)
    requires n <= |rest|
    ensures var first := Run(step, st, rest[..n]);
      Continue(step, done, st, rest) == Continue(step, done + first.outs, first.st, rest[n..])
  {
    var first := Run(step, st, rest[..n]);
    var later := Run(step, first.st, rest[n..]);
    RunAppend(step, st, rest[..n], rest[n..]);
    assert rest == rest[..n] + rest[n..];
    assert done + (first.outs + later.outs) == done + first.outs + later.outs;
  }

  // A state may be swapped for one that reacts alike, after what it puts out first.
  lemma Shift<S, I, O>(step: (S, I) -> Out<S, O>, done: seq<O>, st: S, rest: seq<I>, st2: S, more: seq<O>)
    requires rest != []
    requires step(st, rest[0]) == Out(step(st2, rest[0]).st, more + step(st2, rest[0]).outs)
    ensures Continue(step, done, st, rest) == Continue(step, done + more, st2, rest)
  {
    Advance(step, done, st, rest);
    Advance(step, done + more, st2, rest);
    assert done + (more + step(st2, rest[0]).outs) == done + more + step(st2, rest[0]).outs;
  }
}
