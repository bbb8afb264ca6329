// Octets, and the seq<byte> helpers the layers share.
module Bytes {
  type byte = x: int | 0 <= x < 256

  datatype Option<+T> = None | Some(value: T)

  // The concatenation of a sequence of sequences, in order.
  function Concat<T>(parts: seq<seq<T>>): seq<T> {
    if parts == [] then [] else parts[0] + Concat(parts[1..])
  }

  function Without<T>(s: seq<T>, i: nat): seq<T>
    requires i < |s|
  {
    s[..i] + s[i + 1..]
  }

  lemma ConcatAppend<T>(parts: seq<seq<T>>, more: seq<seq<T>>)
    ensures Concat(parts + more) == Concat(parts) + Concat(more)
  {
    if parts == [] {
      assert parts + more == more;
    } else {
      ConcatAppend(parts[1..], more);
      assert (parts + more)[1..] == parts[1..] + more;
    }
  }

  lemma ConcatSnoc<T>(parts: seq<seq<T>>, last: seq<T>)
    ensures Concat(parts + [last]) == Concat(parts) + last
  {
    ConcatAppend(parts, [last]);
    assert Concat([last]) == last + Concat([last][1..]) == last + [];
  }

  // x is what is left of y when some of its elements are struck out.
  predicate Sub<T(==)>(x: seq<T>, y: seq<T>)
    decreases |y|
  {
    if x == [] then true
    else if y == [] then false
    else (x[0] == y[0] && Sub(x[1..], y[1..])) || Sub(x, y[1..])
  }

  lemma {:induction false} SubSnoc<T>(x: seq<T>, y: seq<T>, d: T)
    requires Sub(x, y)
    ensures Sub(x + [d], y + [d])
    decreases |y|
  {
    if y == [] {
      assert x + [d] == [d] && y + [d] == [d] && [d][1..] == [];
    } else if x != [] && x[0] == y[0] && Sub(x[1..], y[1..]) {
      SubSnoc(x[1..], y[1..], d);
      assert (x + [d])[1..] == x[1..] + [d] && (y + [d])[1..] == y[1..] + [d];
    } else {
      SubSnoc(x, y[1..], d);
      assert (y + [d])[1..] == y[1..] + [d];
    }
  }

  lemma {:induction false} SubWithout<T>(x: seq<T>, y: seq<T>, i: nat)
    requires Sub(x, y) && i < |x|
    ensures Sub(Without(x, i), y)
    decreases |y|
  {
    if x[0] == y[0] && Sub(x[1..], y[1..]) {
      if i == 0 {
        assert Without(x, 0) == x[1..];
      } else {
        SubWithout(x[1..], y[1..], i - 1);
        assert Without(x, i)[0] == x[0] && Without(x, i)[1..] == Without(x[1..], i - 1);
      }
    } else {
      SubWithout(x, y[1..], i);
    }
  }

  lemma {:induction false} StrikeOut<T>(x: seq<T>, m: seq<T>, y: seq<T>, all: seq<T>)
    requires Sub(x + m + y, all)
    ensures Sub(x + y, all)
    decreases |m|
  {
    hide Sub;
    if m == [] {
      assert x + m + y == x + y;
    } else {
      SubWithout(x + m + y, all, |x|);
      assert Without(x + m + y, |x|) == x + m[1..] + y;
      StrikeOut(x, m[1..], y, all);
    }
  }
}
