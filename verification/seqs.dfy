/** Sequence utilities shared by the cleaner and the label analysis. */
module Seqs {

  /** `f` applied to each element in turn, the results concatenated. */
  function FlatMap<T, U>(f: T -> seq<U>, xs: seq<T>): seq<U>
    decreases |xs|
  {
    if xs == [] then [] else f(xs[0]) + FlatMap(f, xs[1..])
  }

  lemma {:induction false} FlatMapAppend<T, U>(f: T -> seq<U>, a: seq<T>, b: seq<T>)
    ensures FlatMap(f, a + b) == FlatMap(f, a) + FlatMap(f, b)
    decreases |a|
  {
    if a == [] {
      assert a + b == b;
    } else {
      assert (a + b)[0] == a[0] && (a + b)[1..] == a[1..] + b;
      FlatMapAppend(f, a[1..], b);
      assert f(a[0]) + (FlatMap(f, a[1..]) + FlatMap(f, b)) == (f(a[0]) + FlatMap(f, a[1..])) + FlatMap(f, b);
    }
  }

  /** A sequence that starts with `a + b` continues after `a` with `b`. */
  lemma PrefixSplit<T>(a: seq<T>, b: seq<T>, xs: seq<T>)
    requires a + b <= xs
    ensures xs[|a|..] == b + xs[|a + b|..]
  {
    assert xs == a + b + xs[|a + b|..];
  }
}
