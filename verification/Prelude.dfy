/** Definitions shared by every module. */
module Prelude {
  datatype Option<+T> = None | Some(value: T)

  datatype Result<+T, +E> = Ok(value: T) | Err(error: E)

  function Min(a: int, b: int): int { if a < b then a else b }

  function Max(a: int, b: int): int { if a < b then b else a }

  /** The concatenation of f over a sequence. */
  function FlatMap<A, T>(xs: seq<A>, f: A -> seq<T>): seq<T> {
    if xs == [] then [] else FlatMap(xs[..|xs| - 1], f) + f(xs[|xs| - 1])
  }

  lemma FlatMapSnoc<A, T>(xs: seq<A>, x: A, f: A -> seq<T>)
    ensures FlatMap(xs + [x], f) == FlatMap(xs, f) + f(x)
  {
    assert (xs + [x])[..|xs|] == xs;
  }

  lemma FlatMapOne<A, T>(x: A, f: A -> seq<T>)
    ensures FlatMap([x], f) == f(x) && FlatMap([], f) == []
  {
    assert [x][..0] == [];
  }

  lemma {:induction false} FlatMapAppend<A, T>(a: seq<A>, b: seq<A>, f: A -> seq<T>)
    ensures FlatMap(a + b, f) == FlatMap(a, f) + FlatMap(b, f)
  {
    if b == [] {
      assert a + b == a;
    } else {
      FlatMapAppend(a, b[..|b| - 1], f);
      AppendSnoc(a, b[..|b| - 1], b[|b| - 1], f);
      assert b == b[..|b| - 1] + [b[|b| - 1]];
    }
  }

  lemma AppendSnoc<A, T>(a: seq<A>, init: seq<A>, last: A, f: A -> seq<T>)
    requires FlatMap(a + init, f) == FlatMap(a, f) + FlatMap(init, f)
    ensures FlatMap(a + (init + [last]), f) == FlatMap(a, f) + FlatMap(init + [last], f)
  {
    hide FlatMap;
    FlatMapSnoc(a + init, last, f);
    FlatMapSnoc(init, last, f);
    assert a + (init + [last]) == (a + init) + [last];
  }

  lemma SplitAt<A>(xs: seq<A>, at: nat)
    requires at < |xs|
    ensures xs[..at] + [xs[at]] + xs[at + 1..] == xs
  {
  }

  lemma FlatMapSplit<A, T>(xs: seq<A>, at: nat, f: A -> seq<T>)
    requires at < |xs|
    ensures FlatMap(xs, f) == FlatMap(xs[..at], f) + f(xs[at]) + FlatMap(xs[at + 1..], f)
  {
    hide FlatMap;
    var left, right := xs[..at] + [xs[at]], xs[at + 1..];
    FlatMapSnoc(xs[..at], xs[at], f);
    FlatMapAppend(left, right, f);
    SplitAt(xs, at);
  }

  lemma {:induction false} FlatMapNothing<A, T>(xs: seq<A>, f: A -> seq<T>)
    requires forall k :: 0 <= k < |xs| ==> f(xs[k]) == []
    ensures FlatMap(xs, f) == []
  {
    if xs != [] {
      FlatMapNothing(xs[..|xs| - 1], f);
    }
  }

  lemma {:induction false} FlatMapSomething<A, T>(xs: seq<A>, f: A -> seq<T>, k: nat)
    requires k < |xs| && f(xs[k]) != []
    ensures FlatMap(xs, f) != []
  {
    if k < |xs| - 1 {
      FlatMapSomething(xs[..|xs| - 1], f, k);
    }
  }
}
