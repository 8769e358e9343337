/** Order-preserving filtering and mapping over sequences, the
    `Array.prototype.filter` / `Array.prototype.map` the views are built from. */
module Seqs {

  /** The elements of `xs` that satisfy `p`, in their original order and
      with their multiplicity: an order-preserving subsequence that keeps
      every occurrence of a passing element and no occurrence of a failing
      one. */
  function Filter<T(!new)>(xs: seq<T>, p: T -> bool): (r: seq<T>)
    ensures |r| <= |xs|
    ensures IsSubsequence(r, xs)
    ensures forall x :: multiset(r)[x] == if p(x) then multiset(xs)[x] else 0
    ensures forall x :: x in r <==> x in xs && p(x)
    ensures forall i :: 0 <= i < |r| ==> p(r[i])
    decreases |xs|
  {
    if |xs| == 0 then []
    else
      var rest := Filter(xs[1..], p);
      assert xs == [xs[0]] + xs[1..];
      if p(xs[0]) then
        var r := [xs[0]] + rest;
        assert r[0] == xs[0] && r[1..] == rest;
        r
      else rest
  }

  /** `xs` can be obtained from `ys` by deleting elements, without reordering. */
  ghost predicate IsSubsequence<T>(xs: seq<T>, ys: seq<T>)
    decreases |ys|
  {
    || |xs| == 0
    || (&& |ys| > 0
        && ((xs[0] == ys[0] && IsSubsequence(xs[1..], ys[1..])) || IsSubsequence(xs, ys[1..])))
  }

  /** The image of `xs` under `f`, element by element. */
  function Map<T, U>(xs: seq<T>, f: T -> U): (r: seq<U>)
    ensures |r| == |xs|
    ensures forall i :: 0 <= i < |xs| ==> r[i] == f(xs[i])
  {
    if |xs| == 0 then [] else [f(xs[0])] + Map(xs[1..], f)
  }

  /** When every element passes, filtering changes nothing. */
  lemma {:induction false} FilterAll<T(!new)>(xs: seq<T>, p: T -> bool)
    requires forall i :: 0 <= i < |xs| ==> p(xs[i])
    ensures Filter(xs, p) == xs
    decreases |xs|
  {
    if |xs| > 0 {
      FilterAll(xs[1..], p);
    }
  }

  lemma AppendAssoc<T>(a: seq<T>, b: seq<T>, c: seq<T>)
    ensures a + (b + c) == (a + b) + c
  {
  }
}
