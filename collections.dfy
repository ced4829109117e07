/** Order-preserving filters over sequences: the model of a Python list comprehension `[x for x in xs if p(x)]`. */
module Collections {

  /** `sub` can be obtained from `xs` by deleting elements, keeping the order of the rest. */
  ghost predicate IsSubsequence<T(!new)>(sub: seq<T>, xs: seq<T>)
    decreases |xs|
  {
    if sub == [] then true
    else if xs == [] then false
    else if sub[0] == xs[0] then IsSubsequence(sub[1..], xs[1..])
    else IsSubsequence(sub, xs[1..])
  }

  lemma {:induction false} SubsequenceReflexive<T(!new)>(xs: seq<T>)
    ensures IsSubsequence(xs, xs)
  {
    if xs != [] {
      SubsequenceReflexive(xs[1..]);
    }
  }

  function Filter<T(!new)>(xs: seq<T>, p: T -> bool): (r: seq<T>)
    ensures |r| <= |xs|
    ensures forall x :: x in r <==> x in xs && p(x)
    ensures IsSubsequence(r, xs)
  {
    if xs == [] then []
    else if p(xs[0]) then [xs[0]] + Filter(xs[1..], p)
    else Filter(xs[1..], p)
  }

  /** A filter keeps every occurrence of a kept element and none of the others: duplicates survive as often as they occur. */
  lemma {:induction false} FilterCounts<T(!new)>(xs: seq<T>, p: T -> bool)
    ensures forall x :: multiset(Filter(xs, p))[x] == if p(x) then multiset(xs)[x] else 0
  {
    if xs != [] {
      assert xs == [xs[0]] + xs[1..];
      FilterCounts(xs[1..], p);
    }
  }

  /** Filtering distributes over concatenation, which is why a loop can build the result one element at a time. */
  lemma {:induction false} FilterAppend<T(!new)>(xs: seq<T>, ys: seq<T>, p: T -> bool)
    ensures Filter(xs + ys, p) == Filter(xs, p) + Filter(ys, p)
  {
    if xs == [] {
      assert xs + ys == ys;
    } else {
      assert (xs + ys)[1..] == xs[1..] + ys;
      FilterAppend(xs[1..], ys, p);
    }
  }

  lemma FilterSnoc<T(!new)>(xs: seq<T>, x: T, p: T -> bool)
    ensures Filter(xs + [x], p) == Filter(xs, p) + (if p(x) then [x] else [])
  {
    FilterAppend(xs, [x], p);
  }

  /** Replacing one element changes the number of kept elements by at most what that element contributes. */
  lemma {:induction false} FilterLengthUpdate<T(!new)>(xs: seq<T>, i: nat, y: T, p: T -> bool)
    requires i < |xs|
    ensures |Filter(xs[i := y], p)| == |Filter(xs, p)| - (if p(xs[i]) then 1 else 0) + (if p(y) then 1 else 0)
  {
    if i > 0 {
      assert xs[i := y][1..] == xs[1..][i - 1 := y];
      FilterLengthUpdate(xs[1..], i - 1, y, p);
    }
  }

  /** The first `n` elements of `xs` (Python's `xs[:n]`, which never fails). */
  function Take<T(!new)>(xs: seq<T>, n: nat): (r: seq<T>)
    ensures |r| == if n < |xs| then n else |xs|
    ensures r <= xs
  {
    if n < |xs| then xs[..n] else xs
  }

  /** A filter depends only on which elements its predicate keeps. */
  lemma {:induction false} FilterExtensional<T(!new)>(xs: seq<T>, p: T -> bool, q: T -> bool)
    requires forall x :: x in xs ==> p(x) == q(x)
    ensures Filter(xs, p) == Filter(xs, q)
  {
    if xs != [] {
      assert forall x :: x in xs[1..] ==> x in xs;
      FilterExtensional(xs[1..], p, q);
    }
  }

  /** A filter that keeps nothing yields the empty list. */
  lemma {:induction false} FilterNone<T(!new)>(xs: seq<T>, p: T -> bool)
    requires forall x :: x in xs ==> !p(x)
    ensures Filter(xs, p) == []
  {
    if xs != [] {
      assert forall x :: x in xs[1..] ==> x in xs;
      FilterNone(xs[1..], p);
    }
  }

  /**
    `[f(x) for x in xs if p(x)]`, built the way a loop over `xs` builds it:
    each element in turn, skipped unless it satisfies `p`.
   */
  function FilterMap<T(!new), U>(xs: seq<T>, p: T -> bool, f: T -> U): (r: seq<U>)
    ensures |r| == |Filter(xs, p)|
  {
    if xs == [] then []
    else
      FilterSnoc(xs[..|xs| - 1], xs[|xs| - 1], p);
      assert xs == xs[..|xs| - 1] + [xs[|xs| - 1]];
      FilterMap(xs[..|xs| - 1], p, f) + (if p(xs[|xs| - 1]) then [f(xs[|xs| - 1])] else [])
  }

  /** The `k`-th output is `f` of the `k`-th kept element. */
  lemma {:induction false} FilterMapAt<T(!new), U>(xs: seq<T>, p: T -> bool, f: T -> U, k: nat)
    requires k < |Filter(xs, p)|
    ensures FilterMap(xs, p, f)[k] == f(Filter(xs, p)[k])
  {
    var init := xs[..|xs| - 1];
    var last := xs[|xs| - 1];
    assert xs == init + [last];
    FilterSnoc(init, last, p);
    if k < |Filter(init, p)| {
      FilterMapAt(init, p, f, k);
    }
  }
}
