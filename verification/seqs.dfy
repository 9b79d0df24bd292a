/** Sequence searches and order-preserving filtering, as used by the
    engine's `find`, `Map` lookups and `filter` calls. */
module Seqs {
  import opened Types

  /** Index of the first occurrence of `x` (`Array.prototype.find`). */
  function IndexOf<T(==)>(xs: seq<T>, x: T): (r: Option<nat>)
    ensures r.Some? ==> r.value < |xs| && xs[r.value] == x
    ensures r.Some? ==> forall j :: 0 <= j < r.value ==> xs[j] != x
    ensures r.None? <==> x !in xs
  {
    if |xs| == 0 then None
    else if xs[0] == x then Some(0)
    else match IndexOf(xs[1..], x)
      case None => None
      case Some(i) => Some(i + 1)
  }

  /** Index of the last occurrence of `x` (a `Map` built from a list keeps the last entry per key). */
  function LastIndexOf<T(==)>(xs: seq<T>, x: T): (r: Option<nat>)
    ensures r.Some? ==> r.value < |xs| && xs[r.value] == x
    ensures r.Some? ==> forall j :: r.value < j < |xs| ==> xs[j] != x
    ensures r.None? <==> x !in xs
  {
    if |xs| == 0 then None
    else if xs[|xs| - 1] == x then Some(|xs| - 1)
    else LastIndexOf(xs[..|xs| - 1], x)
  }

  /** `a` is obtained from `b` by deleting elements, without reordering. */
  predicate IsSubsequence<T(==)>(a: seq<T>, b: seq<T>)
    decreases |b|
  {
    if |a| == 0 then true
    else if |b| == 0 then false
    else (a[0] == b[0] && IsSubsequence(a[1..], b[1..])) || IsSubsequence(a, b[1..])
  }

  /** `Array.prototype.filter`. */
  function Filter<T(==,!new)>(xs: seq<T>, keep: T -> bool): (r: seq<T>)
    ensures forall x :: x in r <==> x in xs && keep(x)
    ensures forall x :: multiset(r)[x] == if keep(x) then multiset(xs)[x] else 0
    ensures IsSubsequence(r, xs)
    ensures |r| <= |xs|
  {
    if |xs| == 0 then []
    else
      var rest := Filter(xs[1..], keep);
      assert xs == [xs[0]] + xs[1..];
      assert multiset(xs) == multiset([xs[0]]) + multiset(xs[1..]);
      if keep(xs[0]) then
        assert multiset([xs[0]] + rest) == multiset([xs[0]]) + multiset(rest);
        [xs[0]] + rest
      else rest
  }

  lemma {:induction false} FilterAppend<T(!new)>(a: seq<T>, b: seq<T>, keep: T -> bool)
    ensures Filter(a + b, keep) == Filter(a, keep) + Filter(b, keep)
    decreases |a|
  {
    if |a| == 0 {
      assert a + b == b;
    } else {
      assert (a + b)[1..] == a[1..] + b;
      FilterAppend(a[1..], b, keep);
    }
  }

  /** Filtering keeps a sequence whole exactly when every element passes. */
  lemma {:induction false} FilterKeepsAll<T(!new)>(xs: seq<T>, keep: T -> bool)
    requires forall x :: x in xs ==> keep(x)
    ensures Filter(xs, keep) == xs
    decreases |xs|
  {
    if |xs| > 0 {
      assert forall x :: x in xs[1..] ==> x in xs;
      FilterKeepsAll(xs[1..], keep);
      assert keep(xs[0]);
      assert Filter(xs, keep) == [xs[0]] + Filter(xs[1..], keep);
      assert xs == [xs[0]] + xs[1..];
    }
  }

  lemma FilterIdempotent<T(!new)>(xs: seq<T>, keep: T -> bool)
    ensures Filter(Filter(xs, keep), keep) == Filter(xs, keep)
  {
    FilterKeepsAll(Filter(xs, keep), keep);
  }

  /** Rewriting only elements the filter drops, into elements it also drops, leaves the result alone. */
  lemma {:induction false} FilterIgnoresDropped<T(!new)>(xs: seq<T>, ys: seq<T>, keep: T -> bool)
    requires |xs| == |ys|
    requires forall k :: 0 <= k < |xs| && keep(xs[k]) ==> ys[k] == xs[k]
    requires forall k :: 0 <= k < |xs| && !keep(xs[k]) ==> !keep(ys[k])
    ensures Filter(ys, keep) == Filter(xs, keep)
    decreases |xs|
  {
    if |xs| > 0 {
      FilterIgnoresDropped(xs[1..], ys[1..], keep);
    }
  }
}
