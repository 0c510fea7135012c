/** Stable sorting by an integer key, and cutting a sorted list at a key. */
module Sorting {

  /** Insert behind every element whose key is not larger: the sort is stable. */
  function InsertBy<T>(sorted: seq<T>, x: T, key: T -> int): seq<T> {
    if sorted == [] || key(sorted[|sorted| - 1]) <= key(x) then sorted + [x]
    else InsertBy(sorted[..|sorted| - 1], x, key) + [sorted[|sorted| - 1]]
  }

  function SortBy<T>(xs: seq<T>, key: T -> int): seq<T> {
    if xs == [] then [] else InsertBy(SortBy(xs[..|xs| - 1], key), xs[|xs| - 1], key)
  }

  ghost predicate Ascending<T>(xs: seq<T>, key: T -> int) {
    forall i, j :: 0 <= i < j < |xs| ==> key(xs[i]) <= key(xs[j])
  }

  lemma {:induction false} InsertPermutes<T>(sorted: seq<T>, x: T, key: T -> int)
    ensures multiset(InsertBy(sorted, x, key)) == multiset(sorted) + multiset{x}
    decreases |sorted|
  {
    if sorted != [] && key(sorted[|sorted| - 1]) > key(x) {
      var n := |sorted| - 1;
      InsertPermutes(sorted[..n], x, key);
      assert sorted == sorted[..n] + [sorted[n]];
    }
  }

  lemma AppendAscends<T>(xs: seq<T>, last: T, key: T -> int)
    requires Ascending(xs, key) && forall y :: y in xs ==> key(y) <= key(last)
    ensures Ascending(xs + [last], key)
  {
  }

  lemma InsertBounded<T>(sorted: seq<T>, x: T, key: T -> int, bound: int)
    requires key(x) <= bound && forall y :: y in sorted ==> key(y) <= bound
    ensures forall y :: y in InsertBy(sorted, x, key) ==> key(y) <= bound
  {
    InsertPermutes(sorted, x, key);
    forall y | y in InsertBy(sorted, x, key)
      ensures key(y) <= bound
    {
      assert y in multiset(InsertBy(sorted, x, key));
      assert y in sorted || y == x;
    }
  }

  lemma {:induction false} InsertAscends<T>(sorted: seq<T>, x: T, key: T -> int)
    requires Ascending(sorted, key)
    ensures Ascending(InsertBy(sorted, x, key), key)
    decreases |sorted|
  {
    var n := |sorted| - 1;
    if sorted == [] || key(sorted[n]) <= key(x) {
      AppendAscends(sorted, x, key);
    } else {
      InsertAscends(sorted[..n], x, key);
      InsertBounded(sorted[..n], x, key, key(sorted[n]));
      AppendAscends(InsertBy(sorted[..n], x, key), sorted[n], key);
    }
  }

  /** In key order, and nothing lost or invented. */
  lemma {:induction false} SortFacts<T>(xs: seq<T>, key: T -> int)
    ensures Ascending(SortBy(xs, key), key) && multiset(SortBy(xs, key)) == multiset(xs)
    decreases |xs|
  {
    if xs != [] {
      var n := |xs| - 1;
      SortFacts(xs[..n], key);
      InsertAscends(SortBy(xs[..n], key), xs[n], key);
      InsertPermutes(SortBy(xs[..n], key), xs[n], key);
      assert xs == xs[..n] + [xs[n]];
    }
  }

  /** Sorting a sorted list does nothing. */
  lemma {:induction false} SortedStays<T>(xs: seq<T>, key: T -> int)
    requires Ascending(xs, key)
    ensures SortBy(xs, key) == xs
    decreases |xs|
  {
    if xs != [] {
      var n := |xs| - 1;
      SortedStays(xs[..n], key);
      assert InsertBy(xs[..n], xs[n], key) == xs[..n] + [xs[n]];
      assert xs == xs[..n] + [xs[n]];
    }
  }

  // ---- Cutting at a key ----

  /** The elements with key at most `t`, in their given order. */
  function UpTo<T>(xs: seq<T>, key: T -> int, t: int): seq<T> {
    if xs == [] then []
    else
      var front, last := xs[..|xs| - 1], xs[|xs| - 1];
      if key(last) <= t then UpTo(front, key, t) + [last] else UpTo(front, key, t)
  }

  lemma UpToAppend<T>(xs: seq<T>, x: T, key: T -> int, t: int)
    ensures UpTo(xs + [x], key, t) == if key(x) <= t then UpTo(xs, key, t) + [x] else UpTo(xs, key, t)
  {
    assert (xs + [x])[..|xs|] == xs;
  }

  /** On a sorted list the cut is a prefix. */
  lemma {:induction false} UpToIsPrefix<T>(xs: seq<T>, key: T -> int, t: int)
    requires Ascending(xs, key)
    ensures var k := |UpTo(xs, key, t)|;
      && k <= |xs| && UpTo(xs, key, t) == xs[..k]
      && (forall i :: 0 <= i < k ==> key(xs[i]) <= t)
      && (forall i :: k <= i < |xs| ==> key(xs[i]) > t)
    decreases |xs|
  {
    if xs != [] {
      var n := |xs| - 1;
      UpToIsPrefix(xs[..n], key, t);
      var k := |UpTo(xs[..n], key, t)|;
      assert forall i :: 0 <= i < n ==> key(xs[i]) <= key(xs[n]);
      assert key(xs[n]) <= t ==> k == n;
    }
  }

  lemma InsertBefore<T>(sorted: seq<T>, last: T, x: T, key: T -> int)
    requires key(last) > key(x)
    ensures InsertBy(sorted + [last], x, key) == InsertBy(sorted, x, key) + [last]
  {
    assert (sorted + [last])[..|sorted|] == sorted;
  }

  lemma {:induction false} InsertThenCut<T>(sorted: seq<T>, x: T, key: T -> int, t: int)
    requires Ascending(sorted, key)
    ensures UpTo(InsertBy(sorted, x, key), key, t)
         == if key(x) <= t then InsertBy(UpTo(sorted, key, t), x, key) else UpTo(sorted, key, t)
    decreases |sorted|
  {
    var n := |sorted| - 1;
    if sorted == [] || key(sorted[n]) <= key(x) {
      UpToAppend(sorted, x, key, t);
      UpToIsPrefix(sorted, key, t);
    } else {
      var front, last := sorted[..n], sorted[n];
      assert sorted == front + [last];
      InsertThenCut(front, x, key, t);
      InsertBefore(front, last, x, key);
      UpToAppend(InsertBy(front, x, key), last, key, t);
      UpToAppend(front, last, key, t);
      if key(last) <= t {
        InsertBefore(UpTo(front, key, t), last, x, key);
      }
    }
  }

  lemma SortAppend<T>(xs: seq<T>, x: T, key: T -> int)
    ensures SortBy(xs + [x], key) == InsertBy(SortBy(xs, key), x, key)
  {
    assert (xs + [x])[..|xs|] == xs;
  }

  /** Cutting commutes with the stable sort. */
  lemma {:induction false} SortThenCut<T>(xs: seq<T>, key: T -> int, t: int)
    ensures SortBy(UpTo(xs, key, t), key) == UpTo(SortBy(xs, key), key, t)
    decreases |xs|
  {
    if xs != [] {
      var front, last := xs[..|xs| - 1], xs[|xs| - 1];
      assert xs == front + [last];
      SortThenCut(front, key, t);
      SortFacts(front, key);
      InsertThenCut(SortBy(front, key), last, key, t);
      UpToAppend(front, last, key, t);
      SortAppend(front, last, key);
      if key(last) <= t {
        SortAppend(UpTo(front, key, t), last, key);
      }
    }
  }
}
