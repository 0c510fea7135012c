/** The shared kernel: tickers, sides, prices, quotes and the usual wrappers. */
module Types {

  datatype Option<+T> = None | Some(value: T)

  datatype Result<+T, +E> = Ok(value: T) | Err(error: E)

  /** A validated six-digit domestic ticker, read as a number. */
  datatype Symbol = Symbol(ticker: nat)

  datatype OrderSide = Buy | Sell

  datatype OrderType = Market | Limit

  /** A positive share count: what `Order::new` lets through. */
  type Shares = n: int | 0 < n witness 1

  datatype Quote = Quote(symbol: Symbol, lastPrice: real, timestamp: int)

  function Min(a: int, b: int): int {
    if a <= b then a else b
  }

  lemma PrefixGrows<T>(xs: seq<T>, k: nat)
    requires k < |xs|
    ensures xs[..k + 1] == xs[..k] + [xs[k]]
  {
  }

  lemma PrefixOfPrefix<T>(xs: seq<T>, n: nat, i: nat)
    requires i <= n <= |xs|
    ensures xs[..n][..i] == xs[..i]
  {
  }

  lemma SliceFront<T>(xs: seq<T>, lo: nat, hi: nat)
    requires lo < hi <= |xs|
    ensures xs[lo..hi][..hi - lo - 1] == xs[lo..hi - 1] && xs[lo..hi][hi - lo - 1] == xs[hi - 1]
  {
  }

  lemma FrontAndLast<T>(xs: seq<T>)
    requires xs != []
    ensures xs == xs[..|xs| - 1] + [xs[|xs| - 1]]
  {
  }

  lemma CancelPositive(x: real, y: real, p: real)
    requires p > 0.0 && x * p <= y * p
    ensures x <= y
  {
    assert x > y ==> (x - y) * p > 0.0;
  }
}

/** Sums over finite sets, independent of the order of summation. */
module Sums {

  ghost function Sum<K(!new)>(keys: set<K>, f: K -> real): real {
    if keys == {} then 0.0
    else
      var k :| k in keys;
      f(k) + Sum(keys - {k}, f)
  }

  /** Any element may be taken out first. */
  lemma {:induction false} SumRemove<K(!new)>(keys: set<K>, f: K -> real, k: K)
    requires k in keys
    ensures Sum(keys, f) == f(k) + Sum(keys - {k}, f)
    decreases keys
  {
    var c :| c in keys && Sum(keys, f) == f(c) + Sum(keys - {c}, f);
    if c != k {
      SumRemove(keys - {c}, f, k);
      SumRemove(keys - {k}, f, c);
      assert keys - {c} - {k} == keys - {k} - {c};
    }
  }

  lemma {:induction false} SumCongruence<K(!new)>(keys: set<K>, f: K -> real, g: K -> real)
    requires forall k :: k in keys ==> f(k) == g(k)
    ensures Sum(keys, f) == Sum(keys, g)
    decreases keys
  {
    if keys != {} {
      var k :| k in keys;
      SumRemove(keys, f, k);
      SumRemove(keys, g, k);
      SumCongruence(keys - {k}, f, g);
    }
  }

  /** Two summands that differ at one key only differ by that key's change. */
  lemma SumUpdate<K(!new)>(before: set<K>, f: K -> real, after: set<K>, g: K -> real, k: K)
    requires after == before + {k}
    requires k !in before ==> f(k) == 0.0
    requires forall j :: j in before && j != k ==> f(j) == g(j)
    ensures Sum(after, g) == Sum(before, f) + g(k) - f(k)
  {
    SumRemove(after, g, k);
    assert after - {k} == before - {k};
    SumCongruence(before - {k}, f, g);
    if k in before {
      SumRemove(before, f, k);
    } else {
      assert before - {k} == before;
    }
  }

  /** The difference of two sums is the sum of the differences. */
  lemma {:induction false} SumDifference<K(!new)>(keys: set<K>, f: K -> real, g: K -> real, h: K -> real)
    requires forall k :: k in keys ==> h(k) == f(k) - g(k)
    ensures Sum(keys, h) == Sum(keys, f) - Sum(keys, g)
    decreases keys
  {
    if keys != {} {
      var k :| k in keys;
      SumRemove(keys, f, k);
      SumRemove(keys, g, k);
      SumRemove(keys, h, k);
      SumDifference(keys - {k}, f, g, h);
    }
  }
}
