/** The running-peak drawdown is the largest fall between any two points of the curve. */
module Drawdowns {
  import opened Types
  import opened Backtests
  import opened Metrics

  /** Point `i` of the curve with the initial cash in front. */
  function At(initial: real, curve: seq<Point>, i: nat): real
    requires i <= |curve|
  {
    if i == 0 then initial else curve[i - 1].equity
  }

  ghost predicate FallsBy(initial: real, curve: seq<Point>, i: nat, j: nat, d: real) {
    i <= j <= |curve| && At(initial, curve, i) > 0.0 && Fall(At(initial, curve, i), At(initial, curve, j)) == d
  }

  /** `d` bounds every fall from a positive point to a later one and, unless it is zero, is one of them. */
  ghost predicate LargestFall(initial: real, curve: seq<Point>, d: real) {
    && (forall i, j :: 0 <= i <= j <= |curve| && At(initial, curve, i) > 0.0 ==>
         Fall(At(initial, curve, i), At(initial, curve, j)) <= d)
    && (d != 0.0 ==> exists i, j :: FallsBy(initial, curve, i, j, d))
  }

  ghost predicate NonNegative(initial: real, curve: seq<Point>) {
    initial >= 0.0 && forall i :: 0 <= i < |curve| ==> curve[i].equity >= 0.0
  }

  lemma {:induction false} PeakIsMaximum(initial: real, curve: seq<Point>)
    ensures forall i :: 0 <= i <= |curve| ==> At(initial, curve, i) <= Peak(initial, curve)
    ensures exists i :: 0 <= i <= |curve| && At(initial, curve, i) == Peak(initial, curve)
    decreases |curve|
  {
    if curve == [] {
      assert At(initial, curve, 0) == Peak(initial, curve);
    } else {
      var n := |curve| - 1;
      var front := curve[..n];
      PeakIsMaximum(initial, front);
      forall i | 0 <= i <= |curve|
        ensures At(initial, curve, i) <= Peak(initial, curve)
      {
        if i <= n {
          assert At(initial, curve, i) == At(initial, front, i);
        }
      }
      if curve[n].equity > Peak(initial, front) {
        assert At(initial, curve, n + 1) == Peak(initial, curve);
      } else {
        var i :| 0 <= i <= n && At(initial, front, i) == Peak(initial, front);
        assert At(initial, curve, i) == Peak(initial, curve);
      }
    }
  }

  lemma FallRewritten(a: real, e: real)
    requires a > 0.0
    ensures Fall(a, e) * a == (a - e) * 100.0
  {
    var x := (a - e) * 100.0;
    assert x / a * a == x;
  }

  ghost function Left(a: real, e: real): real
    requires a > 0.0
  {
    100.0 - Fall(a, e)
  }

  lemma WhatIsLeft(a: real, e: real)
    requires a > 0.0
    ensures Left(a, e) * a == 100.0 * e
  {
    FallRewritten(a, e);
    assert (100.0 - Fall(a, e)) * a == 100.0 * a - Fall(a, e) * a;
  }

  lemma SameSign(x: real, p: real)
    requires p > 0.0
    ensures x * p >= 0.0 <==> x >= 0.0
  {
    if x >= 0.0 {
      assert x * p >= 0.0;
    } else {
      assert (0.0 - x) * p > 0.0;
    }
  }

  /** Falls compare as their ends do, crosswise scaled by the starts. */
  lemma FallsCompare(a: real, e: real, b: real, f: real)
    requires a > 0.0 && b > 0.0
    ensures Fall(a, e) <= Fall(b, f) <==> e * b >= f * a
  {
    var x, y := Left(a, e), Left(b, f);
    WhatIsLeft(a, e);
    WhatIsLeft(b, f);
    Crosswise(x, a, b, e);
    Crosswise(y, b, a, f);
    SameSign(a, b);
    Spread(x, y, a * b);
    SameSign(x - y, a * b);
  }

  lemma Crosswise(x: real, a: real, b: real, e: real)
    requires x * a == 100.0 * e
    ensures x * (a * b) == 100.0 * (e * b)
    ensures x * (b * a) == 100.0 * (e * b)
  {
    assert x * (a * b) == x * a * b;
  }

  lemma Spread(x: real, y: real, p: real)
    ensures (x - y) * p == x * p - y * p
  {
  }

  lemma Scaled(e: real, a: real, p: real)
    requires e >= 0.0 && a <= p
    ensures e * a <= e * p
  {
    assert e * (p - a) >= 0.0;
  }

  /** A higher start falls further, as long as the end is not negative. */
  lemma FallMonotone(a: real, p: real, e: real)
    requires 0.0 < a <= p && e >= 0.0
    ensures Fall(a, e) <= Fall(p, e) <= 100.0
  {
    FallsCompare(a, e, p, e);
    Scaled(e, a, p);
    WhatIsLeft(p, e);
    SameSign(Left(p, e), p);
  }

  // ---- What the one pass computes ----

  ghost function PeakTo(initial: real, curve: seq<Point>, k: nat): real
    requires k <= |curve|
  {
    Peak(initial, curve[..k])
  }

  lemma PeakToIsMaximum(initial: real, curve: seq<Point>, k: nat)
    requires k <= |curve|
    ensures forall i :: 0 <= i <= k ==> At(initial, curve, i) <= PeakTo(initial, curve, k)
    ensures exists i :: 0 <= i <= k && At(initial, curve, i) == PeakTo(initial, curve, k)
  {
    var front := curve[..k];
    PeakIsMaximum(initial, front);
    assert forall i :: 0 <= i <= k ==> At(initial, curve, i) == At(initial, front, i);
  }

  ghost predicate FallsFromPeak(initial: real, curve: seq<Point>, k: nat, d: real) {
    && 1 <= k <= |curve| && PeakTo(initial, curve, k) > 0.0
    && Fall(PeakTo(initial, curve, k), At(initial, curve, k)) == d
  }

  /** The drawdown is zero or the fall from some positive peak, and bounds the fall from each. */
  ghost predicate LargestFromPeak(initial: real, curve: seq<Point>, d: real) {
    && d >= 0.0
    && (forall k :: 1 <= k <= |curve| && PeakTo(initial, curve, k) > 0.0 ==>
         Fall(PeakTo(initial, curve, k), At(initial, curve, k)) <= d)
    && (d != 0.0 ==> exists k :: FallsFromPeak(initial, curve, k, d))
  }

  lemma {:induction false} DrawdownFromPeaks(initial: real, curve: seq<Point>)
    ensures LargestFromPeak(initial, curve, Drawdown(initial, curve))
    decreases |curve|
  {
    if curve != [] {
      var n := |curve| - 1;
      var front, peak, e := curve[..n], Peak(initial, curve), curve[n].equity;
      DrawdownFromPeaks(initial, front);
      PeakIsMaximum(initial, curve);
      assert At(initial, curve, n + 1) == e;
      assert curve[..n + 1] == curve && PeakTo(initial, curve, n + 1) == peak;
      assert forall k :: 1 <= k <= n ==> front[..k] == curve[..k];
      assert forall k :: 1 <= k <= n ==>
        PeakTo(initial, front, k) == PeakTo(initial, curve, k) && At(initial, front, k) == At(initial, curve, k);
      if peak < 0.0 {
        NoRise(peak, e);
      }
      var d, before := Drawdown(initial, curve), Drawdown(initial, front);
      if d == before && d != 0.0 {
        var k :| FallsFromPeak(initial, front, k, d);
        assert FallsFromPeak(initial, curve, k, d);
      } else if d != 0.0 {
        assert FallsFromPeak(initial, curve, n + 1, d);
      }
    }
  }

  lemma NoRise(peak: real, e: real)
    requires e <= peak < 0.0
    ensures Fall(peak, e) <= 0.0
  {
    var x := (peak - e) * 100.0;
    var q := x / peak;
    assert q * peak == x;
    assert q * (0.0 - peak) == 0.0 - x;
    CancelPositive(q, 0.0, 0.0 - peak);
  }

  // ---- Against the pairwise definition ----

  /** A positive point and a later negative one. */
  ghost predicate Overdraws(initial: real, curve: seq<Point>, i: nat, j: nat) {
    i <= j <= |curve| && At(initial, curve, i) > 0.0 && At(initial, curve, j) < 0.0
  }

  /**
   The overdraft at `k` starts from the one positive level `At(h)` that there was so far, and relative
   to its start no other overdraft is deeper.
   */
  ghost predicate DeepestFromOneLevel(initial: real, curve: seq<Point>, h: nat, k: nat) {
    && Overdraws(initial, curve, h, k)
    && (forall i :: 0 <= i <= k && At(initial, curve, i) > 0.0 ==> At(initial, curve, i) == At(initial, curve, h))
    && (forall i, j :: Overdraws(initial, curve, i, j) ==>
         At(initial, curve, j) * At(initial, curve, h) >= At(initial, curve, k) * At(initial, curve, i))
  }

  /**
   On every curve, negative points included: the one-pass drawdown is the largest fall between any
   two points exactly when no positive point is followed by a negative one, or the relatively deepest
   such overdraft comes before a second positive level.
   */
  lemma DrawdownExactly(initial: real, curve: seq<Point>)
    ensures LargestFall(initial, curve, Drawdown(initial, curve)) <==>
      || (forall i, j :: !Overdraws(initial, curve, i, j))
      || (exists h, k :: DeepestFromOneLevel(initial, curve, h, k))
  {
    var d := Drawdown(initial, curve);
    DrawdownFromPeaks(initial, curve);
    if forall i, j :: !Overdraws(initial, curve, i, j) {
      forall i, j | 0 <= i <= j <= |curve| && At(initial, curve, i) > 0.0
        ensures Fall(At(initial, curve, i), At(initial, curve, j)) <= d
      {
        assert !Overdraws(initial, curve, i, j);
        FallToNonNegative(initial, curve, i, j);
      }
      PeakFallIsAFall(initial, curve);
    } else if h, k :| DeepestFromOneLevel(initial, curve, h, k) {
      DeepestBounds(initial, curve, h, k);
      PeakFallIsAFall(initial, curve);
    } else if LargestFall(initial, curve, d) {
      var i, j :| Overdraws(initial, curve, i, j);
      var h, k := FirstLevel(initial, curve, i, j);
      assert DeepestFromOneLevel(initial, curve, h, k);
    }
  }

  lemma FallToNonNegative(initial: real, curve: seq<Point>, i: nat, j: nat)
    requires i <= j <= |curve| && At(initial, curve, i) > 0.0 && At(initial, curve, j) >= 0.0
    ensures Fall(At(initial, curve, i), At(initial, curve, j)) <= Drawdown(initial, curve)
  {
    DrawdownFromPeaks(initial, curve);
    PeakToIsMaximum(initial, curve, j);
    if j == 0 {
      FallsCompare(initial, initial, initial, initial);
      FallRewritten(initial, initial);
    } else {
      FallMonotone(At(initial, curve, i), PeakTo(initial, curve, j), At(initial, curve, j));
    }
  }

  lemma PeakFallIsAFall(initial: real, curve: seq<Point>)
    ensures var d := Drawdown(initial, curve); d != 0.0 ==> exists i, j :: FallsBy(initial, curve, i, j, d)
  {
    var d := Drawdown(initial, curve);
    DrawdownFromPeaks(initial, curve);
    if d != 0.0 {
      var k :| FallsFromPeak(initial, curve, k, d);
      PeakToIsMaximum(initial, curve, k);
      var i :| 0 <= i <= k && At(initial, curve, i) == PeakTo(initial, curve, k);
      assert FallsBy(initial, curve, i, k, d);
    }
  }

  lemma DeepestBounds(initial: real, curve: seq<Point>, h: nat, k: nat)
    requires DeepestFromOneLevel(initial, curve, h, k)
    ensures forall i, j :: 0 <= i <= j <= |curve| && At(initial, curve, i) > 0.0 ==>
      Fall(At(initial, curve, i), At(initial, curve, j)) <= Drawdown(initial, curve)
  {
    DrawdownFromPeaks(initial, curve);
    PeakToIsMaximum(initial, curve, k);
    assert k != 0;
    forall i, j | 0 <= i <= j <= |curve| && At(initial, curve, i) > 0.0
      ensures Fall(At(initial, curve, i), At(initial, curve, j)) <= Drawdown(initial, curve)
    {
      if At(initial, curve, j) >= 0.0 {
        FallToNonNegative(initial, curve, i, j);
      } else {
        DeeperFall(initial, curve, i, j, h, k);
      }
    }
  }

  lemma DeeperFall(initial: real, curve: seq<Point>, i: nat, j: nat, h: nat, k: nat)
    requires DeepestFromOneLevel(initial, curve, h, k) && Overdraws(initial, curve, i, j)
    ensures Fall(At(initial, curve, i), At(initial, curve, j)) <= Fall(At(initial, curve, h), At(initial, curve, k))
  {
    var a, e, b, f := At(initial, curve, i), At(initial, curve, j), At(initial, curve, h), At(initial, curve, k);
    assert e * b >= f * a;
    FallsCompare(a, e, b, f);
  }

  /** When the drawdown is the largest fall, the peak it falls from is the only positive level so far. */
  lemma FirstLevel(initial: real, curve: seq<Point>, i0: nat, j0: nat) returns (h: nat, k: nat)
    requires LargestFall(initial, curve, Drawdown(initial, curve)) && Overdraws(initial, curve, i0, j0)
    ensures DeepestFromOneLevel(initial, curve, h, k)
  {
    var d := Drawdown(initial, curve);
    DrawdownFromPeaks(initial, curve);
    OverHundred(At(initial, curve, i0), At(initial, curve, j0));
    k :| FallsFromPeak(initial, curve, k, d);
    PeakToIsMaximum(initial, curve, k);
    h :| 0 <= h <= k && At(initial, curve, h) == PeakTo(initial, curve, k);
    OverHundred(At(initial, curve, h), At(initial, curve, k));
    forall i | 0 <= i <= k && At(initial, curve, i) > 0.0
      ensures At(initial, curve, i) == At(initial, curve, h)
    {
      SameLevel(At(initial, curve, i), At(initial, curve, h), At(initial, curve, k));
    }
    assert forall i, j :: Overdraws(initial, curve, i, j) ==>
      Fall(At(initial, curve, i), At(initial, curve, j)) <= Fall(At(initial, curve, h), At(initial, curve, k));
    Crossed(initial, curve, h, k);
  }

  lemma Crossed(initial: real, curve: seq<Point>, h: nat, k: nat)
    requires h <= k <= |curve| && At(initial, curve, h) > 0.0
    requires forall i, j :: Overdraws(initial, curve, i, j) ==>
      Fall(At(initial, curve, i), At(initial, curve, j)) <= Fall(At(initial, curve, h), At(initial, curve, k))
    ensures forall i, j :: Overdraws(initial, curve, i, j) ==>
      At(initial, curve, j) * At(initial, curve, h) >= At(initial, curve, k) * At(initial, curve, i)
  {
    forall i, j | Overdraws(initial, curve, i, j)
      ensures At(initial, curve, j) * At(initial, curve, h) >= At(initial, curve, k) * At(initial, curve, i)
    {
      FallsCompare(At(initial, curve, i), At(initial, curve, j), At(initial, curve, h), At(initial, curve, k));
    }
  }

  /** Into an overdraft, the lower start falls further. */
  lemma SameLevel(a: real, p: real, e: real)
    requires 0.0 < a <= p && e < 0.0 && Fall(a, e) <= Fall(p, e)
    ensures a == p
  {
    FallsCompare(a, e, p, e);
    CancelNegative(e, a, p);
  }

  lemma OverHundred(a: real, e: real)
    requires a > 0.0
    ensures Fall(a, e) > 100.0 <==> e < 0.0
  {
    WhatIsLeft(a, e);
    SameSign(Left(a, e), a);
  }

  lemma CancelNegative(e: real, a: real, p: real)
    requires e < 0.0 && e * p >= e * a
    ensures p <= a
  {
    CancelPositive(p, a, 0.0 - e);
  }

  /** Without negative points it always is, and it is a percentage. */
  lemma DrawdownIsLargestFall(initial: real, curve: seq<Point>)
    requires NonNegative(initial, curve)
    ensures LargestFall(initial, curve, Drawdown(initial, curve))
    ensures 0.0 <= Drawdown(initial, curve) <= 100.0
  {
    DrawdownExactly(initial, curve);
    DrawdownFromPeaks(initial, curve);
    forall k | 1 <= k <= |curve| && PeakTo(initial, curve, k) > 0.0
      ensures Fall(PeakTo(initial, curve, k), At(initial, curve, k)) <= 100.0
    {
      OverHundred(PeakTo(initial, curve, k), At(initial, curve, k));
    }
  }

  /** A rise and then an overdraft: from 10 to -10 is a larger fall than from 100 to -10. */
  lemma RiseThenOverdraft()
    ensures var curve := [Point(0, 100.0), Point(1, -10.0)];
      !LargestFall(10.0, curve, Drawdown(10.0, curve))
  {
    var curve := [Point(0, 100.0), Point(1, -10.0)];
    DrawdownExactly(10.0, curve);
    assert Overdraws(10.0, curve, 0, 2);
    assert At(10.0, curve, 1) == 100.0;
    forall h, k
      ensures !DeepestFromOneLevel(10.0, curve, h, k)
    {
    }
  }

  /** An overdraft without a rise is measured right: from 10 to -10, although a point is negative. */
  lemma OverdraftAlone()
    ensures var curve := [Point(0, -10.0)]; LargestFall(10.0, curve, Drawdown(10.0, curve))
  {
    var curve := [Point(0, -10.0)];
    DrawdownExactly(10.0, curve);
    assert DeepestFromOneLevel(10.0, curve, 0, 1);
  }
}
