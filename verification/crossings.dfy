/** Crosses, RSI and momentum read off the closes: sums at explicit indices, and one bar against the bar before. */
module Crossings {
  import opened Types
  import opened Histories
  import opened Indicators

  // ---- Moving averages ----

  function SumOver(closes: seq<real>, lo: nat, hi: nat): real
    requires lo <= hi <= |closes|
  {
    if lo == hi then 0.0 else SumOver(closes, lo, hi - 1) + closes[hi - 1]
  }

  lemma {:induction false} TotalIsSum(closes: seq<real>, lo: nat, hi: nat)
    requires lo <= hi <= |closes|
    ensures Total(closes[lo..hi]) == SumOver(closes, lo, hi)
    decreases hi - lo
  {
    if lo < hi {
      TotalIsSum(closes, lo, hi - 1);
      SliceFront(closes, lo, hi);
    }
  }

  lemma {:induction false} SumOfPrefix(closes: seq<real>, m: nat, lo: nat, hi: nat)
    requires lo <= hi <= m <= |closes|
    ensures SumOver(closes[..m], lo, hi) == SumOver(closes, lo, hi)
    decreases hi - lo
  {
    if lo < hi {
      SumOfPrefix(closes, m, lo, hi - 1);
    }
  }

  /** The lead of the `fast` mean over the `slow` one, both ending before index `end`, times both periods. */
  function Lead(closes: seq<real>, fast: nat, slow: nat, end: nat): real
    requires fast <= end && slow <= end <= |closes|
  {
    slow as real * SumOver(closes, end - fast, end) - fast as real * SumOver(closes, end - slow, end)
  }

  lemma MeansCompare(x: real, f: real, y: real, s: real)
    requires f > 0.0 && s > 0.0
    ensures x / f > y / s <==> s * x - f * y > 0.0
    ensures x / f < y / s <==> s * x - f * y < 0.0
  {
    var a, b := x / f, y / s;
    assert a * f == x && b * s == y;
    assert s * x - f * y == (a - b) * (f * s);
    ProductSign(a - b, f * s);
  }

  lemma ProductSign(x: real, p: real)
    requires p > 0.0
    ensures x * p > 0.0 <==> x > 0.0
    ensures x * p < 0.0 <==> x < 0.0
  {
  }

  lemma SmaIsMean(closes: seq<real>, period: nat)
    requires 1 <= period <= |closes|
    ensures Sma(closes, period) == Some(SumOver(closes, |closes| - period, |closes|) / period as real)
  {
    TotalIsSum(closes, |closes| - period, |closes|);
    assert closes[|closes| - period..] == closes[|closes| - period..|closes|];
  }

  lemma SmaLead(closes: seq<real>, fast: nat, slow: nat, end: nat)
    requires 1 <= fast < slow <= end <= |closes|
    ensures Sma(closes[..end], fast).Some? && Sma(closes[..end], slow).Some?
    ensures var f, s := Sma(closes[..end], fast).value, Sma(closes[..end], slow).value;
      (f > s <==> Lead(closes, fast, slow, end) > 0.0) && (f < s <==> Lead(closes, fast, slow, end) < 0.0)
  {
    SmaIsMean(closes[..end], fast);
    SmaIsMean(closes[..end], slow);
    SumOfPrefix(closes, end, end - fast, end);
    SumOfPrefix(closes, end, end - slow, end);
    MeansCompare(SumOver(closes, end - fast, end), fast as real, SumOver(closes, end - slow, end), slow as real);
  }

  /** The averages cross up exactly when the fast one leads now and did not one bar earlier, and down likewise. */
  lemma SmaCrossExactly(closes: seq<real>, fast: nat, slow: nat)
    requires 1 <= fast < slow < |closes|
    ensures var n, cross := |closes|, SmaCross(closes, fast, slow);
      && cross.Some?
      && (cross.value.up <==> Lead(closes, fast, slow, n - 1) <= 0.0 < Lead(closes, fast, slow, n))
      && (cross.value.down <==> Lead(closes, fast, slow, n - 1) >= 0.0 > Lead(closes, fast, slow, n))
  {
    var n := |closes|;
    SmaLead(closes, fast, slow, n);
    SmaLead(closes, fast, slow, n - 1);
    assert closes[..n] == closes;
  }

  /** So no two adjacent bars cross the same way. */
  lemma SmaNeverTwice(closes: seq<real>, fast: nat, slow: nat)
    requires 1 <= fast < slow < |closes| - 1
    ensures var now, before := SmaCross(closes, fast, slow), SmaCross(closes[..|closes| - 1], fast, slow);
      && now.Some? && before.Some?
      && !(now.value.up && before.value.up) && !(now.value.down && before.value.down)
  {
    var m := |closes| - 1;
    SmaCrossExactly(closes, fast, slow);
    SmaCrossExactly(closes[..m], fast, slow);
    SumOfPrefix(closes, m, m - fast, m);
    SumOfPrefix(closes, m, m - slow, m);
  }

  // ---- MACD ----

  lemma {:induction false} EmaOfPrefix(closes: seq<real>, m: nat, period: nat, t: nat)
    requires 1 <= period <= t + 1 && t < m <= |closes|
    ensures EmaAt(closes[..m], period, t) == EmaAt(closes, period, t)
    decreases t
  {
    if t + 1 == period {
      assert closes[..m][..period] == closes[..period];
    } else {
      EmaOfPrefix(closes, m, period, t - 1);
    }
  }

  lemma LineOfPrefix(closes: seq<real>, m: nat, fast: nat, slow: nat)
    requires 1 <= fast <= slow <= m <= |closes|
    ensures |MacdLine(closes, fast, slow)| == |closes| - slow + 1
    ensures MacdLine(closes[..m], fast, slow) == MacdLine(closes, fast, slow)[..m - slow + 1]
  {
    forall i | 0 <= i <= m - slow
      ensures MacdLine(closes[..m], fast, slow)[i] == MacdLine(closes, fast, slow)[i]
    {
      EmaOfPrefix(closes, m, fast, i + slow - 1);
      EmaOfPrefix(closes, m, slow, i + slow - 1);
    }
  }

  /** By how much the line leads its signal at the last close. */
  function MacdLead(closes: seq<real>, fast: nat, slow: nat, signal: nat): real
    requires 1 <= fast <= slow && 1 <= signal && slow + signal <= |closes| + 1
  {
    var line := MacdLine(closes, fast, slow);
    line[|line| - 1] - EmaAt(line, signal, |line| - 1)
  }

  /** The same for the MACD line and its signal: the series without its last close tells what was one bar earlier. */
  lemma MacdCrossExactly(closes: seq<real>, fast: nat, slow: nat, signal: nat)
    requires 1 <= fast <= slow && 1 <= signal && slow + signal <= |closes|
    ensures var cross := MacdCross(closes, fast, slow, signal);
      var before, now := MacdLead(closes[..|closes| - 1], fast, slow, signal), MacdLead(closes, fast, slow, signal);
      && cross.Some?
      && (cross.value.up <==> before <= 0.0 < now)
      && (cross.value.down <==> before >= 0.0 > now)
  {
    var m := |closes| - 1;
    var line := MacdLine(closes, fast, slow);
    LineOfPrefix(closes, m, fast, slow);
    EmaOfPrefix(line, |line| - 1, signal, |line| - 2);
  }

  lemma MacdNeverTwice(closes: seq<real>, fast: nat, slow: nat, signal: nat)
    requires 1 <= fast <= slow && 1 <= signal && slow + signal < |closes|
    ensures var now := MacdCross(closes, fast, slow, signal);
      var before := MacdCross(closes[..|closes| - 1], fast, slow, signal);
      && now.Some? && before.Some?
      && !(now.value.up && before.value.up) && !(now.value.down && before.value.down)
  {
    MacdCrossExactly(closes, fast, slow, signal);
    MacdCrossExactly(closes[..|closes| - 1], fast, slow, signal);
  }

  // ---- RSI ----

  /** What the closes from index `lo` on, up to `hi`, rose over their predecessors. */
  function Rises(closes: seq<real>, lo: nat, hi: nat): real
    requires 1 <= lo <= hi <= |closes|
  {
    if lo == hi then 0.0
    else
      var move := closes[hi - 1] - closes[hi - 2];
      Rises(closes, lo, hi - 1) + if move > 0.0 then move else 0.0
  }

  function Falls(closes: seq<real>, lo: nat, hi: nat): real
    requires 1 <= lo <= hi <= |closes|
  {
    if lo == hi then 0.0
    else
      var move := closes[hi - 1] - closes[hi - 2];
      Falls(closes, lo, hi - 1) + if move < 0.0 then 0.0 - move else 0.0
  }

  lemma {:induction false} GainsAreRises(closes: seq<real>, lo: nat, hi: nat)
    requires 1 <= lo <= hi <= |closes|
    ensures Gains(closes[lo - 1..hi]) == Rises(closes, lo, hi) >= 0.0
    ensures Losses(closes[lo - 1..hi]) == Falls(closes, lo, hi) >= 0.0
    decreases hi - lo
  {
    if lo < hi {
      GainsAreRises(closes, lo, hi - 1);
      SliceFront(closes, lo - 1, hi);
    }
  }

  lemma RsiShare(gain: real, loss: real, n: real)
    requires gain >= 0.0 && loss >= 0.0 && n > 0.0
    ensures gain / n >= 0.0 && loss / n >= 0.0
    ensures if gain + loss == 0.0 then RsiOf(gain / n, loss / n) == 50.0
      else RsiOf(gain / n, loss / n) * (gain + loss) == 100.0 * gain
  {
    var g, l := gain / n, loss / n;
    assert g * n == gain && l * n == loss;
    QuotientBound(gain, n, 0.0);
    QuotientBound(loss, n, 0.0);
    if l > 0.0 {
      ShareOf(g, l);
      Rescale(RsiOf(g, l), g, l, n);
    }
  }

  lemma ShareOf(g: real, l: real)
    requires g >= 0.0 && l > 0.0
    ensures RsiOf(g, l) * (g + l) == 100.0 * g
  {
    var rs := g / l;
    assert rs * l == g;
    QuotientBound(g, l, 0.0);
    var y := 100.0 / (1.0 + rs);
    assert y * (1.0 + rs) == 100.0;
    assert y * (l + g) == y * ((1.0 + rs) * l);
    assert y * ((1.0 + rs) * l) == 100.0 * l;
    if g == 0.0 {
      assert rs == 0.0;
    }
  }

  lemma Rescale(v: real, g: real, l: real, n: real)
    requires v * (g + l) == 100.0 * g
    ensures v * (g * n + l * n) == 100.0 * (g * n)
  {
    assert v * (g * n + l * n) == v * (g + l) * n;
  }

  /** RSI is the share of the rises in all that the last `period` closes moved, in percent; 50 if nothing moved. */
  lemma RsiExactly(closes: seq<real>, period: nat)
    requires 1 <= period < |closes|
    ensures var n, rsi := |closes|, Rsi(closes, period);
      var rises, falls := Rises(closes, n - period, n), Falls(closes, n - period, n);
      && rsi.Some?
      && if rises + falls == 0.0 then rsi.value == 50.0 else rsi.value * (rises + falls) == 100.0 * rises
  {
    var n := |closes|;
    assert closes[n - period - 1..] == closes[n - period - 1..n];
    GainsAreRises(closes, n - period, n);
    RsiShare(Rises(closes, n - period, n), Falls(closes, n - period, n), period as real);
  }

  // ---- Momentum ----

  /** The score is the growth from twelve months ago, 253 closes back, to one month ago, 22 closes back. */
  lemma MomentumExactly(closes: seq<real>, growth: real)
    ensures MomentumScore(closes) == Some(growth) <==>
      && |closes| >= 253 && closes[|closes| - 253] != 0.0
      && closes[|closes| - 22] == (1.0 + growth) * closes[|closes| - 253]
  {
    if |closes| >= 253 && closes[|closes| - 253] != 0.0 {
      Growth(closes[|closes| - 22], closes[|closes| - 253], growth);
    }
  }

  lemma Growth(recent: real, base: real, growth: real)
    requires base != 0.0
    ensures (recent - base) / base == growth <==> recent == (1.0 + growth) * base
  {
    var g := (recent - base) / base;
    assert g * base == recent - base;
    if recent == (1.0 + growth) * base {
      assert (growth - g) * base == 0.0;
    }
  }
}
