/** The built-in indicators as functions of a close series, and the loops that compute them. */
module Indicators {
  import opened Types
  import opened Histories

  /** Whether the series has just crossed up, or down. */
  datatype Cross = Cross(up: bool, down: bool)

  // ---- Moving-average cross ----

  function SmaCross(closes: seq<real>, fast: nat, slow: nat): Option<Cross>
    requires fast < slow
  {
    if |closes| < slow + 1 then None
    else
      var prefix := closes[..|closes| - 1];
      var fastNow, slowNow := Sma(closes, fast), Sma(closes, slow);
      var fastPrev, slowPrev := Sma(prefix, fast), Sma(prefix, slow);
      if fastNow.None? || slowNow.None? || fastPrev.None? || slowPrev.None? then None
      else Some(Cross(
        fastPrev.value <= slowPrev.value && fastNow.value > slowNow.value,
        fastPrev.value >= slowPrev.value && fastNow.value < slowNow.value))
  }

  // ---- Cutler's RSI ----

  function Gains(s: seq<real>): real {
    if |s| < 2 then 0.0
    else
      var n := |s| - 1;
      Gains(s[..n]) + (if s[n] > s[n - 1] then s[n] - s[n - 1] else 0.0)
  }

  function Losses(s: seq<real>): real {
    if |s| < 2 then 0.0
    else
      var n := |s| - 1;
      Losses(s[..n]) + (if s[n] > s[n - 1] then 0.0 else s[n - 1] - s[n])
  }

  function RsiOf(gain: real, loss: real): real
    requires gain >= 0.0 && loss >= 0.0
  {
    if gain == 0.0 && loss == 0.0 then 50.0
    else if loss == 0.0 then 100.0
    else 100.0 - 100.0 / (1.0 + gain / loss)
  }

  lemma {:induction false} GainsNonNegative(s: seq<real>)
    ensures Gains(s) >= 0.0 && Losses(s) >= 0.0
    decreases |s|
  {
    if |s| >= 2 {
      GainsNonNegative(s[..|s| - 1]);
    }
  }

  function Rsi(closes: seq<real>, period: nat): Option<real> {
    if period == 0 || |closes| < period + 1 then None
    else
      var tail := closes[|closes| - period - 1..];
      GainsNonNegative(tail);
      Some(RsiOf(Gains(tail) / period as real, Losses(tail) / period as real))
  }

  /** RSI is a percentage. */
  lemma RsiRange(gain: real, loss: real)
    requires gain >= 0.0 && loss >= 0.0
    ensures 0.0 <= RsiOf(gain, loss) <= 100.0
  {
    if loss > 0.0 {
      var rs := gain / loss;
      QuotientBound(gain, loss, 0.0);
      Reciprocal(1.0 + rs);
    }
  }

  lemma Reciprocal(x: real)
    requires x >= 1.0
    ensures 0.0 <= 100.0 / x <= 100.0
  {
    QuotientWithin(100.0, x, 0.0, 100.0);
  }

  method ComputeRsi(closes: seq<real>, period: nat) returns (r: Option<real>)
    ensures r == Rsi(closes, period)
  {
    if period == 0 || |closes| < period + 1 {
      return None;
    }
    var tail := closes[|closes| - period - 1..];
    var gains, losses := 0.0, 0.0;
    for i := 1 to |tail|
      invariant gains == Gains(tail[..i]) && losses == Losses(tail[..i])
    {
      assert tail[..i + 1][..i] == tail[..i];
      var change := tail[i] - tail[i - 1];
      if change > 0.0 {
        gains := gains + change;
      } else {
        losses := losses - change;
      }
    }
    assert tail[..|tail|] == tail;
    GainsNonNegative(tail);
    r := Some(RsiOf(gains / period as real, losses / period as real));
  }

  function RsiCross(closes: seq<real>, period: nat, oversold: real, overbought: real): Option<Cross> {
    match Rsi(closes, period)
    case None => None
    case Some(value) => Some(Cross(value < oversold, value > overbought))
  }

  // ---- Donchian breakout ----

  function Highest(s: seq<real>): real
    requires s != []
  {
    if |s| == 1 then s[0]
    else
      var before := Highest(s[..|s| - 1]);
      if s[|s| - 1] > before then s[|s| - 1] else before
  }

  function Lowest(s: seq<real>): real
    requires s != []
  {
    if |s| == 1 then s[0]
    else
      var before := Lowest(s[..|s| - 1]);
      if s[|s| - 1] < before then s[|s| - 1] else before
  }

  function DonchianCross(closes: seq<real>, period: nat): Option<Cross>
    requires period >= 1
  {
    if |closes| < period + 1 then None
    else
      var n := |closes| - 1;
      var prior := closes[n - period..n];
      Some(Cross(closes[n] > Highest(prior), closes[n] < Lowest(prior)))
  }

  // ---- Momentum ----

  function MomentumScore(closes: seq<real>): Option<real> {
    if |closes| < 253 then None
    else
      var recent, base := closes[|closes| - 22], closes[|closes| - 253];
      if base == 0.0 then None else Some((recent - base) / base)
  }

  // ---- MACD ----

  function Alpha(period: nat): real {
    2.0 / (period + 1) as real
  }

  /** The exponential average at bar `t`, seeded with the plain average of the first `period` closes. */
  function EmaAt(closes: seq<real>, period: nat, t: nat): real
    requires 1 <= period <= t + 1 && t < |closes|
  {
    if t + 1 == period then Total(closes[..period]) / period as real
    else Alpha(period) * closes[t] + (1.0 - Alpha(period)) * EmaAt(closes, period, t - 1)
  }

  /** Entry `i` of the series belongs to bar `i + period - 1`. */
  function EmaSeries(closes: seq<real>, period: nat): seq<real>
    requires period >= 1
  {
    if |closes| < period then []
    else seq(|closes| - period + 1, i requires 0 <= i < |closes| - period + 1 => EmaAt(closes, period, i + period - 1))
  }

  method ComputeEmaSeries(closes: seq<real>, period: nat) returns (series: seq<real>)
    requires period >= 1
    ensures series == EmaSeries(closes, period)
  {
    if |closes| < period {
      return [];
    }
    var alpha := 2.0 / (period + 1) as real;
    var seed := Total(closes[..period]) / period as real;
    series := [seed];
    assert seed == EmaAt(closes, period, period - 1);
    for k := period to |closes|
      invariant series == EmaSeries(closes, period)[..k - period + 1]
    {
      var previous := series[|series| - 1];
      assert previous == EmaAt(closes, period, k - 1);
      series := series + [alpha * closes[k] + (1.0 - alpha) * previous];
      assert series[k - period + 1] == EmaAt(closes, period, k);
    }
  }

  /** Fast minus slow average, from the first bar at which the slow one exists. */
  function MacdLine(closes: seq<real>, fast: nat, slow: nat): seq<real>
    requires 1 <= fast <= slow
  {
    if |closes| < slow then []
    else
      seq(|closes| - slow + 1, i requires 0 <= i < |closes| - slow + 1 =>
        EmaAt(closes, fast, i + slow - 1) - EmaAt(closes, slow, i + slow - 1))
  }

  function MacdCross(closes: seq<real>, fast: nat, slow: nat, signal: nat): Option<Cross>
    requires 1 <= fast <= slow && signal >= 1
  {
    if |closes| < slow + signal then None
    else
      var macd := MacdLine(closes, fast, slow);
      var n := |macd| - 1;
      var now, prev := EmaAt(macd, signal, n), EmaAt(macd, signal, n - 1);
      Some(Cross(macd[n - 1] <= prev && macd[n] > now, macd[n - 1] >= prev && macd[n] < now))
  }

  /**
   The source's index arithmetic: tails are aligned by `offset`, every index is in range, and the
   result compares the line with its signal at the last two bars. The second length check of the
   source never fires, and the signal series has at least two values.
   */
  method ComputeMacdCross(closes: seq<real>, fast: nat, slow: nat, signal: nat) returns (r: Option<Cross>)
    requires 1 <= fast <= slow && signal >= 1
    ensures r == MacdCross(closes, fast, slow, signal)
  {
    if |closes| < slow + signal {
      return None;
    }
    var fastEma := ComputeEmaSeries(closes, fast);
    var slowEma := ComputeEmaSeries(closes, slow);
    var offset := |fastEma| - |slowEma|;
    var macd := [];
    for i := 0 to |slowEma|
      invariant macd == MacdLine(closes, fast, slow)[..i]
    {
      macd := macd + [fastEma[i + offset] - slowEma[i]];
    }
    assert macd == MacdLine(closes, fast, slow);
    assert |macd| >= signal + 1;
    var signalSeries := ComputeEmaSeries(macd, signal);
    assert |signalSeries| >= 2;
    var macdNow, signalNow := macd[|macd| - 1], signalSeries[|signalSeries| - 1];
    var macdPrev, signalPrev := macd[|macd| - 2], signalSeries[|signalSeries| - 2];
    r := Some(Cross(macdPrev <= signalPrev && macdNow > signalNow, macdPrev >= signalPrev && macdNow < signalNow));
  }

  /**
   Alignment: entry `i` of the line pairs both averages at bar `i + slow - 1`, and the length check
   leaves the signal at least two values.
   */
  lemma MacdAligned(closes: seq<real>, fast: nat, slow: nat, signal: nat)
    requires 1 <= fast <= slow && signal >= 1 && |closes| >= slow + signal
    ensures var fastEma, slowEma := EmaSeries(closes, fast), EmaSeries(closes, slow);
      var macd := MacdLine(closes, fast, slow);
      && |macd| == |slowEma| == |fastEma| - (slow - fast)
      && (forall i :: 0 <= i < |macd| ==> macd[i] == fastEma[i + (slow - fast)] - slowEma[i])
      && |EmaSeries(macd, signal)| >= 2
  {
  }

  // ---- EMA values stay within the closes consumed so far ----

  lemma {:induction false} TotalWithin(s: seq<real>, lo: real, hi: real)
    requires forall i :: 0 <= i < |s| ==> lo <= s[i] <= hi
    ensures lo * |s| as real <= Total(s) <= hi * |s| as real
    decreases |s|
  {
    if s != [] {
      var n := |s| - 1;
      TotalWithin(s[..n], lo, hi);
      assert |s| as real == n as real + 1.0;
    }
  }

  lemma QuotientBound(total: real, n: real, lo: real)
    requires n > 0.0 && lo * n <= total
    ensures lo <= total / n
  {
    var q := total / n;
    assert q * n == total;
    CancelPositive(lo, q, n);
  }

  lemma QuotientWithin(total: real, n: real, lo: real, hi: real)
    requires n > 0.0 && lo * n <= total <= hi * n
    ensures lo <= total / n <= hi
  {
    QuotientBound(total, n, lo);
    QuotientBound(0.0 - total, n, 0.0 - hi);
  }

  lemma Scaled(a: real, d: real)
    requires a >= 0.0 && d >= 0.0
    ensures a * d >= 0.0
  {
  }

  lemma Convex(a: real, x: real, y: real, lo: real, hi: real)
    requires 0.0 <= a <= 1.0 && lo <= x <= hi && lo <= y <= hi
    ensures lo <= a * x + (1.0 - a) * y <= hi
  {
    var b := 1.0 - a;
    Scaled(a, x - lo);
    Scaled(a, hi - x);
    Scaled(b, y - lo);
    Scaled(b, hi - y);
    assert a * x + b * y - lo == a * (x - lo) + b * (y - lo);
    assert hi - (a * x + b * y) == a * (hi - x) + b * (hi - y);
  }

  lemma AlphaWithin(period: nat)
    requires period >= 1
    ensures 0.0 <= Alpha(period) <= 1.0
  {
    QuotientWithin(2.0, (period + 1) as real, 0.0, 1.0);
  }

  lemma SeedWithin(closes: seq<real>, period: nat, lo: real, hi: real)
    requires 1 <= period <= |closes| && forall i :: 0 <= i < period ==> lo <= closes[i] <= hi
    ensures lo <= Total(closes[..period]) / period as real <= hi
  {
    TotalWithin(closes[..period], lo, hi);
    QuotientWithin(Total(closes[..period]), period as real, lo, hi);
  }

  lemma {:induction false} EmaWithin(closes: seq<real>, period: nat, t: nat, lo: real, hi: real)
    requires 1 <= period <= t + 1 && t < |closes|
    requires forall i :: 0 <= i <= t ==> lo <= closes[i] <= hi
    ensures lo <= EmaAt(closes, period, t) <= hi
    decreases t
  {
    if t + 1 == period {
      SeedWithin(closes, period, lo, hi);
    } else {
      EmaWithin(closes, period, t - 1, lo, hi);
      AlphaWithin(period);
      Convex(Alpha(period), closes[t], EmaAt(closes, period, t - 1), lo, hi);
    }
  }
}
