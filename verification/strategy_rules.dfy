/** What each threshold strategy buys and sells, read off the closes. */
module StrategyRules {
  import opened Types
  import opened Orders
  import opened Strategies
  import opened Indicators
  import opened BuiltIns
  import opened StrategyProperties
  import opened Signals
  import opened Crossings

  /** The series is long enough, and the periods are not empty. */
  predicate Ready(b: BuiltIn, closes: seq<real>) {
    && |closes| >= Lookback(b)
    && (b.SmaCrossing? ==> b.fast > 0)
    && (b.RsiReversion? ==> b.period > 0)
  }

  /** RSI below, or above, a threshold: the share of the rises in all that moved, and 50 if nothing moved. */
  predicate ShareBelow(part: real, other: real, threshold: real) {
    if part + other == 0.0 then 50.0 < threshold else 100.0 * part < threshold * (part + other)
  }

  predicate ShareAbove(part: real, other: real, threshold: real) {
    if part + other == 0.0 then 50.0 > threshold else 100.0 * part > threshold * (part + other)
  }

  ghost predicate SaysUp(b: BuiltIn, closes: seq<real>)
    requires Configured(b) && !b.MomentumRotation? && Ready(b, closes)
  {
    var n := |closes|;
    match b
    case SmaCrossing(_, fast, slow, _) => Lead(closes, fast, slow, n - 1) <= 0.0 < Lead(closes, fast, slow, n)
    case RsiReversion(_, period, oversold, _, _) =>
      ShareBelow(Rises(closes, n - period, n), Falls(closes, n - period, n), oversold)
    case DonchianBreakout(_, period, _) => forall k :: n - 1 - period <= k < n - 1 ==> closes[k] < closes[n - 1]
    case MacdCrossing(_, fast, slow, signal, _) =>
      MacdLead(closes[..n - 1], fast, slow, signal) <= 0.0 < MacdLead(closes, fast, slow, signal)
  }

  ghost predicate SaysDown(b: BuiltIn, closes: seq<real>)
    requires Configured(b) && !b.MomentumRotation? && Ready(b, closes)
  {
    var n := |closes|;
    match b
    case SmaCrossing(_, fast, slow, _) => Lead(closes, fast, slow, n - 1) >= 0.0 > Lead(closes, fast, slow, n)
    case RsiReversion(_, period, _, overbought, _) =>
      ShareAbove(Rises(closes, n - period, n), Falls(closes, n - period, n), overbought)
    case DonchianBreakout(_, period, _) => forall k :: n - 1 - period <= k < n - 1 ==> closes[k] > closes[n - 1]
    case MacdCrossing(_, fast, slow, signal, _) =>
      MacdLead(closes[..n - 1], fast, slow, signal) >= 0.0 > MacdLead(closes, fast, slow, signal)
  }

  lemma SharesCompare(value: real, part: real, other: real, threshold: real)
    requires part >= 0.0 && other >= 0.0
    requires if part + other == 0.0 then value == 50.0 else value * (part + other) == 100.0 * part
    ensures value < threshold <==> ShareBelow(part, other, threshold)
    ensures value > threshold <==> ShareAbove(part, other, threshold)
  {
    if part + other > 0.0 {
      ProductSign(value - threshold, part + other);
      assert (value - threshold) * (part + other) == value * (part + other) - threshold * (part + other);
    }
  }

  lemma RsiTells(b: BuiltIn, closes: seq<real>)
    requires b.RsiReversion? && Ready(b, closes)
    ensures var cross := CrossOf(b, closes);
      cross.Some? && (cross.value.up <==> SaysUp(b, closes)) && (cross.value.down <==> SaysDown(b, closes))
  {
    var n := |closes|;
    var rises, falls := Rises(closes, n - b.period, n), Falls(closes, n - b.period, n);
    RsiExactly(closes, b.period);
    GainsAreRises(closes, n - b.period, n);
    var value := Rsi(closes, b.period).value;
    SharesCompare(value, rises, falls, b.oversold);
    SharesCompare(value, rises, falls, b.overbought);
  }

  /** A strategy has a signal as soon as it can be worked out, and the signal is what the rule says. */
  lemma CrossTells(b: BuiltIn, closes: seq<real>)
    requires Configured(b) && !b.MomentumRotation?
    ensures var cross := CrossOf(b, closes);
      && (cross.Some? <==> Ready(b, closes))
      && (cross.Some? ==>
           (cross.value.up <==> SaysUp(b, closes)) && (cross.value.down <==> SaysDown(b, closes)))
  {
    if Ready(b, closes) {
      match b
      case SmaCrossing(_, fast, slow, _) => SmaCrossExactly(closes, fast, slow);
      case RsiReversion(_, _, _, _, _) => RsiTells(b, closes);
      case DonchianBreakout(_, period, _) => DonchianBreaksChannel(closes, period);
      case MacdCrossing(_, fast, slow, signal, _) => MacdCrossExactly(closes, fast, slow, signal);
    }
  }

  /** The orders of a threshold strategy: a lot of each flat symbol the rule buys, the holding it sells up to a lot. */
  lemma OrdersExactly(b: BuiltIn, snap: Snapshot, it: OrderIntent)
    requires Configured(b) && !b.MomentumRotation?
    ensures it in Decision(b, snap) <==>
      && it.symbol in b.symbols && it.symbol in snap.history && Ready(b, snap.history[it.symbol])
      && var closes, held := snap.history[it.symbol], HeldShares(snap, it.symbol);
      || (SaysUp(b, closes) && held == 0 && it == MarketIntent(it.symbol, Buy, b.quantity))
      || (SaysDown(b, closes) && held > 0 && it == MarketIntent(it.symbol, Sell, Min(held, b.quantity)))
  {
    CrossIntentsExactly(b, snap, b.symbols, it);
    if it.symbol in snap.history {
      CrossTells(b, snap.history[it.symbol]);
    }
  }

  // ---- The exponential average ----

  /** From index 0 on, a straight line. */
  ghost predicate StraightUpTo(closes: seq<real>, start: real, step: real, t: nat) {
    t < |closes| && forall i :: 0 <= i <= t ==> closes[i] == start + step * i as real
  }

  lemma {:induction false} SumOfLine(closes: seq<real>, start: real, step: real, n: nat)
    requires 1 <= n && StraightUpTo(closes, start, step, n - 1)
    ensures Histories.Total(closes[..n]) == n as real * (start + step * (n - 1) as real / 2.0)
    decreases n
  {
    SliceFront(closes, 0, n);
    if n > 1 {
      SumOfLine(closes, start, step, n - 1);
      NextTerm(start, step, n as real);
    } else {
      assert closes[0] == start + step * 0.0;
    }
  }

  lemma NextTerm(start: real, step: real, n: real)
    ensures (n - 1.0) * (start + step * (n - 2.0) / 2.0) + (start + step * (n - 1.0))
         == n * (start + step * (n - 1.0) / 2.0)
  {
  }

  /** Half of what the period spans behind. */
  function Lagged(close: real, step: real, period: real): real {
    close - step * (period - 1.0) / 2.0
  }

  lemma LagStays(a: real, p: real, last: real, now: real, before: real, step: real)
    requires a * (p + 1.0) == 2.0 && last == now - step && before == Lagged(last, step, p)
    ensures a * now + (1.0 - a) * before == Lagged(now, step, p)
  {
    var gap := step * (p + 1.0);
    assert before == now - gap / 2.0;
    assert a * gap == step * (a * (p + 1.0));
    assert a * now + (1.0 - a) * before == now - gap / 2.0 + a * gap / 2.0;
  }

  lemma LagStarts(total: real, n: real, start: real, step: real)
    requires n > 0.0 && total == n * (start + step * (n - 1.0) / 2.0)
    ensures total / n == Lagged(start + step * (n - 1.0), step, n)
  {
    var mean := start + step * (n - 1.0) / 2.0;
    assert total / n == mean;
  }

  lemma AlphaTimes(period: nat)
    ensures Alpha(period) * (period as real + 1.0) == 2.0
  {
  }

  lemma OneStep(last: real, now: real, start: real, step: real, t: nat)
    requires t > 0 && last == start + step * (t - 1) as real && now == start + step * t as real
    ensures last == now - step
  {
    assert (t - 1) as real == t as real - 1.0;
  }

  lemma FirstLag(closes: seq<real>, period: nat, start: real, step: real)
    requires 1 <= period && StraightUpTo(closes, start, step, period - 1)
    ensures EmaAt(closes, period, period - 1) == Lagged(closes[period - 1], step, period as real)
  {
    SumOfLine(closes, start, step, period);
    LagStarts(Histories.Total(closes[..period]), period as real, start, step);
  }

  lemma NextLag(closes: seq<real>, period: nat, t: nat, start: real, step: real)
    requires 1 <= period <= t && StraightUpTo(closes, start, step, t)
    requires EmaAt(closes, period, t - 1) == Lagged(closes[t - 1], step, period as real)
    ensures EmaAt(closes, period, t) == Lagged(closes[t], step, period as real)
  {
    AlphaTimes(period);
    OneStep(closes[t - 1], closes[t], start, step, t);
    LagStays(Alpha(period), period as real, closes[t - 1], closes[t], EmaAt(closes, period, t - 1), step);
  }

  /** On a straight line the average of a period lags by half of what the period spans, no more and no less. */
  lemma {:induction false} EmaLag(closes: seq<real>, period: nat, t: nat, start: real, step: real)
    requires 1 <= period <= t + 1 && StraightUpTo(closes, start, step, t)
    ensures EmaAt(closes, period, t) == Lagged(closes[t], step, period as real)
    decreases t
  {
    if t + 1 == period {
      FirstLag(closes, period, start, step);
    } else {
      EmaLag(closes, period, t - 1, start, step);
      NextLag(closes, period, t, start, step);
    }
  }
}
