/**
 MACD averages over all closes it is given, back to the seed. When does it decide the same on a bounded
 window as on the full history?
 */
module MacdWindows {
  import opened Types
  import opened Orders
  import opened Histories
  import opened Indicators
  import opened Strategies
  import opened BuiltIns
  import opened StrategyProperties
  import opened Signals

  /** A one, then zeros up to `m`. */
  ghost predicate Impulse(closes: seq<real>, m: nat) {
    1 < m <= |closes| && closes[0] == 1.0 && forall i :: 0 < i < m ==> closes[i] == 0.0
  }

  /** What the average of a period loses at bar `t` while it forgets the impulse. */
  ghost function Loss(closes: seq<real>, period: nat, t: nat): real
    requires 1 <= period <= t < |closes|
  {
    EmaAt(closes, period, t - 1) - EmaAt(closes, period, t)
  }

  lemma {:induction false} TotalOfImpulse(s: seq<real>)
    requires s != [] && s[0] == 1.0 && forall i :: 0 < i < |s| ==> s[i] == 0.0
    ensures Total(s) == 1.0
    decreases |s|
  {
    if |s| == 1 {
      assert s[..0] == [];
    } else {
      TotalOfImpulse(s[..|s| - 1]);
    }
  }

  lemma AlphaTimes(period: nat)
    ensures Alpha(period) * (period + 1) as real == 2.0
  {
  }

  lemma Forgets(closes: seq<real>, period: nat, m: nat, t: nat)
    requires Impulse(closes, m) && 1 <= period <= t < m
    ensures Loss(closes, period, t) == Alpha(period) * EmaAt(closes, period, t - 1)
  {
    var a, e := Alpha(period), EmaAt(closes, period, t - 1);
    assert EmaAt(closes, period, t) == a * 0.0 + (1.0 - a) * e;
    assert e - (1.0 - a) * e == a * e;
  }

  /** A loss in units of the first loss of an average seeded at bar `t - 1`, doubled. */
  ghost function Scaled(loss: real, t: nat): real {
    loss * (t as real * (t + 1) as real)
  }

  lemma FirstLoss(closes: seq<real>, period: nat, m: nat)
    requires Impulse(closes, m) && 1 <= period < m
    ensures Scaled(Loss(closes, period, period), period) == 2.0
  {
    var a, e := Alpha(period), EmaAt(closes, period, period - 1);
    TotalOfImpulse(closes[..period]);
    AlphaTimes(period);
    Forgets(closes, period, m, period);
    Regroup(a, e, Loss(closes, period, period), period);
  }

  lemma Regroup(a: real, e: real, loss: real, k: nat)
    requires k >= 1 && a * (k + 1) as real == 2.0 && e == 1.0 / k as real && loss == a * e
    ensures Scaled(loss, k) == 2.0
  {
    var x, y := k as real, (k + 1) as real;
    assert e * x == 1.0;
    assert a * e * (x * y) == (a * y) * (e * x);
  }

  lemma NextLoss(closes: seq<real>, period: nat, m: nat, t: nat)
    requires Impulse(closes, m) && 1 <= period < t < m
    ensures Loss(closes, period, t) == (1.0 - Alpha(period)) * Loss(closes, period, t - 1)
  {
    var a, e, f := Alpha(period), EmaAt(closes, period, t - 2), EmaAt(closes, period, t - 1);
    Forgets(closes, period, m, t - 1);
    Forgets(closes, period, m, t);
    assert e - f == a * e;
    assert a * f == (1.0 - a) * (a * e);
  }

  /** The loss is never negative, and soon below that of an average seeded only now. */
  lemma {:induction false} LossBelow(closes: seq<real>, period: nat, m: nat, t: nat)
    requires Impulse(closes, m) && 1 <= period <= t < m
    ensures Loss(closes, period, t) >= 0.0 && Scaled(Loss(closes, period, t), t) <= 2.0
    ensures period < t ==> Scaled(Loss(closes, period, t), t) < 2.0
    decreases t
  {
    if t == period {
      FirstLoss(closes, period, m);
      PositiveLoss(Loss(closes, period, t), t);
    } else {
      LossBelow(closes, period, m, t - 1);
      NextLoss(closes, period, m, t);
      AlphaTimes(period);
      AlphaWithin(period);
      NextBelow(Loss(closes, period, t - 1), Loss(closes, period, t), 1.0 - Alpha(period), t, period);
    }
  }

  lemma PositiveLoss(loss: real, t: nat)
    requires t >= 1 && Scaled(loss, t) == 2.0
    ensures loss > 0.0
  {
    ProductPositive(loss, t as real * (t + 1) as real);
  }

  /** The keep of period `k` is (k - 1) / (k + 1), below (t - 1) / (t + 1) at every later bar `t`. */
  lemma NextBelow(before: real, after: real, keep: real, t: nat, k: nat)
    requires 1 <= k < t && 0.0 <= keep && (1.0 - keep) * (k + 1) as real == 2.0
    requires before >= 0.0 && Scaled(before, t - 1) <= 2.0 && after == keep * before
    ensures after >= 0.0 && Scaled(after, t) < 2.0
  {
    var x, y, z, n := (t - 1) as real, t as real, (t + 1) as real, (k + 1) as real;
    KeepsLess(keep, x, z, n);
    assert Scaled(before, t - 1) == before * (x * y);
    StillBelow(before, after, keep, x, y, z);
    assert Scaled(after, t) == after * (y * z);
  }

  lemma KeepsLess(keep: real, x: real, z: real, n: real)
    requires n > 0.0 && n < z && x == z - 2.0 && (1.0 - keep) * n == 2.0
    ensures keep * z < x
  {
    assert keep * n == n - 2.0;
    var rest := x - keep * z;
    assert rest * n == x * n - (n - 2.0) * z;
    assert x * n - (n - 2.0) * z == 2.0 * (z - n);
    ProductPositive(rest, n);
  }

  lemma ProductPositive(x: real, p: real)
    requires p > 0.0 && x * p > 0.0
    ensures x > 0.0
  {
    assert x <= 0.0 ==> x * p <= 0.0;
  }

  lemma StillBelow(before: real, after: real, keep: real, x: real, y: real, z: real)
    requires before >= 0.0 && 0.0 <= keep && after == keep * before && x > 0.0 && y > 0.0
    requires keep * z < x && before * (x * y) <= 2.0
    ensures after >= 0.0 && after * (y * z) < 2.0
  {
    var w, r := before * y, keep * z;
    var u, v := after * (y * z), before * (x * y);
    assert u == w * r && v == w * x && after >= 0.0;
    if before == 0.0 {
      assert u == 0.0;
    } else {
      var _ := Positive(before, y);
      var p := Positive(w, x - r);
      assert p == v - u;
    }
  }

  lemma Positive(x: real, y: real) returns (p: real)
    requires x > 0.0 && y > 0.0
    ensures p == x * y && p > 0.0
  {
    p := x * y;
  }

  // ---- The line rises, so the signal lags ----

  lemma {:induction false} SlowLosesMore(closes: seq<real>, fast: nat, slow: nat, m: nat, t: nat)
    requires Impulse(closes, m) && 1 <= fast < slow <= t < m
    ensures Loss(closes, slow, t) > Loss(closes, fast, t) >= 0.0
    decreases t
  {
    LossNonNegative(closes, fast, m, t);
    if t == slow {
      FirstSlowLoss(closes, fast, slow, m);
    } else {
      SlowLosesMore(closes, fast, slow, m, t - 1);
      NextLoss(closes, fast, m, t);
      NextLoss(closes, slow, m, t);
      AlphaFalls(fast, slow);
      KeepsMore(Loss(closes, fast, t - 1), Loss(closes, slow, t - 1), 1.0 - Alpha(fast), 1.0 - Alpha(slow),
                Loss(closes, fast, t), Loss(closes, slow, t));
    }
  }

  lemma FirstSlowLoss(closes: seq<real>, fast: nat, slow: nat, m: nat)
    requires Impulse(closes, m) && 1 <= fast < slow < m
    ensures Loss(closes, slow, slow) > Loss(closes, fast, slow)
  {
    LossBelow(closes, fast, m, slow);
    FirstLoss(closes, slow, m);
    Below(Loss(closes, fast, slow), Loss(closes, slow, slow), slow);
  }

  lemma LossNonNegative(closes: seq<real>, period: nat, m: nat, t: nat)
    requires Impulse(closes, m) && 1 <= period <= t < m
    ensures Loss(closes, period, t) >= 0.0
  {
    LossBelow(closes, period, m, t);
  }

  lemma Below(x: real, y: real, t: nat)
    requires t >= 1 && Scaled(x, t) < 2.0 && Scaled(y, t) == 2.0
    ensures x < y
  {
    CancelStrictly(x, y, t as real * (t + 1) as real);
  }

  lemma CancelStrictly(x: real, y: real, p: real)
    requires p > 0.0 && x * p < y * p
    ensures x < y
  {
    assert (y - x) * p == y * p - x * p;
    ProductPositive(y - x, p);
  }

  lemma KeepsMore(x: real, y: real, a: real, b: real, nextX: real, nextY: real)
    requires 0.0 <= x < y && 0.0 <= a < b && nextX == a * x && nextY == b * y
    ensures nextY > nextX
  {
    var p := Positive(b, y - x);
    assert p == b * y - b * x;
    assert (b - a) * x >= 0.0;
  }

  lemma LineRises(closes: seq<real>, fast: nat, slow: nat, m: nat, i: nat)
    requires Impulse(closes, m) && 1 <= fast < slow && 1 <= i && i + slow - 1 < m
    ensures |MacdLine(closes, fast, slow)| == |closes| - slow + 1
    ensures MacdLine(closes, fast, slow)[i - 1] < MacdLine(closes, fast, slow)[i]
  {
    SlowLosesMore(closes, fast, slow, m, i + slow - 1);
  }

  ghost predicate RisesTo(s: seq<real>, k: nat) {
    k <= |s| && forall i :: 1 <= i < k ==> s[i - 1] < s[i]
  }

  /** The mean of a rising series is below its last value. */
  lemma {:induction false} MeanBelowLast(s: seq<real>)
    requires s != [] && RisesTo(s, |s|)
    ensures Total(s) <= s[|s| - 1] * |s| as real
    ensures |s| > 1 ==> Total(s) < s[|s| - 1] * |s| as real
    decreases |s|
  {
    var n := |s| - 1;
    if n == 0 {
      assert s[..0] == [];
    } else {
      MeanBelowLast(s[..n]);
      LastTimes(Total(s[..n]), s[n - 1], s[n], n);
    }
  }

  lemma LastTimes(total: real, before: real, last: real, n: nat)
    requires n >= 1 && before < last && total <= before * n as real
    ensures total + last < last * (n + 1) as real
  {
    assert (last - before) * n as real > 0.0;
    assert last * (n + 1) as real == last * n as real + last;
  }

  lemma MeanBelow(total: real, last: real, n: real)
    requires n > 0.0 && total < last * n
    ensures total / n < last
  {
    var mean := total / n;
    assert mean * n == total;
    CancelStrictly(mean, last, n);
  }

  /** The average of a rising line stays behind it. */
  lemma {:induction false} SignalBehind(line: seq<real>, signal: nat, k: nat, j: nat)
    requires RisesTo(line, k) && 2 <= signal <= j + 1 && j < k
    ensures EmaAt(line, signal, j) < line[j]
    decreases j
  {
    if j + 1 == signal {
      MeanBelowLast(line[..signal]);
      MeanBelow(Total(line[..signal]), line[j], signal as real);
    } else {
      SignalBehind(line, signal, k, j - 1);
      AlphaFalls(1, signal);
      Behind(Alpha(signal), line[j], EmaAt(line, signal, j - 1));
    }
  }

  lemma Behind(alpha: real, x: real, e: real)
    requires 0.0 < alpha < 1.0 && e < x
    ensures alpha * x + (1.0 - alpha) * e < x
  {
    var p := Positive(1.0 - alpha, x - e);
    assert p == x - (alpha * x + (1.0 - alpha) * e);
  }

  // ---- One close before the window, one at its end ----

  function Spike(n: nat): seq<real> {
    seq(n, i => if i == 0 || i == n - 1 then 1.0 else 0.0)
  }

  /** On the full series the line is above its signal already before the last close: no cross up. */
  lemma NoCrossInFull(fast: nat, slow: nat, signal: nat, n: nat)
    requires 1 <= fast < slow && signal >= 2 && n > slow + signal
    ensures var cross := MacdCross(Spike(n), fast, slow, signal); cross.Some? && !cross.value.up
  {
    var s := Spike(n);
    var line := MacdLine(s, fast, slow);
    assert Impulse(s, n - 1);
    forall i | 1 <= i < n - slow
      ensures line[i - 1] < line[i]
    {
      LineRises(s, fast, slow, n - 1, i);
    }
    assert RisesTo(line, n - slow);
    SignalBehind(line, signal, n - slow, n - slow - 1);
  }

  lemma CrossInWindow(fast: nat, slow: nat, signal: nat, capacity: nat, n: nat)
    requires 1 <= fast < slow && signal >= 2 && slow + signal <= capacity < n
    ensures MacdCross(Tail(Spike(n), capacity), fast, slow, signal) == Some(Cross(true, false))
  {
    var w := Tail(Spike(n), capacity);
    assert w[|w| - 1] == 1.0;
    MacdCrossFollowsMove(w, fast, slow, signal, 0.0);
  }

  /** Equal averages, or a signal that is the line, never cross. */
  lemma NeverCrosses(closes: seq<real>, fast: nat, slow: nat, signal: nat)
    requires 1 <= fast <= slow && signal >= 1 && |closes| >= slow + signal && (fast == slow || signal == 1)
    ensures MacdCross(closes, fast, slow, signal) == Some(Cross(false, false))
  {
    var line, n := MacdLine(closes, fast, slow), |closes| - slow;
    assert |line| == n + 1;
    if signal == 1 {
      SignalIsLine(line, n);
      SignalIsLine(line, n - 1);
    } else {
      assert forall k :: 0 <= k <= n ==> line[k] == 0.0;
      EmaOfFlat(line, signal, n, 0.0);
      EmaOfFlat(line, signal, n - 1, 0.0);
    }
  }

  lemma SignalIsLine(line: seq<real>, j: nat)
    requires j < |line|
    ensures EmaAt(line, 1, j) == line[j]
  {
    assert Alpha(1) == 1.0;
    if j == 0 {
      assert line[..1][..0] == [] && Total(line[..1]) == line[0];
    }
  }

  /**
   On every series of length `n` a window decides as the full series does, exactly when the window holds
   the whole series, the series is too short to decide, or the parameters rule every cross out.
   */
  lemma MacdWindowExactly(fast: nat, slow: nat, signal: nat, capacity: nat, n: nat)
    requires 1 <= fast <= slow && signal >= 1
    ensures (forall closes: seq<real> :: |closes| == n ==>
              MacdCross(Tail(closes, capacity), fast, slow, signal) == MacdCross(closes, fast, slow, signal))
      <==> n <= capacity || n < slow + signal || (slow + signal <= capacity && (fast == slow || signal == 1))
  {
    if n > capacity && n >= slow + signal {
      var s := Spike(n);
      assert |s| == n;
      if capacity >= slow + signal {
        if fast == slow || signal == 1 {
          forall closes: seq<real> | |closes| == n
            ensures MacdCross(Tail(closes, capacity), fast, slow, signal) == MacdCross(closes, fast, slow, signal)
          {
            NeverCrosses(closes, fast, slow, signal);
            NeverCrosses(Tail(closes, capacity), fast, slow, signal);
          }
        } else {
          NoCrossInFull(fast, slow, signal, n);
          CrossInWindow(fast, slow, signal, capacity, n);
        }
      }
    }
  }

  // ---- The intents ----

  /** Every configured symbol has `n` closes. */
  ghost predicate AllOfLength(snap: Snapshot, symbols: seq<Symbol>, n: nat) {
    forall s :: s in symbols ==> s in snap.history && |snap.history[s]| == n
  }

  /** Every configured symbol has the same closes, nothing is held. */
  function Uniform(symbols: seq<Symbol>, closes: seq<real>): Snapshot {
    Snapshot(map[], map[], At(0), map s | s in symbols :: closes)
  }

  lemma {:induction false} SameCrossesSameIntents(b: BuiltIn, snap: Snapshot, other: Snapshot, symbols: seq<Symbol>)
    requires Configured(b) && b.MacdCrossing? && snap.positions == other.positions
    requires forall s :: s in symbols ==> s in snap.history && s in other.history
    requires forall s :: s in symbols ==> Acts(CrossOf(b, snap.history[s])) == Acts(CrossOf(b, other.history[s]))
    ensures CrossIntents(b, snap, symbols) == CrossIntents(b, other, symbols)
    decreases |symbols|
  {
    if symbols != [] {
      SameCrossesSameIntents(b, snap, other, symbols[..|symbols| - 1]);
    }
  }

  /** A cross that cannot be computed acts like none. */
  function Acts(cross: Option<Cross>): Cross {
    if cross.Some? then cross.value else Cross(false, false)
  }

  lemma FlatBook(b: BuiltIn, closes: seq<real>)
    requires Configured(b) && b.MacdCrossing? && b.symbols != []
    ensures Decision(b, Uniform(b.symbols, closes)) == [] <==> !Acts(CrossOf(b, closes)).up
  {
    var snap := Uniform(b.symbols, closes);
    var it := MarketIntent(b.symbols[0], Buy, b.quantity);
    CrossIntentsExactly(b, snap, b.symbols, it);
    assert b.symbols[0] in b.symbols;
    if Decision(b, snap) != [] {
      CrossIntentsExactly(b, snap, b.symbols, Decision(b, snap)[0]);
    }
  }

  /** Flat, and up at the last close. */
  function LastUp(n: nat): seq<real> {
    seq(n, i => if i == n - 1 then 1.0 else 0.0)
  }

  lemma FlatThenUp(fast: nat, slow: nat, signal: nat, n: nat)
    requires 1 <= fast < slow && signal >= 2 && n >= slow + signal
    ensures MacdCross(LastUp(n), fast, slow, signal) == Some(Cross(true, false))
  {
    MacdCrossFollowsMove(LastUp(n), fast, slow, signal, 0.0);
  }

  /** A series of length `n` that only one of window and full history answers with a buy. */
  lemma Telling(b: BuiltIn, capacity: nat, n: nat) returns (closes: seq<real>)
    requires Configured(b) && b.MacdCrossing?
    requires b.fast < b.slow && b.signal >= 2 && n > capacity && n >= b.slow + b.signal
    ensures |closes| == n && Acts(CrossOf(b, closes)).up != Acts(CrossOf(b, Tail(closes, capacity))).up
  {
    if capacity < b.slow + b.signal {
      closes := LastUp(n);
      FlatThenUp(b.fast, b.slow, b.signal, n);
    } else {
      closes := Spike(n);
      NoCrossInFull(b.fast, b.slow, b.signal, n);
      CrossInWindow(b.fast, b.slow, b.signal, capacity, n);
    }
  }

  /**
   The intents of MACD on histories of length `n`: a window of `capacity` closes is enough exactly when
   it holds them all, they are too few to decide, or the parameters rule every cross out.
   */
  lemma MacdIntentsExactly(b: BuiltIn, capacity: nat, n: nat)
    requires Configured(b) && b.MacdCrossing? && b.symbols != []
    ensures (forall snap: Snapshot :: AllOfLength(snap, b.symbols, n) ==>
              Decision(b, Bounded(snap, capacity)) == Decision(b, snap))
      <==> n <= capacity || n < b.slow + b.signal || b.fast == b.slow || b.signal == 1
  {
    if n > capacity && n >= b.slow + b.signal && b.fast < b.slow && b.signal >= 2 {
      var closes := Telling(b, capacity, n);
      var snap := Uniform(b.symbols, closes);
      assert Bounded(snap, capacity) == Uniform(b.symbols, Tail(closes, capacity));
      FlatBook(b, closes);
      FlatBook(b, Tail(closes, capacity));
      assert AllOfLength(snap, b.symbols, n);
    } else {
      forall snap: Snapshot | AllOfLength(snap, b.symbols, n)
        ensures Decision(b, Bounded(snap, capacity)) == Decision(b, snap)
      {
        forall s | s in b.symbols
          ensures Acts(CrossOf(b, snap.history[s])) == Acts(CrossOf(b, Tail(snap.history[s], capacity)))
        {
          SameActs(b, snap.history[s], capacity);
        }
        SameCrossesSameIntents(b, snap, Bounded(snap, capacity), b.symbols);
      }
    }
  }

  lemma SameActs(b: BuiltIn, closes: seq<real>, capacity: nat)
    requires Configured(b) && b.MacdCrossing?
    requires |closes| <= capacity || |closes| < b.slow + b.signal || b.fast == b.slow || b.signal == 1
    ensures Acts(CrossOf(b, closes)) == Acts(CrossOf(b, Tail(closes, capacity)))
  {
    if b.fast == b.slow || b.signal == 1 {
      if |closes| >= b.slow + b.signal {
        NeverCrosses(closes, b.fast, b.slow, b.signal);
      }
      if |Tail(closes, capacity)| >= b.slow + b.signal {
        NeverCrosses(Tail(closes, capacity), b.fast, b.slow, b.signal);
      }
    }
  }
}
