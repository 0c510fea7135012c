/** What the indicators mean, apart from how they are computed. */
module Signals {
  import opened Types
  import opened Orders
  import opened Histories
  import opened Indicators
  import opened Strategies
  import opened BuiltIns

  // ---- Donchian ----

  lemma {:induction false} HighestBounds(s: seq<real>)
    requires s != []
    ensures forall i :: 0 <= i < |s| ==> Lowest(s) <= s[i] <= Highest(s)
    ensures Highest(s) in s && Lowest(s) in s
    decreases |s|
  {
    if |s| > 1 {
      HighestBounds(s[..|s| - 1]);
    }
  }

  /** A breakout leaves the whole channel behind: the newest close is beyond each of the `period` before it. */
  lemma DonchianBreaksChannel(closes: seq<real>, period: nat)
    requires 1 <= period < |closes|
    ensures var n := |closes| - 1;
      var cross := DonchianCross(closes, period);
      && cross.Some?
      && (cross.value.up <==> forall k :: n - period <= k < n ==> closes[k] < closes[n])
      && (cross.value.down <==> forall k :: n - period <= k < n ==> closes[k] > closes[n])
  {
    var n := |closes| - 1;
    var prior := closes[n - period..n];
    HighestBounds(prior);
    assert forall k :: n - period <= k < n ==> prior[k - (n - period)] == closes[k];
    assert forall i :: 0 <= i < period ==> prior[i] == closes[n - period + i];
  }

  // ---- RSI ----

  lemma {:induction false} NoGains(s: seq<real>)
    ensures Gains(s) == 0.0 <==> forall i :: 0 < i < |s| ==> s[i] <= s[i - 1]
    ensures Losses(s) == 0.0 <==> forall i :: 0 < i < |s| ==> s[i] >= s[i - 1]
    decreases |s|
  {
    if |s| >= 2 {
      NoGains(s[..|s| - 1]);
      GainsNonNegative(s[..|s| - 1]);
    }
  }

  lemma RsiOfExtremes(gain: real, loss: real)
    requires gain >= 0.0 && loss >= 0.0
    ensures RsiOf(gain, loss) == 100.0 <==> gain > 0.0 && loss == 0.0
    ensures RsiOf(gain, loss) == 0.0 <==> gain == 0.0 && loss > 0.0
  {
    if loss > 0.0 {
      var rs := gain / loss;
      assert rs * loss == gain;
      QuotientBound(gain, loss, 0.0);
      var y := 100.0 / (1.0 + rs);
      assert y * (1.0 + rs) == 100.0;
    }
  }

  lemma ScaledZero(x: real, n: real)
    requires n > 0.0
    ensures x / n == 0.0 <==> x == 0.0
  {
    assert x / n * n == x;
  }

  /** RSI is at its ends exactly on one-sided moves. */
  lemma RsiEnds(closes: seq<real>, period: nat)
    requires 1 <= period < |closes|
    ensures var tail, rsi := closes[|closes| - period - 1..], Rsi(closes, period);
      && rsi.Some?
      && (rsi.value == 100.0 <==>
           (forall i :: 0 < i < |tail| ==> tail[i] >= tail[i - 1]) &&
           exists i :: 0 < i < |tail| && tail[i] > tail[i - 1])
      && (rsi.value == 0.0 <==>
           (forall i :: 0 < i < |tail| ==> tail[i] <= tail[i - 1]) &&
           exists i :: 0 < i < |tail| && tail[i] < tail[i - 1])
  {
    var tail, n := closes[|closes| - period - 1..], period as real;
    NoGains(tail);
    GainsNonNegative(tail);
    ScaledZero(Gains(tail), n);
    ScaledZero(Losses(tail), n);
    QuotientBound(Gains(tail), n, 0.0);
    QuotientBound(Losses(tail), n, 0.0);
    RsiOfExtremes(Gains(tail) / n, Losses(tail) / n);
  }

  // ---- A move out of a flat market ----

  /** The last `n` closes before the newest one are all `c`. */
  predicate FlatBefore(closes: seq<real>, n: nat, c: real) {
    n < |closes| && forall k :: |closes| - 1 - n <= k < |closes| - 1 ==> closes[k] == c
  }

  lemma {:induction false} TotalOfFlat(s: seq<real>, c: real)
    requires forall i :: 0 <= i < |s| ==> s[i] == c
    ensures Total(s) == c * |s| as real
    decreases |s|
  {
    if s != [] {
      TotalOfFlat(s[..|s| - 1], c);
    }
  }

  lemma Divided(total: real, c: real, move: real, n: real)
    requires n > 0.0 && total == c * n + move
    ensures total / n == c + move / n
  {
    assert (c + move / n) * n == c * n + move / n * n;
  }

  lemma FlatMove(total: real, c: real, last: real, x: real, n: real)
    requires x >= 0.0 && n == x + 1.0 && total == c * x + last
    ensures total / n == c + (last - c) / n
  {
    assert c * n == c * x + c;
    Divided(total, c, last - c, n);
  }

  lemma FlatThenMove(front: seq<real>, last: real, c: real, n: nat)
    requires n == |front| + 1 && forall i :: 0 <= i < |front| ==> front[i] == c
    ensures Total(front + [last]) / n as real == c + (last - c) / n as real
  {
    TotalOfFlat(front, c);
    assert (front + [last])[..|front|] == front;
    FlatMove(Total(front + [last]), c, last, |front| as real, n as real);
  }

  lemma MeanOfFlat(s: seq<real>, c: real)
    requires s != [] && forall i :: 0 <= i < |s| ==> s[i] == c
    ensures Total(s) / |s| as real == c
  {
    TotalOfFlat(s, c);
    Divided(Total(s), c, 0.0, |s| as real);
  }

  lemma SmaOfFlat(closes: seq<real>, n: nat, c: real)
    requires 1 <= n && FlatBefore(closes, n, c)
    ensures Sma(closes, n) == Some(c + (closes[|closes| - 1] - c) / n as real)
    ensures Sma(closes[..|closes| - 1], n) == Some(c)
  {
    var m := |closes| - 1;
    var flat := closes[m - n..m];
    MeanOfFlat(flat, c);
    assert closes[..m][m - n..] == flat;
    FlatThenMove(closes[m + 1 - n..m], closes[m], c, n);
    assert closes[m + 1 - n..] == closes[m + 1 - n..m] + [closes[m]];
  }

  lemma FasterMovesMore(move: real, fast: real, slow: real)
    requires 0.0 < fast < slow
    ensures move > 0.0 ==> move / fast > move / slow
    ensures move < 0.0 ==> move / fast < move / slow
  {
    var f, s := move / fast, move / slow;
    assert f * fast == move && s * slow == move;
    assert (f - s) * fast == s * (slow - fast);
  }

  /** Out of a flat market, the averages cross in the direction of the first move. */
  lemma SmaCrossFollowsMove(closes: seq<real>, fast: nat, slow: nat, c: real)
    requires 1 <= fast < slow && FlatBefore(closes, slow, c)
    ensures SmaCross(closes, fast, slow) == Some(Cross(closes[|closes| - 1] > c, closes[|closes| - 1] < c))
  {
    SmaOfFlat(closes, fast, c);
    SmaOfFlat(closes, slow, c);
    FasterMovesMore(closes[|closes| - 1] - c, fast as real, slow as real);
  }

  lemma {:induction false} EmaOfFlat(closes: seq<real>, period: nat, t: nat, c: real)
    requires 1 <= period <= t + 1 && t < |closes| && forall k :: 0 <= k <= t ==> closes[k] == c
    ensures EmaAt(closes, period, t) == c
    decreases t
  {
    if t + 1 == period {
      TotalOfFlat(closes[..period], c);
      Divided(Total(closes[..period]), c, 0.0, period as real);
    } else {
      EmaOfFlat(closes, period, t - 1, c);
      assert Alpha(period) * c + (1.0 - Alpha(period)) * c == c;
    }
  }

  lemma EmaOfMove(closes: seq<real>, period: nat, c: real)
    requires 1 <= period < |closes| && forall k :: 0 <= k < |closes| - 1 ==> closes[k] == c
    ensures EmaAt(closes, period, |closes| - 1) == c + Alpha(period) * (closes[|closes| - 1] - c)
  {
    EmaOfFlat(closes, period, |closes| - 2, c);
    var a, x := Alpha(period), closes[|closes| - 1];
    assert a * x + (1.0 - a) * c == c + a * (x - c);
  }

  lemma AlphaFalls(fast: nat, slow: nat)
    requires 1 <= fast < slow
    ensures 1.0 >= Alpha(fast) > Alpha(slow) > 0.0
  {
    AlphaWithin(fast);
    FasterMovesMore(2.0, (fast + 1) as real, (slow + 1) as real);
    var a := Alpha(slow);
    assert a * (slow + 1) as real == 2.0;
  }

  lemma LineOfMove(closes: seq<real>, fast: nat, slow: nat, c: real)
    requires 1 <= fast < slow < |closes| && forall k :: 0 <= k < |closes| - 1 ==> closes[k] == c
    ensures var line, n := MacdLine(closes, fast, slow), |closes| - slow;
      && |line| == n + 1
      && (forall k :: 0 <= k < n ==> line[k] == 0.0)
      && line[n] == (Alpha(fast) - Alpha(slow)) * (closes[|closes| - 1] - c)
  {
    var n, a, b, move := |closes| - slow, Alpha(fast), Alpha(slow), closes[|closes| - 1] - c;
    forall k | 0 <= k < n
      ensures MacdLine(closes, fast, slow)[k] == 0.0
    {
      EmaOfFlat(closes, fast, k + slow - 1, c);
      EmaOfFlat(closes, slow, k + slow - 1, c);
    }
    EmaOfMove(closes, fast, c);
    EmaOfMove(closes, slow, c);
    assert a * move - b * move == (a - b) * move;
  }

  /** So does the MACD line its signal, when the signal averages at least two values. */
  lemma MacdCrossFollowsMove(closes: seq<real>, fast: nat, slow: nat, signal: nat, c: real)
    requires 1 <= fast < slow && signal >= 2 && |closes| >= slow + signal
    requires forall k :: 0 <= k < |closes| - 1 ==> closes[k] == c
    ensures MacdCross(closes, fast, slow, signal) == Some(Cross(closes[|closes| - 1] > c, closes[|closes| - 1] < c))
  {
    var line, n, move := MacdLine(closes, fast, slow), |closes| - slow, closes[|closes| - 1] - c;
    LineOfMove(closes, fast, slow, c);
    AlphaFalls(fast, slow);
    AlphaFalls(1, signal);
    SignalOfMove(line, signal);
    SignalLags(Alpha(signal), Alpha(fast) - Alpha(slow), move, line[n], EmaAt(line, signal, n));
  }

  lemma SignalOfMove(line: seq<real>, signal: nat)
    requires 1 <= signal < |line| && forall k :: 0 <= k < |line| - 1 ==> line[k] == 0.0
    ensures EmaAt(line, signal, |line| - 2) == 0.0
    ensures EmaAt(line, signal, |line| - 1) == Alpha(signal) * line[|line| - 1]
  {
    EmaOfFlat(line, signal, |line| - 2, 0.0);
    EmaOfMove(line, signal, 0.0);
  }

  /** A line that leaves zero leaves a lagging signal behind. */
  lemma SignalLags(alpha: real, factor: real, move: real, line: real, signal: real)
    requires 0.0 < alpha < 1.0 && factor > 0.0 && line == factor * move && signal == alpha * line
    ensures line > signal <==> move > 0.0
    ensures line < signal <==> move < 0.0
  {
    SameSign(factor, move);
    SameSign(1.0 - alpha, line);
    assert line - signal == (1.0 - alpha) * line;
  }

  lemma SameSign(factor: real, x: real)
    requires factor > 0.0
    ensures factor * x > 0.0 <==> x > 0.0
    ensures factor * x < 0.0 <==> x < 0.0
  {
    if x > 0.0 {
      assert factor * x > 0.0;
    } else {
      assert factor * (0.0 - x) >= 0.0;
    }
  }

  // ---- Which intents ----

  /** The order of a symbol: a lot of a flat one on an up cross, the holding, up to a lot, on a down cross. */
  predicate Asks(b: BuiltIn, snap: Snapshot, it: OrderIntent)
    requires Configured(b) && !b.MomentumRotation?
  {
    && it.symbol in snap.history
    && var cross, held := CrossOf(b, snap.history[it.symbol]), HeldShares(snap, it.symbol);
    && cross.Some?
    && ((cross.value.up && held == 0 && it == MarketIntent(it.symbol, Buy, b.quantity))
        || (cross.value.down && held > 0 && it == MarketIntent(it.symbol, Sell, Min(held, b.quantity))))
  }

  lemma SymbolAsks(b: BuiltIn, snap: Snapshot, s: Symbol, it: OrderIntent)
    requires Configured(b) && !b.MomentumRotation?
    ensures it in SymbolIntents(b, snap, s) <==> it.symbol == s && Asks(b, snap, it)
  {
  }

  /** A threshold strategy asks for exactly these orders, of the symbols it is configured with. */
  lemma {:induction false} CrossIntentsExactly(b: BuiltIn, snap: Snapshot, symbols: seq<Symbol>, it: OrderIntent)
    requires Configured(b) && !b.MomentumRotation?
    ensures it in CrossIntents(b, snap, symbols) <==> it.symbol in symbols && Asks(b, snap, it)
    decreases |symbols|
  {
    if symbols != [] {
      var n := |symbols| - 1;
      CrossIntentsExactly(b, snap, symbols[..n], it);
      SymbolAsks(b, snap, symbols[n], it);
      FrontAndLast(symbols);
    }
  }

  predicate Listed(list: seq<Scored>, s: Symbol) {
    exists i :: 0 <= i < |list| && list[i].symbol == s
  }

  lemma ListedAppend(front: seq<Scored>, x: Scored, s: Symbol)
    ensures Listed(front + [x], s) <==> Listed(front, s) || x.symbol == s
  {
    var all := front + [x];
    assert all[|front|] == x;
    if Listed(front, s) {
      var i :| 0 <= i < |front| && front[i].symbol == s;
      assert all[i].symbol == s;
    }
  }

  lemma {:induction false} RotationListsExactly(snap: Snapshot, list: seq<Scored>, q: int, it: OrderIntent)
    ensures it in Entries(snap, list, q) <==>
      Listed(list, it.symbol) && HeldShares(snap, it.symbol) == 0 && it == MarketIntent(it.symbol, Buy, q)
    ensures it in Exits(snap, list, q) <==>
      var held := HeldShares(snap, it.symbol);
      Listed(list, it.symbol) && held > 0 && it == MarketIntent(it.symbol, Sell, Min(held, q))
    decreases |list|
  {
    if list != [] {
      var n := |list| - 1;
      RotationListsExactly(snap, list[..n], q, it);
      ListedAppend(list[..n], list[n], it.symbol);
      assert list == list[..n] + [list[n]];
    }
  }

  /** The rotation buys exactly the flat symbols of the top and sells exactly the held symbols below it. */
  lemma RotationExactly(snap: Snapshot, symbols: seq<Symbol>, topN: nat, q: int, it: OrderIntent)
    ensures var ranked := Rank(Scores(snap, symbols));
      var k, held := Min(topN, |ranked|), HeldShares(snap, it.symbol);
      it in RotationIntents(snap, symbols, topN, q) <==>
        || (Listed(ranked[..k], it.symbol) && held == 0 && it == MarketIntent(it.symbol, Buy, q))
        || (Listed(ranked[k..], it.symbol) && held > 0 && it == MarketIntent(it.symbol, Sell, Min(held, q)))
  {
    var ranked := Rank(Scores(snap, symbols));
    var k := Min(topN, |ranked|);
    RotationListsExactly(snap, ranked[..k], q, it);
    RotationListsExactly(snap, ranked[k..], q, it);
  }

  // ---- In which order ----

  /** The symbols of `xs`, in this order, are among those of `ys`. */
  predicate Follows(xs: seq<Symbol>, ys: seq<Symbol>) {
    if xs == [] then true
    else if ys == [] then false
    else
      var m, n := |xs| - 1, |ys| - 1;
      (xs[m] == ys[n] && Follows(xs[..m], ys[..n])) || Follows(xs, ys[..n])
  }

  function SymbolsOf(intents: seq<OrderIntent>): seq<Symbol> {
    seq(|intents|, i requires 0 <= i < |intents| => intents[i].symbol)
  }

  function ScoredSymbols(list: seq<Scored>): seq<Symbol> {
    seq(|list|, i requires 0 <= i < |list| => list[i].symbol)
  }

  /** One more symbol, with one intent or none. */
  lemma FollowsOneMore(xs: seq<OrderIntent>, ys: seq<Symbol>, more: seq<OrderIntent>, s: Symbol)
    requires Follows(SymbolsOf(xs), ys) && |more| <= 1 && (more != [] ==> more[0].symbol == s)
    ensures Follows(SymbolsOf(xs + more), ys + [s])
  {
    assert (ys + [s])[..|ys|] == ys;
    if more == [] {
      assert xs + more == xs;
    } else {
      assert SymbolsOf(xs + more)[..|xs|] == SymbolsOf(xs);
    }
  }

  lemma {:induction false} FollowsJoin(xs: seq<Symbol>, ys: seq<Symbol>, us: seq<Symbol>, vs: seq<Symbol>)
    requires Follows(xs, ys) && Follows(us, vs)
    ensures Follows(xs + us, ys + vs)
    decreases |vs|
  {
    if vs == [] {
      assert us == [] && xs + us == xs && ys + vs == ys;
    } else {
      var n := |vs| - 1;
      assert (ys + vs)[..|ys| + n] == ys + vs[..n];
      if us != [] && us[|us| - 1] == vs[n] && Follows(us[..|us| - 1], vs[..n]) {
        FollowsJoin(xs, ys, us[..|us| - 1], vs[..n]);
        assert (xs + us)[..|xs + us| - 1] == xs + us[..|us| - 1];
      } else {
        FollowsJoin(xs, ys, us, vs[..n]);
      }
    }
  }

  /** A threshold strategy asks in the order of its configuration. */
  lemma {:induction false} CrossIntentsFollow(b: BuiltIn, snap: Snapshot, symbols: seq<Symbol>)
    requires Configured(b) && !b.MomentumRotation?
    ensures Follows(SymbolsOf(CrossIntents(b, snap, symbols)), symbols)
    decreases |symbols|
  {
    if symbols != [] {
      var n := |symbols| - 1;
      CrossIntentsFollow(b, snap, symbols[..n]);
      FollowsOneMore(CrossIntents(b, snap, symbols[..n]), symbols[..n], SymbolIntents(b, snap, symbols[n]), symbols[n]);
      FrontAndLast(symbols);
    }
  }

  lemma {:induction false} ListsFollow(snap: Snapshot, list: seq<Scored>, q: int)
    ensures Follows(SymbolsOf(Entries(snap, list, q)), ScoredSymbols(list))
    ensures Follows(SymbolsOf(Exits(snap, list, q)), ScoredSymbols(list))
    decreases |list|
  {
    if list != [] {
      var n, s := |list| - 1, list[|list| - 1].symbol;
      var held := HeldShares(snap, s);
      ListsFollow(snap, list[..n], q);
      FollowsOneMore(Entries(snap, list[..n], q), ScoredSymbols(list[..n]),
                     if held == 0 then [MarketIntent(s, Buy, q)] else [], s);
      FollowsOneMore(Exits(snap, list[..n], q), ScoredSymbols(list[..n]),
                     if held > 0 then [MarketIntent(s, Sell, Min(held, q))] else [], s);
      assert ScoredSymbols(list) == ScoredSymbols(list[..n]) + [s];
    }
  }

  /** The rotation asks in the order of its ranking, so it buys before it sells. */
  lemma RotationFollows(snap: Snapshot, symbols: seq<Symbol>, topN: nat, q: int)
    ensures Follows(SymbolsOf(RotationIntents(snap, symbols, topN, q)), ScoredSymbols(Rank(Scores(snap, symbols))))
  {
    var ranked := Rank(Scores(snap, symbols));
    var k := Min(topN, |ranked|);
    var top, rest := ranked[..k], ranked[k..];
    ListsFollow(snap, top, q);
    ListsFollow(snap, rest, q);
    FollowsJoin(SymbolsOf(Entries(snap, top, q)), ScoredSymbols(top),
                SymbolsOf(Exits(snap, rest, q)), ScoredSymbols(rest));
    SymbolsJoin(Entries(snap, top, q), Exits(snap, rest, q));
    ScoredCut(ranked, k);
  }

  lemma SymbolsJoin(xs: seq<OrderIntent>, ys: seq<OrderIntent>)
    ensures SymbolsOf(xs + ys) == SymbolsOf(xs) + SymbolsOf(ys)
  {
  }

  lemma ScoredCut(list: seq<Scored>, k: nat)
    requires k <= |list|
    ensures ScoredSymbols(list) == ScoredSymbols(list[..k]) + ScoredSymbols(list[k..])
  {
  }
}
