/**
 How many closes a built-in strategy needs: below its lookback it asks for nothing, and with that many
 closes it may. So the lookback is also the exact size of a window that is as good as the full history.
 */
module Thresholds {
  import opened Types
  import opened Portfolios
  import opened Indicators
  import opened Strategies
  import opened BuiltIns
  import opened StrategyProperties
  import opened Signals
  import opened MacdWindows

  /** Parameters that rule every order out, however long the series. */
  predicate Mute(b: BuiltIn) {
    b.symbols == [] ||
    match b
    case SmaCrossing(_, fast, _, _) => fast == 0
    case RsiReversion(_, period, oversold, overbought, _) => period == 0 || (oversold <= 0.0 && overbought >= 100.0)
    case DonchianBreakout(_, _, _) => false
    case MacdCrossing(_, fast, slow, signal, _) => fast == slow || signal == 1
    case MomentumRotation(_, _, _) => false
  }

  // ---- Silence ----

  ghost predicate AtMost(snap: Snapshot, symbols: seq<Symbol>, n: nat) {
    forall s :: s in symbols && s in snap.history ==> |snap.history[s]| <= n
  }

  /** No cross that acts: too few closes, or mute parameters. */
  lemma NoCross(b: BuiltIn, closes: seq<real>)
    requires Configured(b) && !b.MomentumRotation? && b.symbols != []
    requires |closes| < Lookback(b) || Mute(b)
    ensures CrossOf(b, closes).None? || CrossOf(b, closes) == Some(Cross(false, false))
  {
    match b
    case SmaCrossing(_, _, _, _) =>
    case RsiReversion(_, period, _, _, _) => RsiIsPercentage(closes, period);
    case DonchianBreakout(_, _, _) =>
    case MacdCrossing(_, fast, slow, signal, _) =>
      if |closes| >= slow + signal {
        NeverCrosses(closes, fast, slow, signal);
      }
  }

  lemma RsiIsPercentage(closes: seq<real>, period: nat)
    ensures var rsi := Rsi(closes, period); rsi.Some? ==> 0.0 <= rsi.value <= 100.0
  {
    if period > 0 && |closes| > period {
      var tail := closes[|closes| - period - 1..];
      GainsNonNegative(tail);
      MeansWithin(Gains(tail), Losses(tail), period as real);
    }
  }

  lemma MeansWithin(gains: real, losses: real, n: real)
    requires gains >= 0.0 && losses >= 0.0 && n > 0.0
    ensures gains / n >= 0.0 && losses / n >= 0.0 && 0.0 <= RsiOf(gains / n, losses / n) <= 100.0
  {
    QuotientBound(gains, n, 0.0);
    QuotientBound(losses, n, 0.0);
    RsiRange(gains / n, losses / n);
  }

  lemma {:induction false} NoCrossNoIntents(b: BuiltIn, snap: Snapshot, symbols: seq<Symbol>)
    requires Configured(b) && !b.MomentumRotation? && b.symbols != []
    requires forall s :: s in symbols && s in snap.history ==> |snap.history[s]| < Lookback(b) || Mute(b)
    ensures CrossIntents(b, snap, symbols) == []
    decreases |symbols|
  {
    if symbols != [] {
      var s := symbols[|symbols| - 1];
      NoCrossNoIntents(b, snap, symbols[..|symbols| - 1]);
      if s in snap.history {
        NoCross(b, snap.history[s]);
      }
    }
  }

  lemma {:induction false} NothingScores(snap: Snapshot, symbols: seq<Symbol>)
    requires AtMost(snap, symbols, 252)
    ensures Scores(snap, symbols) == []
    decreases |symbols|
  {
    if symbols != [] {
      NothingScores(snap, symbols[..|symbols| - 1]);
    }
  }

  /** Below its lookback a strategy asks for nothing, not even to sell what is held. */
  lemma ShortIsSilent(b: BuiltIn, snap: Snapshot, n: nat)
    requires Configured(b) && AtMost(snap, b.symbols, n) && (n < Lookback(b) || Mute(b))
    ensures Decision(b, snap) == []
  {
    if b.symbols == [] {
      assert Rank([]) == [];
    } else if b.MomentumRotation? {
      NothingScores(snap, b.symbols);
      assert Rank([]) == [];
    } else {
      NoCrossNoIntents(b, snap, b.symbols);
    }
  }

  // ---- A series that speaks ----

  /** Flat, and down at the last close. */
  function LastDown(n: nat): seq<real> {
    seq(n, i => if i == n - 1 then 0.0 else 1.0)
  }

  /** Every configured symbol with the same closes and the same shares. */
  function Alike(symbols: seq<Symbol>, closes: seq<real>, held: int): Snapshot {
    Snapshot(map[], map s | s in symbols :: PositionState(s, held, 1.0, 0.0), At(0), map s | s in symbols :: closes)
  }

  /** A history of `n` closes that makes the strategy ask for something. */
  function Telling(b: BuiltIn, n: nat): Snapshot {
    match b
    case SmaCrossing(symbols, _, _, _) => Alike(symbols, LastUp(n), 0)
    case RsiReversion(symbols, _, oversold, _, _) =>
      if oversold > 0.0 then Alike(symbols, LastDown(n), 0) else Alike(symbols, LastUp(n), 1)
    case DonchianBreakout(symbols, _, _) => Alike(symbols, LastUp(n), 0)
    case MacdCrossing(symbols, _, _, _, _) => Alike(symbols, LastUp(n), 0)
    case MomentumRotation(symbols, topN, _) => Alike(symbols, LastDown(n), if topN > 0 then 0 else 1)
  }

  lemma RsiAtTheEnds(n: nat, period: nat)
    requires 1 <= period < n
    ensures Rsi(LastUp(n), period) == Some(100.0) && Rsi(LastDown(n), period) == Some(0.0)
  {
    var up, down := LastUp(n)[n - period - 1..], LastDown(n)[n - period - 1..];
    RsiEnds(LastUp(n), period);
    RsiEnds(LastDown(n), period);
    assert up[period] > up[period - 1] && down[period] < down[period - 1];
  }

  /** Its cross acts on what is held. */
  lemma TellingCrosses(b: BuiltIn, n: nat)
    requires Configured(b) && !b.MomentumRotation? && !Mute(b) && n >= Lookback(b)
    ensures var snap, s := Telling(b, n), b.symbols[0];
      var cross := CrossOf(b, snap.history[s]);
      cross.Some? && (if HeldShares(snap, s) == 0 then cross.value.up else cross.value.down && HeldShares(snap, s) > 0)
  {
    match b
    case SmaCrossing(_, fast, slow, _) => SmaCrossFollowsMove(LastUp(n), fast, slow, 0.0);
    case RsiReversion(_, period, _, _, _) => RsiAtTheEnds(n, period);
    case DonchianBreakout(_, period, _) => DonchianBreaksChannel(LastUp(n), period);
    case MacdCrossing(_, fast, slow, signal, _) => FlatThenUp(fast, slow, signal, n);
  }

  lemma {:induction false} EveryoneScores(symbols: seq<Symbol>, all: seq<Symbol>, n: nat, held: int)
    requires n >= 253 && forall s :: s in symbols ==> s in all
    ensures |Scores(Alike(all, LastDown(n), held), symbols)| == |symbols|
    ensures forall x :: x in Scores(Alike(all, LastDown(n), held), symbols) ==> x.symbol in all
    decreases |symbols|
  {
    if symbols != [] {
      EveryoneScores(symbols[..|symbols| - 1], all, n, held);
    }
  }

  lemma RankKeeps(scores: seq<Scored>)
    ensures |Rank(scores)| == |scores| && forall x :: x in Rank(scores) <==> x in scores
  {
    RankPermutes(scores);
    assert |multiset(Rank(scores))| == |multiset(scores)|;
    assert forall x :: x in Rank(scores) <==> x in multiset(Rank(scores));
    assert forall x :: x in scores <==> x in multiset(scores);
  }

  /** A held symbol below the cut is sold, a flat one in the top is bought. */
  lemma RotationSpeaks(b: BuiltIn, n: nat)
    requires b.MomentumRotation? && b.symbols != [] && n >= 253
    ensures Decision(b, Telling(b, n)) != []
  {
    var snap := Telling(b, n);
    EveryoneScores(b.symbols, b.symbols, n, if b.topN > 0 then 0 else 1);
    var scores := Scores(snap, b.symbols);
    RankKeeps(scores);
    var ranked := Rank(scores);
    var k := Min(b.topN, |ranked|);
    if k > 0 {
      assert ranked[..k][k - 1] in ranked;
      assert Entries(snap, ranked[..k], b.quantity) != [];
    } else {
      assert ranked[k..] == ranked && ranked[|ranked| - 1] in ranked;
      assert Exits(snap, ranked[k..], b.quantity) != [];
    }
  }

  lemma LongMaySpeak(b: BuiltIn, n: nat)
    requires Configured(b) && !Mute(b) && n >= Lookback(b)
    ensures AllOfLength(Telling(b, n), b.symbols, n) && Decision(b, Telling(b, n)) != []
  {
    if b.MomentumRotation? {
      RotationSpeaks(b, n);
    } else {
      TellingCrosses(b, n);
      var last := b.symbols[|b.symbols| - 1];
      assert b.symbols[0] in b.symbols && last in b.symbols;
      assert SymbolIntents(b, Telling(b, n), last) != [];
    }
  }

  // ---- The exact thresholds ----

  /** No history of at most `n` closes makes a strategy ask for anything, exactly below its lookback. */
  lemma SilentExactly(b: BuiltIn, n: nat)
    requires Configured(b)
    ensures (forall snap: Snapshot :: AtMost(snap, b.symbols, n) ==> Decision(b, snap) == [])
      <==> n < Lookback(b) || Mute(b)
  {
    if n < Lookback(b) || Mute(b) {
      forall snap: Snapshot | AtMost(snap, b.symbols, n)
        ensures Decision(b, snap) == []
      {
        ShortIsSilent(b, snap, n);
      }
    } else {
      LongMaySpeak(b, n);
      assert AtMost(Telling(b, n), b.symbols, n);
    }
  }

  /**
   On histories of `n` closes a window of `capacity` is as good as all of them exactly when it holds them
   all, they are too few to decide, it reaches back as far as the strategy looks, or nothing is ever asked.
   */
  lemma WindowExactly(b: BuiltIn, capacity: nat, n: nat)
    requires Configured(b) && !b.MacdCrossing?
    ensures (forall snap: Snapshot :: AllOfLength(snap, b.symbols, n) ==>
              Decision(b, Bounded(snap, capacity)) == Decision(b, snap))
      <==> n <= capacity || n < Lookback(b) || Lookback(b) <= capacity || Mute(b)
  {
    if n <= capacity || n < Lookback(b) || Lookback(b) <= capacity || Mute(b) {
      forall snap: Snapshot | AllOfLength(snap, b.symbols, n)
        ensures Decision(b, Bounded(snap, capacity)) == Decision(b, snap)
      {
        WindowSuffices(b, snap, capacity, n);
      }
    } else {
      LongMaySpeak(b, n);
      assert AtMost(Bounded(Telling(b, n), capacity), b.symbols, capacity);
      ShortIsSilent(b, Bounded(Telling(b, n), capacity), capacity);
    }
  }

  lemma WindowSuffices(b: BuiltIn, snap: Snapshot, capacity: nat, n: nat)
    requires Configured(b) && !b.MacdCrossing? && AllOfLength(snap, b.symbols, n)
    requires n <= capacity || n < Lookback(b) || Lookback(b) <= capacity || Mute(b)
    ensures Decision(b, Bounded(snap, capacity)) == Decision(b, snap)
  {
    if Lookback(b) <= capacity {
      BoundedWindowIsEnough(b, snap, capacity);
    } else {
      ShortIsSilent(b, snap, n);
      ShortIsSilent(b, Bounded(snap, capacity), n);
    }
  }
}
