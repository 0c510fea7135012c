/** What the built-in strategies promise: the position discipline, and how much history they need. */
module StrategyProperties {
  import opened Types
  import opened Orders
  import opened Histories
  import opened Indicators
  import opened Strategies
  import opened BuiltIns

  ghost predicate Distinct(symbols: seq<Symbol>) {
    forall i, j :: 0 <= i < j < |symbols| ==> symbols[i] != symbols[j]
  }

  // ---- Discipline ----

  ghost predicate Covers(intents: seq<OrderIntent>, symbols: seq<Symbol>) {
    forall i :: 0 <= i < |intents| ==> intents[i].symbol in symbols
  }

  /** Orders on symbols that do not overlap may follow each other. */
  lemma JoinDisciplined(a: seq<OrderIntent>, b: seq<OrderIntent>, held: Symbol -> int, q: int)
    requires Disciplined(a, held, q) && Disciplined(b, held, q)
    requires forall i, j :: 0 <= i < |a| && 0 <= j < |b| ==> a[i].symbol != b[j].symbol
    ensures Disciplined(a + b, held, q)
  {
    var c := a + b;
    forall i, j | 0 <= i < j < |c|
      ensures c[i].symbol != c[j].symbol
    {
      if i < |a| <= j {
        assert c[i] == a[i] && c[j] == b[j - |a|];
      }
    }
  }

  lemma {:induction false} CrossDisciplined(b: BuiltIn, snap: Snapshot, symbols: seq<Symbol>)
    requires Configured(b) && !b.MomentumRotation? && Distinct(symbols)
    ensures Disciplined(CrossIntents(b, snap, symbols), HeldIn(snap), b.quantity)
    ensures Covers(CrossIntents(b, snap, symbols), symbols)
    decreases |symbols|
  {
    if symbols != [] {
      var n := |symbols| - 1;
      CrossDisciplined(b, snap, symbols[..n]);
      var front, last := CrossIntents(b, snap, symbols[..n]), SymbolIntents(b, snap, symbols[n]);
      assert |last| <= 1 && forall i :: 0 <= i < |last| ==> last[i].symbol == symbols[n];
      assert symbols[n] !in symbols[..n];
      JoinDisciplined(front, last, HeldIn(snap), b.quantity);
    }
  }

  /** The symbols of a scored list are distinct and within a set. */
  ghost predicate Names(list: seq<Scored>, names: set<Symbol>) {
    && (forall i, j :: 0 <= i < j < |list| ==> list[i].symbol != list[j].symbol)
    && (forall i :: 0 <= i < |list| ==> list[i].symbol in names)
  }

  ghost predicate Sorted(list: seq<Scored>) {
    forall i, j :: 0 <= i < j < |list| ==> Ahead(list[i], list[j])
  }

  lemma {:induction false} InsertPermutes(ranked: seq<Scored>, x: Scored)
    ensures multiset(Insert(ranked, x)) == multiset(ranked) + multiset{x}
    decreases |ranked|
  {
    if ranked != [] {
      assert ranked == [ranked[0]] + ranked[1..];
      InsertPermutes(ranked[1..], x);
    }
  }

  lemma {:induction false} InsertNames(ranked: seq<Scored>, x: Scored, names: set<Symbol>)
    requires Names(ranked, names) && x.symbol !in names
    ensures Names(Insert(ranked, x), names + {x.symbol})
    decreases |ranked|
  {
    if ranked != [] && !Ahead(x, ranked[0]) {
      var rest := names - {ranked[0].symbol};
      assert Names(ranked[1..], rest);
      InsertNames(ranked[1..], x, rest);
    }
  }

  lemma {:induction false} InsertSorts(ranked: seq<Scored>, x: Scored)
    requires Sorted(ranked)
    ensures Sorted(Insert(ranked, x))
    decreases |ranked|
  {
    if ranked != [] && !Ahead(x, ranked[0]) {
      var rest := Insert(ranked[1..], x);
      InsertSorts(ranked[1..], x);
      InsertPermutes(ranked[1..], x);
      forall y | y in rest
        ensures Ahead(ranked[0], y)
      {
        assert y in multiset(rest);
        assert y in ranked[1..] || y == x;
      }
    }
  }

  /** Ranking permutes the scores into order. */
  lemma {:induction false} RankPermutes(scores: seq<Scored>)
    ensures multiset(Rank(scores)) == multiset(scores)
    decreases |scores|
  {
    if scores != [] {
      var n := |scores| - 1;
      RankPermutes(scores[..n]);
      InsertPermutes(Rank(scores[..n]), scores[n]);
      assert scores == scores[..n] + [scores[n]];
    }
  }

  lemma {:induction false} RankSorts(scores: seq<Scored>, names: set<Symbol>)
    requires Names(scores, names)
    ensures Names(Rank(scores), names) && Sorted(Rank(scores))
    ensures multiset(Rank(scores)) == multiset(scores)
    decreases |scores|
  {
    RankPermutes(scores);
    if scores != [] {
      var n := |scores| - 1;
      var front, x := scores[..n], scores[n];
      var rest := names - {x.symbol};
      assert Names(front, rest) && rest + {x.symbol} == names;
      RankSorts(front, rest);
      InsertNames(Rank(front), x, rest);
      InsertSorts(Rank(front), x);
    }
  }

  lemma {:induction false} ScoresNamed(snap: Snapshot, symbols: seq<Symbol>)
    requires Distinct(symbols)
    ensures Names(Scores(snap, symbols), set s | s in symbols)
    decreases |symbols|
  {
    if symbols != [] {
      var n := |symbols| - 1;
      ScoresNamed(snap, symbols[..n]);
      assert symbols[n] !in symbols[..n];
    }
  }

  ghost predicate Within(intents: seq<OrderIntent>, names: set<Symbol>) {
    forall i :: 0 <= i < |intents| ==> intents[i].symbol in names
  }

  lemma {:induction false} EntriesDisciplined(snap: Snapshot, top: seq<Scored>, q: int, names: set<Symbol>)
    requires Names(top, names)
    ensures Disciplined(Entries(snap, top, q), HeldIn(snap), q) && Within(Entries(snap, top, q), names)
    decreases |top|
  {
    if top != [] {
      var n, s := |top| - 1, top[|top| - 1].symbol;
      EntriesDisciplined(snap, top[..n], q, names - {s});
      var last := if HeldShares(snap, s) == 0 then [MarketIntent(s, Buy, q)] else [];
      JoinDisciplined(Entries(snap, top[..n], q), last, HeldIn(snap), q);
    }
  }

  lemma {:induction false} ExitsDisciplined(snap: Snapshot, rest: seq<Scored>, q: int, names: set<Symbol>)
    requires Names(rest, names)
    ensures Disciplined(Exits(snap, rest, q), HeldIn(snap), q) && Within(Exits(snap, rest, q), names)
    decreases |rest|
  {
    if rest != [] {
      var n, s := |rest| - 1, rest[|rest| - 1].symbol;
      ExitsDisciplined(snap, rest[..n], q, names - {s});
      var held := HeldShares(snap, s);
      var last := if held > 0 then [MarketIntent(s, Sell, Min(held, q))] else [];
      JoinDisciplined(Exits(snap, rest[..n], q), last, HeldIn(snap), q);
    }
  }

  /** A ranking cut in two names two disjoint sets. */
  lemma CutNames(ranked: seq<Scored>, names: set<Symbol>, k: nat)
    requires Names(ranked, names) && k <= |ranked|
    ensures var top := set x | x in ranked[..k] :: x.symbol;
      Names(ranked[..k], top) && Names(ranked[k..], names - top)
  {
  }

  lemma RotationDisciplined(snap: Snapshot, symbols: seq<Symbol>, topN: nat, q: int)
    requires Distinct(symbols)
    ensures Disciplined(RotationIntents(snap, symbols, topN, q), HeldIn(snap), q)
  {
    var names := set s | s in symbols;
    ScoresNamed(snap, symbols);
    RankSorts(Scores(snap, symbols), names);
    var ranked := Rank(Scores(snap, symbols));
    var k := Min(topN, |ranked|);
    CutNames(ranked, names, k);
    var top := set x | x in ranked[..k] :: x.symbol;
    EntriesDisciplined(snap, ranked[..k], q, top);
    ExitsDisciplined(snap, ranked[k..], q, names - top);
    JoinDisciplined(Entries(snap, ranked[..k], q), Exits(snap, ranked[k..], q), HeldIn(snap), q);
  }

  /** All five built-in strategies are disciplined on every snapshot. */
  lemma BuiltInsAreDisciplined(b: BuiltIn, snap: Snapshot)
    requires Configured(b) && Distinct(b.symbols)
    ensures Disciplined(Decision(b, snap), HeldIn(snap), b.quantity)
  {
    if b.MomentumRotation? {
      RotationDisciplined(snap, b.symbols, b.topN, b.quantity);
    } else {
      CrossDisciplined(b, snap, b.symbols);
    }
  }

  /** The rotation buys only symbols that outrank, or tie by ticker with, every symbol it sells. */
  lemma RotationPrefersTheBest(snap: Snapshot, symbols: seq<Symbol>, topN: nat, x: nat, y: nat)
    requires Distinct(symbols)
    requires x < Min(topN, |Rank(Scores(snap, symbols))|) <= y < |Rank(Scores(snap, symbols))|
    ensures var ranked := Rank(Scores(snap, symbols));
      && ScoredBy(snap, symbols, ranked[x]) && ScoredBy(snap, symbols, ranked[y])
      && (ranked[x].score > ranked[y].score
          || (ranked[x].score == ranked[y].score && ranked[x].symbol.ticker <= ranked[y].symbol.ticker))
  {
    var scores := Scores(snap, symbols);
    var ranked := Rank(scores);
    ScoresNamed(snap, symbols);
    RankSorts(scores, set s | s in symbols);
    assert Ahead(ranked[x], ranked[y]);
    assert ranked[x] in multiset(scores) && ranked[y] in multiset(scores);
    ScoresAreScores(snap, symbols, ranked[x]);
    ScoresAreScores(snap, symbols, ranked[y]);
  }

  /** A configured symbol with the score of its closes. */
  predicate ScoredBy(snap: Snapshot, symbols: seq<Symbol>, x: Scored) {
    x.symbol in symbols && x.symbol in snap.history && MomentumScore(snap.history[x.symbol]) == Some(x.score)
  }

  lemma {:induction false} ScoresAreScores(snap: Snapshot, symbols: seq<Symbol>, x: Scored)
    requires x in Scores(snap, symbols)
    ensures ScoredBy(snap, symbols, x)
    decreases |symbols|
  {
    var n := |symbols| - 1;
    if x in Scores(snap, symbols[..n]) {
      ScoresAreScores(snap, symbols[..n], x);
    }
  }

  // ---- How much history is enough ----

  /** The number of closes a strategy looks at; MACD averages over all of them. */
  function Lookback(b: BuiltIn): nat {
    match b
    case SmaCrossing(_, _, slow, _) => slow + 1
    case RsiReversion(_, period, _, _, _) => period + 1
    case DonchianBreakout(_, period, _) => period + 1
    case MacdCrossing(_, _, slow, signal, _) => slow + signal
    case MomentumRotation(_, _, _) => 253
  }

  lemma TailOfTail(closes: seq<real>, capacity: nat, k: nat)
    requires k <= capacity && k <= |closes|
    ensures var w := Tail(closes, capacity); |w| >= k && w[|w| - k..] == closes[|closes| - k..]
  {
  }

  lemma SmaOnTail(closes: seq<real>, capacity: nat, period: nat)
    requires period <= capacity
    ensures Sma(Tail(closes, capacity), period) == Sma(closes, period)
  {
    if period <= |closes| {
      TailOfTail(closes, capacity, period);
    }
  }

  lemma PrefixOfTail(closes: seq<real>, capacity: nat)
    requires closes != [] && capacity > 0
    ensures var w := Tail(closes, capacity); w != [] && w[..|w| - 1] == Tail(closes[..|closes| - 1], |w| - 1)
  {
  }

  lemma SmaPrefixOnTail(closes: seq<real>, capacity: nat, period: nat)
    requires closes != [] && period < capacity && period < |closes|
    ensures var w := Tail(closes, capacity);
      w != [] && Sma(w[..|w| - 1], period) == Sma(closes[..|closes| - 1], period)
  {
    PrefixOfTail(closes, capacity);
    SmaOnTail(closes[..|closes| - 1], |Tail(closes, capacity)| - 1, period);
  }

  lemma SmaCrossOnTail(closes: seq<real>, capacity: nat, fast: nat, slow: nat)
    requires fast < slow < capacity
    ensures SmaCross(Tail(closes, capacity), fast, slow) == SmaCross(closes, fast, slow)
  {
    if slow < |closes| {
      SmaOnTail(closes, capacity, fast);
      SmaOnTail(closes, capacity, slow);
      SmaPrefixOnTail(closes, capacity, fast);
      SmaPrefixOnTail(closes, capacity, slow);
    }
  }

  lemma RsiOnTail(closes: seq<real>, capacity: nat, period: nat)
    requires period < capacity
    ensures Rsi(Tail(closes, capacity), period) == Rsi(closes, period)
  {
    if period < |closes| {
      TailOfTail(closes, capacity, period + 1);
    }
  }

  lemma DonchianOnTail(closes: seq<real>, capacity: nat, period: nat)
    requires 1 <= period < capacity
    ensures DonchianCross(Tail(closes, capacity), period) == DonchianCross(closes, period)
  {
    if period < |closes| {
      var w, n := Tail(closes, capacity), |closes| - 1;
      assert w[|w| - 1 - period..|w| - 1] == closes[n - period..n];
    }
  }

  lemma CrossOnTail(b: BuiltIn, closes: seq<real>, capacity: nat)
    requires Configured(b) && !b.MomentumRotation? && !b.MacdCrossing? && Lookback(b) <= capacity
    ensures CrossOf(b, Tail(closes, capacity)) == CrossOf(b, closes)
  {
    match b
    case SmaCrossing(_, fast, slow, _) => SmaCrossOnTail(closes, capacity, fast, slow);
    case RsiReversion(_, period, _, _, _) => RsiOnTail(closes, capacity, period);
    case DonchianBreakout(_, period, _) => DonchianOnTail(closes, capacity, period);
  }

  /** A history in which only the newest closes survive. */
  function Windowed(history: Window, capacity: nat): Window {
    map s | s in history :: Tail(history[s], capacity)
  }

  /** What a window holds after some closes were pushed into it. */
  function Pushed(closes: seq<(Symbol, real)>, capacity: nat): Window {
    if closes == [] then map[]
    else
      var (s, close) := closes[|closes| - 1];
      PushClose(Pushed(closes[..|closes| - 1], capacity), capacity, s, close)
  }

  /** All closes of every symbol. */
  function Collected(closes: seq<(Symbol, real)>): Window {
    if closes == [] then map[]
    else
      var before := Collected(closes[..|closes| - 1]);
      var (s, close) := closes[|closes| - 1];
      before[s := Closes(before, s) + [close]]
  }

  /** Pushing into a bounded window keeps the newest closes of the full history, symbol by symbol. */
  lemma {:induction false} PushedIsWindowed(closes: seq<(Symbol, real)>, capacity: nat)
    requires capacity > 0
    ensures Pushed(closes, capacity) == Windowed(Collected(closes), capacity)
    decreases |closes|
  {
    if closes != [] {
      var front := closes[..|closes| - 1];
      var (s, close) := closes[|closes| - 1];
      PushedIsWindowed(front, capacity);
      TailAppend(Closes(Collected(front), s), capacity, close);
    }
  }

  function Bounded(snap: Snapshot, capacity: nat): Snapshot {
    snap.(history := Windowed(snap.history, capacity))
  }

  lemma {:induction false} CrossIntentsBounded(b: BuiltIn, snap: Snapshot, symbols: seq<Symbol>, capacity: nat)
    requires Configured(b) && !b.MomentumRotation? && !b.MacdCrossing? && Lookback(b) <= capacity
    ensures CrossIntents(b, Bounded(snap, capacity), symbols) == CrossIntents(b, snap, symbols)
    decreases |symbols|
  {
    if symbols != [] {
      var s := symbols[|symbols| - 1];
      CrossIntentsBounded(b, snap, symbols[..|symbols| - 1], capacity);
      if s in snap.history {
        CrossOnTail(b, snap.history[s], capacity);
      }
    }
  }

  lemma {:induction false} ScoresBounded(snap: Snapshot, symbols: seq<Symbol>, capacity: nat)
    requires 253 <= capacity
    ensures Scores(Bounded(snap, capacity), symbols) == Scores(snap, symbols)
    decreases |symbols|
  {
    if symbols != [] {
      ScoresBounded(snap, symbols[..|symbols| - 1], capacity);
      var s := symbols[|symbols| - 1];
      if s in snap.history && |snap.history[s]| >= 253 {
        var closes, w := snap.history[s], Tail(snap.history[s], capacity);
        assert w[|w| - 22] == closes[|closes| - 22] && w[|w| - 253] == closes[|closes| - 253];
      }
    }
  }

  lemma {:induction false} RotationIgnoresHistory(snap: Snapshot, other: Snapshot, list: seq<Scored>, q: int)
    requires snap.positions == other.positions
    ensures Entries(snap, list, q) == Entries(other, list, q) && Exits(snap, list, q) == Exits(other, list, q)
    decreases |list|
  {
    if list != [] {
      RotationIgnoresHistory(snap, other, list[..|list| - 1], q);
    }
  }

  /** Bounded window is enough: the same intents as on the full history. */
  lemma BoundedWindowIsEnough(b: BuiltIn, snap: Snapshot, capacity: nat)
    requires Configured(b) && !b.MacdCrossing? && Lookback(b) <= capacity
    ensures Decision(b, Bounded(snap, capacity)) == Decision(b, snap)
  {
    if b.MomentumRotation? {
      ScoresBounded(snap, b.symbols, capacity);
      var ranked := Rank(Scores(snap, b.symbols));
      var k := Min(b.topN, |ranked|);
      RotationIgnoresHistory(Bounded(snap, capacity), snap, ranked[..k], b.quantity);
      RotationIgnoresHistory(Bounded(snap, capacity), snap, ranked[k..], b.quantity);
    } else {
      CrossIntentsBounded(b, snap, b.symbols, capacity);
    }
  }

  /** Fed through a bounded window, a strategy decides as on everything that was ever pushed. */
  lemma FedThroughWindow(b: BuiltIn, snap: Snapshot, closes: seq<(Symbol, real)>, capacity: nat)
    requires Configured(b) && !b.MacdCrossing? && Lookback(b) <= capacity
    ensures Decision(b, snap.(history := Pushed(closes, capacity))) == Decision(b, snap.(history := Collected(closes)))
  {
    PushedIsWindowed(closes, capacity);
    BoundedWindowIsEnough(b, snap.(history := Collected(closes)), capacity);
  }
}
