/**
 The built-in strategies. Four of them act on an up or down cross of an indicator, the fifth ranks
 symbols by momentum. `Decision` is what they mean, the methods are the loops that compute it.
 */
module BuiltIns {
  import opened Types
  import opened Orders
  import opened Indicators
  import opened Strategies

  datatype BuiltIn =
    | SmaCrossing(symbols: seq<Symbol>, fast: nat, slow: nat, quantity: int)
    | RsiReversion(symbols: seq<Symbol>, period: nat, oversold: real, overbought: real, quantity: int)
    | DonchianBreakout(symbols: seq<Symbol>, period: nat, quantity: int)
    | MacdCrossing(symbols: seq<Symbol>, fast: nat, slow: nat, signal: nat, quantity: int)
    | MomentumRotation(symbols: seq<Symbol>, topN: nat, quantity: int)

  /** Parameters outside of this make the source panic, in a constructor or at the first long enough series. */
  predicate Configured(b: BuiltIn) {
    match b
    case SmaCrossing(_, fast, slow, _) => fast < slow
    case RsiReversion(_, _, _, _, _) => true
    case DonchianBreakout(_, period, _) => period >= 1
    case MacdCrossing(_, fast, slow, signal, _) => 1 <= fast <= slow && signal >= 1
    case MomentumRotation(_, _, _) => true
  }

  /** Buy when flat on an up cross, sell what is held, capped at the lot, on a down cross. */
  function Act(s: Symbol, cross: Cross, held: int, quantity: int): seq<OrderIntent> {
    if cross.up && held == 0 then [MarketIntent(s, Buy, quantity)]
    else if cross.down && held > 0 then [MarketIntent(s, Sell, Min(held, quantity))]
    else []
  }

  function CrossOf(b: BuiltIn, closes: seq<real>): Option<Cross>
    requires Configured(b) && !b.MomentumRotation?
  {
    match b
    case SmaCrossing(_, fast, slow, _) => SmaCross(closes, fast, slow)
    case RsiReversion(_, period, oversold, overbought, _) => RsiCross(closes, period, oversold, overbought)
    case DonchianBreakout(_, period, _) => DonchianCross(closes, period)
    case MacdCrossing(_, fast, slow, signal, _) => MacdCross(closes, fast, slow, signal)
  }

  function SymbolIntents(b: BuiltIn, snap: Snapshot, s: Symbol): seq<OrderIntent>
    requires Configured(b) && !b.MomentumRotation?
  {
    if s !in snap.history then []
    else
      match CrossOf(b, snap.history[s])
      case None => []
      case Some(cross) => Act(s, cross, HeldShares(snap, s), b.quantity)
  }

  function CrossIntents(b: BuiltIn, snap: Snapshot, symbols: seq<Symbol>): seq<OrderIntent>
    requires Configured(b) && !b.MomentumRotation?
  {
    if symbols == [] then []
    else CrossIntents(b, snap, symbols[..|symbols| - 1]) + SymbolIntents(b, snap, symbols[|symbols| - 1])
  }

  // ---- Momentum ----

  datatype Scored = Scored(symbol: Symbol, score: real)

  function ScoreOf(snap: Snapshot, s: Symbol): Option<real> {
    if s in snap.history then MomentumScore(snap.history[s]) else None
  }

  function Scores(snap: Snapshot, symbols: seq<Symbol>): seq<Scored> {
    if symbols == [] then []
    else
      var s := symbols[|symbols| - 1];
      var score := ScoreOf(snap, s);
      Scores(snap, symbols[..|symbols| - 1]) + (if score.Some? then [Scored(s, score.value)] else [])
  }

  /** Higher score first, ties by ticker. */
  predicate Ahead(a: Scored, b: Scored) {
    a.score > b.score || (a.score == b.score && a.symbol.ticker <= b.symbol.ticker)
  }

  function Insert(ranked: seq<Scored>, x: Scored): seq<Scored> {
    if ranked == [] then [x]
    else if Ahead(x, ranked[0]) then [x] + ranked
    else [ranked[0]] + Insert(ranked[1..], x)
  }

  function Rank(scores: seq<Scored>): seq<Scored> {
    if scores == [] then [] else Insert(Rank(scores[..|scores| - 1]), scores[|scores| - 1])
  }

  function Entries(snap: Snapshot, top: seq<Scored>, quantity: int): seq<OrderIntent> {
    if top == [] then []
    else
      var s := top[|top| - 1].symbol;
      Entries(snap, top[..|top| - 1], quantity)
      + (if HeldShares(snap, s) == 0 then [MarketIntent(s, Buy, quantity)] else [])
  }

  function Exits(snap: Snapshot, rest: seq<Scored>, quantity: int): seq<OrderIntent> {
    if rest == [] then []
    else
      var s := rest[|rest| - 1].symbol;
      var held := HeldShares(snap, s);
      Exits(snap, rest[..|rest| - 1], quantity)
      + (if held > 0 then [MarketIntent(s, Sell, Min(held, quantity))] else [])
  }

  function RotationIntents(snap: Snapshot, symbols: seq<Symbol>, topN: nat, quantity: int): seq<OrderIntent> {
    var ranked := Rank(Scores(snap, symbols));
    var k := Min(topN, |ranked|);
    Entries(snap, ranked[..k], quantity) + Exits(snap, ranked[k..], quantity)
  }

  function Decision(b: BuiltIn, snap: Snapshot): seq<OrderIntent>
    requires Configured(b)
  {
    if b.MomentumRotation? then RotationIntents(snap, b.symbols, b.topN, b.quantity)
    else CrossIntents(b, snap, b.symbols)
  }

  // ---- The loops ----

  method ComputeCross(b: BuiltIn, closes: seq<real>) returns (r: Option<Cross>)
    requires Configured(b) && !b.MomentumRotation?
    ensures r == CrossOf(b, closes)
  {
    match b
    case SmaCrossing(_, fast, slow, _) =>
      r := SmaCross(closes, fast, slow);
    case RsiReversion(_, period, oversold, overbought, _) =>
      var value := ComputeRsi(closes, period);
      r := if value.None? then None else Some(Cross(value.value < oversold, value.value > overbought));
    case DonchianBreakout(_, period, _) =>
      r := DonchianCross(closes, period);
    case MacdCrossing(_, fast, slow, signal, _) =>
      r := ComputeMacdCross(closes, fast, slow, signal);
  }

  method DecideOnSymbol(b: BuiltIn, snap: Snapshot, s: Symbol) returns (intents: seq<OrderIntent>)
    requires Configured(b) && !b.MomentumRotation?
    ensures intents == SymbolIntents(b, snap, s)
  {
    if s !in snap.history {
      return [];
    }
    var cross := ComputeCross(b, snap.history[s]);
    if cross.None? {
      return [];
    }
    var held := if s in snap.positions then snap.positions[s].quantity else 0;
    if cross.value.up && held == 0 {
      intents := [MarketIntent(s, Buy, b.quantity)];
    } else if cross.value.down && held > 0 {
      intents := [MarketIntent(s, Sell, Min(held, b.quantity))];
    } else {
      intents := [];
    }
  }

  method DecideOnCross(b: BuiltIn, snap: Snapshot) returns (intents: seq<OrderIntent>)
    requires Configured(b) && !b.MomentumRotation?
    ensures intents == Decision(b, snap)
  {
    intents := [];
    for i := 0 to |b.symbols|
      invariant intents == CrossIntents(b, snap, b.symbols[..i])
    {
      assert b.symbols[..i + 1][..i] == b.symbols[..i];
      var more := DecideOnSymbol(b, snap, b.symbols[i]);
      intents := intents + more;
    }
    assert b.symbols[..|b.symbols|] == b.symbols;
  }

  method DecideRotation(b: BuiltIn, snap: Snapshot) returns (intents: seq<OrderIntent>)
    requires b.MomentumRotation?
    ensures intents == Decision(b, snap)
  {
    var scores := ComputeScores(snap, b.symbols);
    var ranked := Rank(scores);
    var k := Min(b.topN, |ranked|);
    var top, rest := ranked[..k], ranked[k..];
    intents := [];
    for i := 0 to k
      invariant intents == Entries(snap, top[..i], b.quantity)
    {
      assert top[..i + 1][..i] == top[..i];
      if HeldShares(snap, top[i].symbol) == 0 {
        intents := intents + [MarketIntent(top[i].symbol, Buy, b.quantity)];
      }
    }
    assert top[..k] == top;
    ghost var entries := intents;
    for i := 0 to |rest|
      invariant intents == entries + Exits(snap, rest[..i], b.quantity)
    {
      assert rest[..i + 1][..i] == rest[..i];
      var held := HeldShares(snap, rest[i].symbol);
      if held > 0 {
        intents := intents + [MarketIntent(rest[i].symbol, Sell, Min(held, b.quantity))];
      }
    }
    assert rest[..|rest|] == rest;
  }

  method ComputeScores(snap: Snapshot, symbols: seq<Symbol>) returns (scores: seq<Scored>)
    ensures scores == Scores(snap, symbols)
  {
    scores := [];
    for i := 0 to |symbols|
      invariant scores == Scores(snap, symbols[..i])
    {
      assert symbols[..i + 1][..i] == symbols[..i];
      if symbols[i] in snap.history {
        var score := MomentumScore(snap.history[symbols[i]]);
        if score.Some? {
          scores := scores + [Scored(symbols[i], score.value)];
        }
      }
    }
    assert symbols[..|symbols|] == symbols;
  }
}
