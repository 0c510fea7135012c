/** The decision interface: a strategy is a pure function of the market snapshot. */
module Strategies {
  import opened Types
  import opened Portfolios
  import opened Orders
  import opened Histories

  datatype AsOf = Session(prefix: string) | At(timestamp: int)

  datatype Snapshot = Snapshot(
    quotes: map<Symbol, Quote>, positions: map<Symbol, PositionState>, asOf: AsOf, history: Window)

  type Strategy = Snapshot -> seq<OrderIntent>

  function HeldShares(s: Snapshot, symbol: Symbol): int {
    if symbol in s.positions then s.positions[symbol].quantity else 0
  }

  function HeldIn(s: Snapshot): Symbol -> int {
    symbol => HeldShares(s, symbol)
  }

  /** At most one intent for each symbol. */
  ghost predicate OnePerSymbol(intents: seq<OrderIntent>) {
    forall i, j :: 0 <= i < j < |intents| ==> intents[i].symbol != intents[j].symbol
  }

  /** A single intent on each symbol, or buys alone. */
  ghost predicate Commuting(intents: seq<OrderIntent>) {
    forall i, j :: 0 <= i < j < |intents| && intents[i].symbol == intents[j].symbol ==>
      intents[i].side.Buy? && intents[j].side.Buy?
  }

  /** A market order that buys a full lot when flat, or sells what is held, capped at the lot. */
  predicate Fits(it: OrderIntent, held: int, q: int) {
    && it.orderType == OrderType.Market && it.limitPrice == None
    && (it.side.Buy? ==> held == 0 && it.quantity == q)
    && (it.side.Sell? ==> held > 0 && it.quantity == Min(held, q))
  }

  /** The position discipline shared by the built-in strategies: one fitting order per symbol. */
  ghost predicate Disciplined(intents: seq<OrderIntent>, held: Symbol -> int, q: int) {
    && OnePerSymbol(intents)
    && forall i :: 0 <= i < |intents| ==> Fits(intents[i], held(intents[i].symbol), q)
  }

  ghost predicate DisciplinedStrategy(strategy: Strategy, q: int) {
    forall s :: Disciplined(strategy(s), HeldIn(s), q)
  }

  // ---- Lots ----

  ghost predicate ZeroOrLot(p: Portfolio, q: int) {
    forall s :: Held(p, s) == 0 || Held(p, s) == q
  }

  /** A fill that opens a full lot on a flat symbol or closes one. */
  predicate LotFill(p: Portfolio, side: OrderSide, symbol: Symbol, quantity: int, q: int) {
    quantity == q && Held(p, symbol) == if side.Buy? then 0 else q
  }

  lemma LotFillBooks(p: Portfolio, fill: Fill, q: int)
    requires q > 0 && ZeroOrLot(p, q) && LotFill(p, fill.side, fill.symbol, fill.quantity, q)
    ensures ApplyFill(p, fill).Ok? && ZeroOrLot(Book(p, fill), q)
    ensures forall s :: s != fill.symbol ==> Held(Book(p, fill), s) == Held(p, s)
  {
    ApplyFillRow(p, fill);
    var next := Book(p, fill);
    forall s | s != fill.symbol
      ensures Held(next, s) == Held(p, s)
    {
      assert s in next.positions <==> s in p.positions;
    }
  }
}
