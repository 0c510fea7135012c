/**
 Position aggregation over fills: the weighted average shared by both position books,
 and the portfolio that is updated only by applying fills. Closed positions stay as rows
 with quantity zero, keeping their realized profit and a stale average. Quantities are signed as in
 the source, which checks them where orders are made and nowhere else.
 */
module Portfolios {
  import opened Types
  import opened Sums

  datatype DomainError =
    | NonPositiveQuantity
    | LimitNeedsPrice
    | MarketCarriesPrice
    | InsufficientPosition(requested: int, held: int)
    | DivisionByZero

  datatype Fill = Fill(clientOrderId: string, symbol: Symbol, side: OrderSide, quantity: int, price: real)

  datatype PositionState = PositionState(symbol: Symbol, quantity: int, averagePrice: real, realizedPnl: real)

  datatype Portfolio = Portfolio(positions: map<Symbol, PositionState>)

  const EMPTY := Portfolio(map[])

  function BlendedAverage(currentQty: int, currentAvg: real, addQty: int, addPrice: real): real
    requires currentQty + addQty != 0
  {
    (currentAvg * currentQty as real + addPrice * addQty as real) / (currentQty + addQty) as real
  }

  /** Blending moves no money: quantity times the new average is the old cost plus the new one. */
  lemma BlendConservesCost(currentQty: int, currentAvg: real, addQty: int, addPrice: real)
    requires currentQty + addQty != 0
    ensures BlendedAverage(currentQty, currentAvg, addQty, addPrice) * (currentQty + addQty) as real
         == currentAvg * currentQty as real + addPrice * addQty as real
  {
    var total := (currentQty + addQty) as real;
    assert total != 0.0;
    var cost := currentAvg * currentQty as real + addPrice * addQty as real;
    assert cost / total * total == cost;
  }

  /** A zero-quantity row contributes nothing: the blend forgets its stale average. */
  lemma BlendFromZero(staleAvg: real, addQty: int, addPrice: real)
    requires addQty != 0
    ensures BlendedAverage(0, staleAvg, addQty, addPrice) == addPrice
  {
    var q := addQty as real;
    assert staleAvg * 0.0 == 0.0;
    assert addPrice * q / q == addPrice;
  }

  function Held(p: Portfolio, symbol: Symbol): int {
    if symbol in p.positions then p.positions[symbol].quantity else 0
  }

  /** `DivisionByZero` stands for the panic of the average over no shares. */
  function ApplyFill(p: Portfolio, fill: Fill): Result<Portfolio, DomainError> {
    match fill.side
    case Buy =>
      if fill.symbol in p.positions && p.positions[fill.symbol].quantity + fill.quantity == 0 then Err(DivisionByZero)
      else
        var updated :=
          if fill.symbol in p.positions then
            var current := p.positions[fill.symbol];
            PositionState(
              fill.symbol,
              current.quantity + fill.quantity,
              BlendedAverage(current.quantity, current.averagePrice, fill.quantity, fill.price),
              current.realizedPnl)
          else
            PositionState(fill.symbol, fill.quantity, fill.price, 0.0);
        Ok(Portfolio(p.positions[fill.symbol := updated]))
    case Sell =>
      if fill.symbol !in p.positions then
        Err(InsufficientPosition(fill.quantity, 0))
      else
        var current := p.positions[fill.symbol];
        if current.quantity < fill.quantity then
          Err(InsufficientPosition(fill.quantity, current.quantity))
        else
          var realized := (fill.price - current.averagePrice) * fill.quantity as real;
          var updated := PositionState(
            fill.symbol,
            current.quantity - fill.quantity,
            current.averagePrice,
            current.realizedPnl + realized);
          Ok(Portfolio(p.positions[fill.symbol := updated]))
  }

  /** What the runtime and the engine do with a refused fill: keep the old portfolio. */
  function Book(p: Portfolio, fill: Fill): Portfolio {
    match ApplyFill(p, fill)
    case Ok(next) => next
    case Err(_) => p
  }

  /** No row is short: what fills of positive quantity keep. */
  ghost predicate Long(p: Portfolio) {
    forall s :: s in p.positions ==> p.positions[s].quantity >= 0
  }

  lemma BookKeepsLong(p: Portfolio, fill: Fill)
    requires Long(p) && fill.quantity > 0
    ensures Long(Book(p, fill)) && forall s :: Held(Book(p, fill), s) >= 0
  {
  }

  /** A fill of some shares is refused exactly when it oversells, and the error says by how much. */
  lemma RefusedExactly(p: Portfolio, fill: Fill)
    requires Long(p) && fill.quantity > 0
    ensures ApplyFill(p, fill).Err? <==> fill.side.Sell? && Held(p, fill.symbol) < fill.quantity
    ensures ApplyFill(p, fill).Err? ==>
      ApplyFill(p, fill).error == InsufficientPosition(fill.quantity, Held(p, fill.symbol))
  {
  }

  // ---- Row-wise quantities and their totals ----

  function RowCost(p: Portfolio, s: Symbol): real {
    if s in p.positions then p.positions[s].quantity as real * p.positions[s].averagePrice else 0.0
  }

  function RowRealized(p: Portfolio, s: Symbol): real {
    if s in p.positions then p.positions[s].realizedPnl else 0.0
  }

  /** Sum over the rows of quantity times average price. */
  ghost function BookValue(p: Portfolio): real {
    Sum(p.positions.Keys, s => RowCost(p, s))
  }

  ghost function TotalRealizedPnl(p: Portfolio): real {
    Sum(p.positions.Keys, s => RowRealized(p, s))
  }

  function Notional(fill: Fill): real {
    fill.quantity as real * fill.price
  }

  function SignedQuantity(fill: Fill): int {
    if fill.side.Buy? then fill.quantity else 0 - fill.quantity
  }

  function SignedNotional(fill: Fill): real {
    if fill.side.Buy? then Notional(fill) else -Notional(fill)
  }

  /**
   On the touched row, cost minus realized profit moves by exactly what the fill paid;
   no other row moves; and a fill is refused exactly when it is an oversell.
   */
  lemma ApplyFillRow(p: Portfolio, fill: Fill)
    requires fill.quantity > 0 && Held(p, fill.symbol) >= 0
    ensures ApplyFill(p, fill).Err? <==> fill.side.Sell? && Held(p, fill.symbol) < fill.quantity
    ensures ApplyFill(p, fill).Ok? ==>
      var next := ApplyFill(p, fill).value;
      && next.positions.Keys == p.positions.Keys + {fill.symbol}
      && (forall s :: s in p.positions && s != fill.symbol ==> next.positions[s] == p.positions[s])
      && Held(next, fill.symbol) == Held(p, fill.symbol) + SignedQuantity(fill)
      && RowCost(next, fill.symbol) - RowRealized(next, fill.symbol)
         == RowCost(p, fill.symbol) - RowRealized(p, fill.symbol) + SignedNotional(fill)
  {
    if fill.symbol in p.positions {
      var current := p.positions[fill.symbol];
      if fill.side.Buy? {
        BlendConservesCost(current.quantity, current.averagePrice, fill.quantity, fill.price);
      } else if fill.quantity <= current.quantity {
        var q, n, a := current.quantity as real, fill.quantity as real, current.averagePrice;
        assert (current.quantity - fill.quantity) as real == q - n;
        assert (q - n) * a - (fill.price - a) * n == q * a - n * fill.price;
      }
    }
  }

  /** The same law on the totals. */
  lemma ApplyFillTotals(p: Portfolio, fill: Fill)
    requires fill.quantity > 0 && Held(p, fill.symbol) >= 0 && ApplyFill(p, fill).Ok?
    ensures var next := ApplyFill(p, fill).value;
      BookValue(next) - TotalRealizedPnl(next) == BookValue(p) - TotalRealizedPnl(p) + SignedNotional(fill)
  {
    var next := ApplyFill(p, fill).value;
    ApplyFillRow(p, fill);
    SumUpdate(p.positions.Keys, s => RowCost(p, s), next.positions.Keys, s => RowCost(next, s), fill.symbol);
    SumUpdate(p.positions.Keys, s => RowRealized(p, s), next.positions.Keys, s => RowRealized(next, s), fill.symbol);
  }

  /** `total_realized_pnl`: the rows may be summed in any order. */
  method ComputeTotalRealizedPnl(p: Portfolio) returns (total: real)
    ensures total == TotalRealizedPnl(p)
  {
    total := 0.0;
    var keys := p.positions.Keys;
    while keys != {}
      invariant keys <= p.positions.Keys
      invariant total + Sum(keys, s => RowRealized(p, s)) == TotalRealizedPnl(p)
      decreases keys
    {
      var s :| s in keys;
      SumRemove(keys, s => RowRealized(p, s), s);
      total := total + p.positions[s].realizedPnl;
      keys := keys - {s};
    }
  }
}
