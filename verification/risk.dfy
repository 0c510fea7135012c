/** Pre-trade checks. The check order is part of the contract: the first failing check names the rejection. */
module Risk {
  import opened Types
  import opened Sums
  import opened Portfolios
  import opened Orders

  datatype RiskLimits = RiskLimits(
    maxOrderNotional: real, maxPositionQuantity: int, maxGrossExposure: real, dailyLossLimit: real,
    staleQuoteMaxAge: int)

  datatype RejectionReason =
    | KillSwitch
    | NoQuote
    | StaleMarketData
    | OrderNotionalExceeded
    | PositionQuantityExceeded
    | GrossExposureExceeded
    | DailyLossLimitExceeded

  function MarkPrice(p: Portfolio, quotes: map<Symbol, Quote>, s: Symbol): real
    requires s in p.positions
  {
    if s in quotes then quotes[s].lastPrice else p.positions[s].averagePrice
  }

  /** A row valued at its quote, or at its average price when there is none. */
  function RowExposure(p: Portfolio, quotes: map<Symbol, Quote>, s: Symbol): real {
    if s in p.positions && p.positions[s].quantity > 0 then
      p.positions[s].quantity as real * MarkPrice(p, quotes, s)
    else 0.0
  }

  ghost function GrossExposure(p: Portfolio, quotes: map<Symbol, Quote>): real {
    Sum(p.positions.Keys, s => RowExposure(p, quotes, s))
  }

  function CheckPrice(order: Order, quote: Quote): real {
    if order.limitPrice.Some? then order.limitPrice.value else quote.lastPrice
  }

  function OrderNotional(order: Order, quote: Quote): real {
    order.quantity as real * CheckPrice(order, quote)
  }

  ghost function CheckOrder(
    limits: RiskLimits, killed: bool, now: int, order: Order, p: Portfolio, quotes: map<Symbol, Quote>)
    : Result<real, RejectionReason>
  {
    if killed then Err(KillSwitch)
    else if order.symbol !in quotes then Err(NoQuote)
    else
      var quote := quotes[order.symbol];
      var notional := OrderNotional(order, quote);
      if now - quote.timestamp > limits.staleQuoteMaxAge then Err(StaleMarketData)
      else if notional > limits.maxOrderNotional then Err(OrderNotionalExceeded)
      else if order.side.Buy? && Held(p, order.symbol) + order.quantity > limits.maxPositionQuantity then
        Err(PositionQuantityExceeded)
      else if order.side.Buy? && GrossExposure(p, quotes) + notional > limits.maxGrossExposure then
        Err(GrossExposureExceeded)
      else if TotalRealizedPnl(p) < -limits.dailyLossLimit then Err(DailyLossLimitExceeded)
      else Ok(notional)
  }

  // ---- What each check says, and which one speaks ----

  /** The limit, or the last price for a market order, times the shares. */
  function AskedNotional(order: Order, quotes: map<Symbol, Quote>): real
    requires order.symbol in quotes
  {
    var price := match order.limitPrice case Some(limit) => limit case None => quotes[order.symbol].lastPrice;
    order.quantity as real * price
  }

  ghost predicate Violates(
    reason: RejectionReason, limits: RiskLimits, killed: bool, now: int, order: Order, p: Portfolio,
    quotes: map<Symbol, Quote>)
  {
    match reason
    case KillSwitch => killed
    case NoQuote => order.symbol !in quotes
    case StaleMarketData => order.symbol in quotes && quotes[order.symbol].timestamp + limits.staleQuoteMaxAge < now
    case OrderNotionalExceeded => order.symbol in quotes && limits.maxOrderNotional < AskedNotional(order, quotes)
    case PositionQuantityExceeded =>
      order.side.Buy? && limits.maxPositionQuantity < Held(p, order.symbol) + order.quantity
    case GrossExposureExceeded =>
      order.side.Buy? && order.symbol in quotes
      && limits.maxGrossExposure < GrossExposure(p, quotes) + AskedNotional(order, quotes)
    case DailyLossLimitExceeded => TotalRealizedPnl(p) + limits.dailyLossLimit < 0.0
  }

  function Turn(reason: RejectionReason): nat {
    match reason
    case KillSwitch => 0
    case NoQuote => 1
    case StaleMarketData => 2
    case OrderNotionalExceeded => 3
    case PositionQuantityExceeded => 4
    case GrossExposureExceeded => 5
    case DailyLossLimitExceeded => 6
  }

  /** The rejection names the first limit that is violated; an order that violates none passes with its notional. */
  lemma FirstViolation(
    limits: RiskLimits, killed: bool, now: int, order: Order, p: Portfolio, quotes: map<Symbol, Quote>,
    reason: RejectionReason)
    ensures CheckOrder(limits, killed, now, order, p, quotes) == Err(reason) <==>
      && Violates(reason, limits, killed, now, order, p, quotes)
      && forall other :: Turn(other) < Turn(reason) ==> !Violates(other, limits, killed, now, order, p, quotes)
    ensures CheckOrder(limits, killed, now, order, p, quotes).Ok? ==>
      && !Violates(reason, limits, killed, now, order, p, quotes)
      && order.symbol in quotes && CheckOrder(limits, killed, now, order, p, quotes) == Ok(AskedNotional(order, quotes))
  {
    assert order.symbol in quotes ==> AskedNotional(order, quotes) == OrderNotional(order, quotes[order.symbol]);
    assert Turn(KillSwitch) < Turn(NoQuote) < Turn(StaleMarketData) < Turn(OrderNotionalExceeded)
      < Turn(PositionQuantityExceeded) < Turn(GrossExposureExceeded) < Turn(DailyLossLimitExceeded);
  }

  /** Without quotes, rows count at their cost. */
  lemma UnquotedAtCost(p: Portfolio)
    requires Long(p)
    ensures GrossExposure(p, map[]) == BookValue(p)
  {
    forall s | s in p.positions
      ensures RowExposure(p, map[], s) == RowCost(p, s)
    {
      if p.positions[s].quantity == 0 {
        assert 0.0 * p.positions[s].averagePrice == 0.0;
      }
    }
    SumCongruence(p.positions.Keys, s => RowExposure(p, map[], s), s => RowCost(p, s));
  }

  method ComputeRow(p: Portfolio, quotes: map<Symbol, Quote>, s: Symbol) returns (value: real)
    requires s in p.positions
    ensures value == RowExposure(p, quotes, s)
  {
    var position := p.positions[s];
    if position.quantity <= 0 {
      return 0.0;
    }
    var price := if s in quotes then quotes[s].lastPrice else position.averagePrice;
    value := position.quantity as real * price;
  }

  /** The quote-valued exposure may be summed in any order. */
  method ComputeGrossExposure(p: Portfolio, quotes: map<Symbol, Quote>) returns (total: real)
    ensures total == GrossExposure(p, quotes)
  {
    total := 0.0;
    ghost var row := s => RowExposure(p, quotes, s);
    var keys := p.positions.Keys;
    while keys != {}
      invariant keys <= p.positions.Keys
      invariant total + Sum(keys, row) == Sum(p.positions.Keys, row)
      decreases keys
    {
      var s :| s in keys;
      SumRemove(keys, row, s);
      keys := keys - {s};
      var value := ComputeRow(p, quotes, s);
      total := total + value;
    }
  }

  lemma Revalue(held: int, delta: int, price: real)
    ensures (held + delta) as real * price == held as real * price + delta as real * price
  {
  }

  lemma RowAtQuote(p: Portfolio, quotes: map<Symbol, Quote>, s: Symbol, held: int)
    requires s in quotes && held == Held(p, s) && held >= 0
    ensures RowExposure(p, quotes, s) == held as real * quotes[s].lastPrice
  {
    if held == 0 {
      assert 0.0 * quotes[s].lastPrice == 0.0;
    }
  }

  lemma RowRevalued(p: Portfolio, next: Portfolio, moved: Symbol, delta: int, quotes: map<Symbol, Quote>)
    requires moved in quotes && Held(next, moved) == Held(p, moved) + delta
    requires Held(p, moved) >= 0 && Held(next, moved) >= 0
    ensures RowExposure(next, quotes, moved) - RowExposure(p, quotes, moved) == delta as real * quotes[moved].lastPrice
  {
    var held := Held(p, moved);
    RowAtQuote(p, quotes, moved, held);
    RowAtQuote(next, quotes, moved, held + delta);
    Revalue(held, delta, quotes[moved].lastPrice);
  }

  lemma RowMovesExposure(p: Portfolio, next: Portfolio, moved: Symbol, delta: int, quotes: map<Symbol, Quote>)
    requires moved in quotes
    requires next.positions.Keys == p.positions.Keys + {moved}
    requires forall s :: s in p.positions && s != moved ==> next.positions[s] == p.positions[s]
    requires Held(next, moved) == Held(p, moved) + delta && Held(p, moved) >= 0 && Held(next, moved) >= 0
    ensures GrossExposure(next, quotes) == GrossExposure(p, quotes) + delta as real * quotes[moved].lastPrice
  {
    SumUpdate(p.positions.Keys, s => RowExposure(p, quotes, s),
              next.positions.Keys, s => RowExposure(next, quotes, s), moved);
    RowRevalued(p, next, moved, delta, quotes);
  }

  /** A fill moves the exposure by its signed quantity at the live quote, whatever it paid. */
  lemma FillMovesExposure(p: Portfolio, fill: Fill, quotes: map<Symbol, Quote>)
    requires fill.quantity > 0 && Held(p, fill.symbol) >= 0
    requires ApplyFill(p, fill).Ok? && fill.symbol in quotes
    ensures GrossExposure(ApplyFill(p, fill).value, quotes)
         == GrossExposure(p, quotes) + SignedQuantity(fill) as real * quotes[fill.symbol].lastPrice
  {
    ApplyFillRow(p, fill);
    RowMovesExposure(p, ApplyFill(p, fill).value, fill.symbol, SignedQuantity(fill), quotes);
  }

  /** No position above the cap. */
  ghost predicate WithinCap(p: Portfolio, cap: int) {
    forall s :: Held(p, s) > 0 ==> Held(p, s) <= cap
  }

  lemma FillKeepsCap(p: Portfolio, fill: Fill, cap: int)
    requires Long(p) && fill.quantity > 0
    requires WithinCap(p, cap) && (fill.side.Buy? ==> Held(p, fill.symbol) + fill.quantity <= cap)
    ensures WithinCap(Book(p, fill), cap)
  {
    ApplyFillRow(p, fill);
    forall s | Held(Book(p, fill), s) > 0
      ensures Held(Book(p, fill), s) <= cap
    {
      if s != fill.symbol {
        assert s in Book(p, fill).positions <==> s in p.positions;
        assert Held(Book(p, fill), s) == Held(p, s);
      }
    }
  }

  /** Only the kill switch is state. */
  class RiskManager {
    const limits: RiskLimits
    var killed: bool
    var killReason: Option<string>

    constructor (limits: RiskLimits)
      ensures this.limits == limits && !killed && killReason == None
    {
      this.limits := limits;
      killed, killReason := false, None;
    }

    method ActivateKillSwitch(reason: string)
      modifies this
      ensures killed && killReason == Some(reason)
    {
      killed, killReason := true, Some(reason);
    }

    method DeactivateKillSwitch()
      modifies this
      ensures !killed && killReason == None
    {
      killed, killReason := false, None;
    }

    /** The switch as some other thread left it. */
    method TurnKillSwitch(on: bool)
      modifies this
      ensures killed == on
    {
      killed := on;
    }

    method Check(now: int, order: Order, p: Portfolio, quotes: map<Symbol, Quote>)
      returns (r: Result<real, RejectionReason>)
      ensures r == CheckOrder(limits, killed, now, order, p, quotes)
    {
      if killed {
        return Err(KillSwitch);
      }
      if order.symbol !in quotes {
        return Err(NoQuote);
      }
      var quote := quotes[order.symbol];
      if now - quote.timestamp > limits.staleQuoteMaxAge {
        return Err(StaleMarketData);
      }
      var price := if order.limitPrice.Some? then order.limitPrice.value else quote.lastPrice;
      var notional := order.quantity as real * price;
      assert notional == OrderNotional(order, quote);
      if notional > limits.maxOrderNotional {
        return Err(OrderNotionalExceeded);
      }
      var held := if order.symbol in p.positions then p.positions[order.symbol].quantity else 0;
      assert held == Held(p, order.symbol);
      if order.side == Buy {
        if held + order.quantity > limits.maxPositionQuantity {
          return Err(PositionQuantityExceeded);
        }
        var gross := ComputeGrossExposure(p, quotes);
        if gross + notional > limits.maxGrossExposure {
          return Err(GrossExposureExceeded);
        }
      }
      var realized := ComputeTotalRealizedPnl(p);
      if realized < -limits.dailyLossLimit {
        return Err(DailyLossLimitExceeded);
      }
      r := Ok(notional);
    }
  }
}
