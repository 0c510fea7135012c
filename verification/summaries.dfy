/** What the figures of a summary say about the run they sum up. */
module Summaries {
  import opened Types
  import opened Orders
  import opened Brokers
  import opened Sorting
  import opened Backtests
  import opened Metrics
  import opened Drawdowns
  import opened Fifo
  import opened SoldShares

  // ---- Costs ----

  function Paid(f: FillRecord): real {
    f.quantity as real * f.price
  }

  /** The money that changed hands: over all fills, or over the sells alone. */
  function Turnover(fills: seq<FillRecord>, sellsOnly: bool): real {
    if fills == [] then 0.0
    else
      var f := fills[|fills| - 1];
      Turnover(fills[..|fills| - 1], sellsOnly) + (if f.side.Buy? && sellsOnly then 0.0 else Paid(f))
  }

  /** A fill is charged the commission, a sell the tax as well. */
  predicate ChargedFill(config: BacktestConfig, f: FillRecord) {
    && f.commission == Paid(f) * config.commissionRate
    && f.tax == if f.side.Sell? then Paid(f) * config.taxRate else 0.0
  }

  ghost predicate Charged(config: BacktestConfig, fills: seq<FillRecord>) {
    forall i :: 0 <= i < |fills| ==> ChargedFill(config, fills[i])
  }

  lemma RecordIsCharged(config: BacktestConfig, order: OrderRequest, quantity: Shares, price: real, timestamp: int)
    ensures ChargedFill(config, Record(config, order, quantity, price, timestamp))
  {
  }

  lemma TradeCharges(setup: Setup, e: Engine, bar: PriceBar, order: OrderRequest)
    requires Charged(setup.config, e.fills)
    ensures Charged(setup.config, Trade(setup, e, bar, order).fills)
  {
    var outcome := Execute(setup.config, e.venue, bar, order).1;
    if outcome.Filled? {
      var f := outcome.record;
      RecordIsCharged(setup.config, order, f.quantity, f.price, bar.timestamp);
    }
  }

  lemma {:induction false} IntentsCharge(setup: Setup, e: Engine, bar: PriceBar, intents: seq<OrderIntent>)
    requires Charged(setup.config, e.fills)
    ensures Charged(setup.config, OnIntents(setup, e, bar, intents).fills)
    decreases |intents|
  {
    if intents != [] {
      var n := |intents| - 1;
      var before := OnIntents(setup, e, bar, intents[..n]);
      IntentsCharge(setup, e, bar, intents[..n]);
      TradeCharges(setup, before.(orderSeq := before.orderSeq + 1), bar, Request(before.orderSeq + 1, intents[n]));
    }
  }

  lemma {:induction false} RunCharges(setup: Setup, venue: Venue, bars: seq<PriceBar>)
    ensures Charged(setup.config, Run(setup, venue, bars).fills)
    decreases |bars|
  {
    if bars != [] {
      var n := |bars| - 1;
      var e := Run(setup, venue, bars[..n]);
      RunCharges(setup, venue, bars[..n]);
      IntentsCharge(setup, Quoted(setup, e, bars[n]), bars[n], Intents(setup, e, bars[n]));
    }
  }

  lemma {:induction false} CommissionsAddUp(config: BacktestConfig, fills: seq<FillRecord>)
    requires Charged(config, fills)
    ensures Commissions(fills) == Turnover(fills, false) * config.commissionRate
    decreases |fills|
  {
    if fills != [] {
      var front, f := fills[..|fills| - 1], fills[|fills| - 1];
      CommissionsAddUp(config, front);
      assert ChargedFill(config, f);
      OneMoreCharge(Commissions(front), Turnover(front, false), Paid(f), f.commission, config.commissionRate);
    }
  }

  lemma {:induction false} TaxesAddUp(config: BacktestConfig, fills: seq<FillRecord>)
    requires Charged(config, fills)
    ensures Taxes(fills) == Turnover(fills, true) * config.taxRate
    decreases |fills|
  {
    if fills != [] {
      var front, f := fills[..|fills| - 1], fills[|fills| - 1];
      TaxesAddUp(config, front);
      assert ChargedFill(config, f);
      var paid := if f.side.Buy? then 0.0 else Paid(f);
      OneMoreCharge(Taxes(front), Turnover(front, true), paid, f.tax, config.taxRate);
    }
  }

  lemma OneMoreCharge(charged: real, turnover: real, paid: real, charge: real, rate: real)
    requires charged == turnover * rate && charge == paid * rate
    ensures charged + charge == (turnover + paid) * rate
  {
  }

  // ---- Percentages ----

  lemma PercentTimes(part: real, whole: real)
    ensures Percent(part, whole) * whole == if whole == 0.0 then 0.0 else 100.0 * part
  {
    if whole != 0.0 {
      var x := part * 100.0;
      assert x / whole * whole == x;
    }
  }

  // ---- The summary of a run ----

  function Sells(fills: seq<FillRecord>): nat {
    if fills == [] then 0 else Sells(fills[..|fills| - 1]) + if fills[|fills| - 1].side.Sell? then 1 else 0
  }

  lemma {:induction false} OneTripPerSell(fills: seq<FillRecord>)
    ensures |TripPnls(fills)| == Sells(fills)
    decreases |fills|
  {
    if fills != [] {
      OneTripPerSell(fills[..|fills| - 1]);
    }
  }

  /** Trades are the sells, wins those that earned something, and the win rate is their share in percent. */
  ghost predicate TellsTrips(m: Summary, fills: seq<FillRecord>) {
    && m.trades == Sells(fills)
    && m.wins == CountPositive(Earnings(fills))
    && m.winRatePct == (if m.trades == 0 then 0.0 else 100.0 * m.wins as real / m.trades as real)
  }

  ghost predicate TellsReturn(m: Summary, initialCash: real, curve: seq<Point>) {
    && m.finalEquity == (if curve == [] then initialCash else curve[|curve| - 1].equity)
    && (if initialCash == 0.0 then m.returnPct == 0.0
        else m.returnPct * initialCash == 100.0 * (m.finalEquity - initialCash))
    && (NonNegative(initialCash, curve) ==> LargestFall(initialCash, curve, m.mddPct))
  }

  ghost predicate TellsCosts(m: Summary, config: BacktestConfig, fills: seq<FillRecord>) {
    && m.totalCommission == Turnover(fills, false) * config.commissionRate
    && m.totalTax == Turnover(fills, true) * config.taxRate
  }

  lemma TripsAreTold(m: Summary, fills: seq<FillRecord>)
    requires m.trades == RoundTrips(fills).trades && m.wins == RoundTrips(fills).wins
    requires m.winRatePct == Percent(m.wins as real, m.trades as real)
    ensures TellsTrips(m, fills)
  {
    TripsAreSells(fills);
    OneTripPerSell(fills);
    FirstInFirstOut(fills);
  }

  lemma ReturnOn(pct: real, equity: real, cash: real)
    requires pct == Percent(equity - cash, cash)
    ensures if cash == 0.0 then pct == 0.0 else pct * cash == 100.0 * (equity - cash)
  {
    PercentTimes(equity - cash, cash);
  }

  lemma ReturnIsTold(m: Summary, equity: real, initialCash: real, curve: seq<Point>)
    requires equity == if curve == [] then initialCash else curve[|curve| - 1].equity
    requires m.finalEquity == equity && m.returnPct == Percent(equity - initialCash, initialCash)
    requires m.mddPct == Drawdown(initialCash, curve)
    ensures TellsReturn(m, initialCash, curve)
  {
    ReturnOn(m.returnPct, equity, initialCash);
    if NonNegative(initialCash, curve) {
      DrawdownIsLargestFall(initialCash, curve);
    }
  }

  lemma CostsAreTold(m: Summary, config: BacktestConfig, fills: seq<FillRecord>)
    requires m.totalCommission == Commissions(fills) && m.totalTax == Taxes(fills) && Charged(config, fills)
    ensures TellsCosts(m, config, fills)
  {
    CommissionsAddUp(config, fills);
    TaxesAddUp(config, fills);
  }

  lemma ResultTells(config: BacktestConfig, result: BacktestResult)
    requires result.equity
      == if result.curve == [] then config.initialCash else result.curve[|result.curve| - 1].equity
    requires result.totalCommission == Commissions(result.fills) && result.totalTax == Taxes(result.fills)
    requires Charged(config, result.fills)
    ensures var m := Summarized(result, config.initialCash);
      && TellsTrips(m, SortBy(result.fills, FillTime))
      && TellsReturn(m, config.initialCash, result.curve)
      && TellsCosts(m, config, result.fills)
  {
    var m := Summarized(result, config.initialCash);
    TripsAreTold(m, SortBy(result.fills, FillTime));
    ReturnIsTold(m, result.equity, config.initialCash, result.curve);
    CostsAreTold(m, config, result.fills);
  }

  /**
   The summary of every run that completes: trades, wins and win rate count its sells in time order, the
   return is measured from the initial cash to the last point, the drawdown is the largest fall of the curve,
   and the costs are the rates on what changed hands.
   */
  lemma SummaryTells(setup: Setup, venue: Venue, bars: seq<PriceBar>)
    requires Backtest(setup, venue, bars).Some?
    ensures var result, cash := Backtest(setup, venue, bars).value, setup.config.initialCash;
      var m := Summarized(result, cash);
      && TellsTrips(m, SortBy(result.fills, FillTime))
      && TellsReturn(m, cash, result.curve)
      && TellsCosts(m, setup.config, result.fills)
  {
    RunCharges(setup, venue, SortBars(bars));
    ResultTells(setup.config, Backtest(setup, venue, bars).value);
  }
}
