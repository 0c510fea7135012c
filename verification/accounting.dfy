/** Conservation of money in the backtest: cash, positions at cost, realized profit, costs. */
module Accounting {
  import opened Types
  import opened Sums
  import opened Portfolios
  import opened Orders
  import opened Brokers
  import opened Risk
  import opened Backtests
  import LookAhead

  // ---- The ledger of a list of fills ----

  /** The portfolio after the fills, refused ones left out. */
  function Replay(fills: seq<FillRecord>): Portfolio {
    if fills == [] then EMPTY else Book(Replay(fills[..|fills| - 1]), FillOfRecord(fills[|fills| - 1]))
  }

  function Cash(initial: real, fills: seq<FillRecord>): real {
    if fills == [] then initial else Cash(initial, fills[..|fills| - 1]) + Flow(fills[|fills| - 1])
  }

  predicate RefusedLast(fills: seq<FillRecord>)
    requires fills != []
  {
    ApplyFill(Replay(fills[..|fills| - 1]), FillOfRecord(fills[|fills| - 1])).Err?
  }

  /** What was cashed for sells the portfolio refused. */
  function RefusedNotional(fills: seq<FillRecord>): real {
    if fills == [] then 0.0
    else
      var before := RefusedNotional(fills[..|fills| - 1]);
      if RefusedLast(fills) then before + Notional(FillOfRecord(fills[|fills| - 1])) else before
  }

  ghost predicate NoneRefused(fills: seq<FillRecord>) {
    forall k :: 0 < k <= |fills| ==> !RefusedLast(fills[..k])
  }

  ghost predicate BuysUntaxed(fills: seq<FillRecord>) {
    forall i :: 0 <= i < |fills| ==> fills[i].side.Buy? ==> fills[i].tax == 0.0
  }

  lemma FlowSplits(f: FillRecord)
    requires f.side.Buy? ==> f.tax == 0.0
    ensures Flow(f) == -SignedNotional(FillOfRecord(f)) - f.commission - f.tax
  {
  }

  lemma LedgerStep(p: Portfolio, fill: Fill)
    requires Long(p) && fill.quantity > 0
    ensures
      var next := Book(p, fill);
      var moved := BookValue(next) - TotalRealizedPnl(next) - BookValue(p) + TotalRealizedPnl(p);
      if ApplyFill(p, fill).Ok? then moved == SignedNotional(fill)
      else moved == 0.0 && SignedNotional(fill) == -Notional(fill)
  {
    ApplyFillRow(p, fill);
    if ApplyFill(p, fill).Ok? {
      ApplyFillTotals(p, fill);
    }
  }

  lemma {:induction false} ReplayIsLong(fills: seq<FillRecord>)
    ensures Long(Replay(fills)) && forall s :: Held(Replay(fills), s) >= 0
    decreases |fills|
  {
    if fills != [] {
      ReplayIsLong(fills[..|fills| - 1]);
      BookKeepsLong(Replay(fills[..|fills| - 1]), FillOfRecord(fills[|fills| - 1]));
    }
  }

  /** Money is conserved over any fills; a refused sell is cash from nowhere. */
  lemma {:induction false} Conservation(initial: real, fills: seq<FillRecord>)
    requires BuysUntaxed(fills)
    ensures Cash(initial, fills) + BookValue(Replay(fills))
         == initial + TotalRealizedPnl(Replay(fills)) - Commissions(fills) - Taxes(fills) + RefusedNotional(fills)
    decreases |fills|
  {
    if fills != [] {
      var front, f := fills[..|fills| - 1], fills[|fills| - 1];
      assert BuysUntaxed(front);
      Conservation(initial, front);
      FlowSplits(f);
      ReplayIsLong(front);
      LedgerStep(Replay(front), FillOfRecord(f));
    }
  }

  lemma {:induction false} NoneRefusedMeansNothingExtra(fills: seq<FillRecord>)
    requires NoneRefused(fills)
    ensures RefusedNotional(fills) == 0.0
    decreases |fills|
  {
    if fills != [] {
      var front := fills[..|fills| - 1];
      assert fills[..|fills|] == fills;
      assert forall k :: 0 < k <= |front| ==> front[..k] == fills[..k];
      NoneRefusedMeansNothingExtra(front);
    }
  }

  lemma PositiveNotional(fill: Fill)
    requires fill.price > 0.0 && fill.quantity > 0
    ensures Notional(fill) > 0.0
  {
  }

  /** With positive prices, the extra term is zero exactly when no fill was refused. */
  lemma {:induction false} ExtraMeansRefused(fills: seq<FillRecord>)
    requires forall i :: 0 <= i < |fills| ==> fills[i].price > 0.0
    ensures RefusedNotional(fills) >= 0.0
    ensures RefusedNotional(fills) == 0.0 <==> NoneRefused(fills)
    decreases |fills|
  {
    if fills != [] {
      var front := fills[..|fills| - 1];
      ExtraMeansRefused(front);
      PositiveNotional(FillOfRecord(fills[|fills| - 1]));
      assert forall k :: 0 < k <= |front| ==> front[..k] == fills[..k];
      assert fills[..|fills|] == fills;
      if NoneRefused(front) && !RefusedLast(fills) {
        assert forall k :: 0 < k <= |fills| ==> k <= |front| || fills[..k] == fills;
      }
    }
  }

  // ---- The engine keeps the ledger ----

  predicate Priced(config: BacktestConfig, f: FillRecord) {
    var notional := f.quantity as real * f.price;
    && f.commission == notional * config.commissionRate
    && f.tax == if f.side.Sell? then notional * config.taxRate else 0.0
  }

  ghost predicate Ledger(config: BacktestConfig, e: Engine) {
    && e.portfolio == Replay(e.fills)
    && e.cash == Cash(config.initialCash, e.fills)
    && forall i :: 0 <= i < |e.fills| ==> Priced(config, e.fills[i])
  }

  lemma BookKeepsLedger(config: BacktestConfig, e: Engine, f: FillRecord)
    requires Ledger(config, e) && Priced(config, f)
    ensures Ledger(config, BookRecord(e, f))
  {
    assert (e.fills + [f])[..|e.fills|] == e.fills;
  }

  /** In particular in every state between two intents. */
  lemma {:induction false} IntentsKeepLedger(setup: Setup, e: Engine, bar: PriceBar, intents: seq<OrderIntent>)
    requires Ledger(setup.config, e)
    ensures Ledger(setup.config, OnIntents(setup, e, bar, intents))
    decreases |intents|
  {
    if intents != [] {
      var n := |intents| - 1;
      IntentsKeepLedger(setup, e, bar, intents[..n]);
      IntentKeepsLedger(setup, OnIntents(setup, e, bar, intents[..n]), bar, intents[n]);
    }
  }

  lemma IntentKeepsLedger(setup: Setup, e: Engine, bar: PriceBar, it: OrderIntent)
    requires Ledger(setup.config, e)
    ensures Ledger(setup.config, OnIntent(setup, e, bar, it))
  {
    var next := e.(orderSeq := e.orderSeq + 1);
    if !e.crashed {
      TradeKeepsLedger(setup, next, bar, Request(next.orderSeq, it));
    }
  }

  lemma TradeKeepsLedger(setup: Setup, e: Engine, bar: PriceBar, order: OrderRequest)
    requires Ledger(setup.config, e)
    ensures Ledger(setup.config, Trade(setup, e, bar, order))
  {
    var (venue, outcome) := Execute(setup.config, e.venue, bar, order);
    if outcome.Filled? {
      assert Priced(setup.config, outcome.record);
      BookKeepsLedger(setup.config, e.(venue := venue), outcome.record);
    }
  }

  lemma {:induction false} RunKeepsLedger(setup: Setup, venue: Venue, bars: seq<PriceBar>)
    ensures Ledger(setup.config, Run(setup, venue, bars))
    decreases |bars|
  {
    if bars != [] {
      var n := |bars| - 1;
      RunKeepsLedger(setup, venue, bars[..n]);
      var e := Run(setup, venue, bars[..n]);
      if !e.crashed {
        IntentsKeepLedger(setup, Quoted(setup, e, bars[n]), bars[n], Intents(setup, e, bars[n]));
      }
    }
  }

  /** In every engine state with a kept ledger, whatever the broker did. */
  lemma AccountingIdentity(config: BacktestConfig, e: Engine)
    requires Ledger(config, e)
    ensures e.cash + BookValue(e.portfolio)
         == config.initialCash + TotalRealizedPnl(e.portfolio) - Commissions(e.fills) - Taxes(e.fills)
            + RefusedNotional(e.fills)
    ensures NoneRefused(e.fills) ==> RefusedNotional(e.fills) == 0.0
  {
    Conservation(config.initialCash, e.fills);
    if NoneRefused(e.fills) {
      NoneRefusedMeansNothingExtra(e.fills);
    }
  }

  // ---- Equity ----

  function RowUnrealized(p: Portfolio, quotes: map<Symbol, Quote>, s: Symbol): real {
    if s in p.positions && s in quotes then
      p.positions[s].quantity as real * (quotes[s].lastPrice - p.positions[s].averagePrice)
    else 0.0
  }

  /** Quantity times the distance of the live quote from the average price, over the quoted rows. */
  ghost function Unrealized(p: Portfolio, quotes: map<Symbol, Quote>): real {
    Sum(p.positions.Keys, s => RowUnrealized(p, quotes, s))
  }

  lemma Apart(q: real, x: real, a: real)
    ensures q * (x - a) == q * x - q * a
    ensures q == 0.0 ==> q * (x - a) == 0.0
  {
  }

  lemma RowMarked(p: Portfolio, quotes: map<Symbol, Quote>, s: Symbol)
    requires s in p.positions && p.positions[s].quantity >= 0
    ensures RowUnrealized(p, quotes, s) == RowExposure(p, quotes, s) - RowCost(p, s)
  {
    var q, a := p.positions[s].quantity as real, p.positions[s].averagePrice;
    if p.positions[s].quantity == 0 {
      assert 0.0 * a == 0.0;
    }
    if s in quotes {
      Apart(q, quotes[s].lastPrice, a);
    }
  }

  lemma ExposureIsCostPlusUnrealized(p: Portfolio, quotes: map<Symbol, Quote>)
    requires Long(p)
    ensures GrossExposure(p, quotes) == BookValue(p) + Unrealized(p, quotes)
  {
    forall s | s in p.positions
      ensures RowUnrealized(p, quotes, s) == RowExposure(p, quotes, s) - RowCost(p, s)
    {
      RowMarked(p, quotes, s);
    }
    SumDifference(
      p.positions.Keys, s => RowExposure(p, quotes, s), s => RowCost(p, s), s => RowUnrealized(p, quotes, s));
  }

  lemma RunsShareCurve(setup: Setup, venue: Venue, bars: seq<PriceBar>, k: nat)
    requires k < |bars|
    ensures var full, part := Run(setup, venue, bars), Run(setup, venue, bars[..k + 1]);
      !part.crashed ==> |part.curve| == k + 1 && |full.curve| > k && full.curve[k] == part.curve[k]
  {
    assert bars == bars[..k + 1] + bars[k + 1..];
    LookAhead.CurveExtends(setup, venue, bars[..k + 1], bars[k + 1..]);
    LookAhead.OnePointPerBar(setup, venue, bars[..k + 1]);
  }

  /**
   Accounting conservation: the identity in the state after each bar, and the equity point of that
   bar, which is there unless the run has crashed, adds exactly the unrealized profit at live quotes.
   */
  lemma AccountingConservation(setup: Setup, venue: Venue, bars: seq<PriceBar>, k: nat)
    requires k < |bars|
    ensures var e := Run(setup, venue, bars[..k + 1]);
      var basis := setup.config.initialCash + TotalRealizedPnl(e.portfolio) - Commissions(e.fills) - Taxes(e.fills)
        + RefusedNotional(e.fills);
      && e.cash + BookValue(e.portfolio) == basis
      && (!e.crashed ==>
           && k < |Run(setup, venue, bars).curve|
           && Run(setup, venue, bars).curve[k].equity == basis + Unrealized(e.portfolio, e.quotes))
  {
    var e := Run(setup, venue, bars[..k + 1]);
    RunKeepsLedger(setup, venue, bars[..k + 1]);
    AccountingIdentity(setup.config, e);
    if !e.crashed {
      RunsShareCurve(setup, venue, bars, k);
      ReplayIsLong(e.fills);
      ExposureIsCostPlusUnrealized(e.portfolio, e.quotes);
      LastPoint(setup, venue, bars, k);
    }
  }

  lemma LastPoint(setup: Setup, venue: Venue, bars: seq<PriceBar>, k: nat)
    requires k < |bars|
    ensures var e := Run(setup, venue, bars[..k + 1]);
      !e.crashed ==> |e.curve| == k + 1 && e.curve[k].equity == e.cash + GrossExposure(e.portfolio, e.quotes)
  {
    OneMoreBar(setup, venue, bars, k);
    LookAhead.OnePointPerBar(setup, venue, bars[..k + 1]);
    ClosingPoint(setup, Run(setup, venue, bars[..k]), bars[k]);
  }

  lemma ClosingPoint(setup: Setup, e: Engine, bar: PriceBar)
    ensures var after := OnBar(setup, e, bar);
      !after.crashed ==>
        && |after.curve| > 0
        && after.curve[|after.curve| - 1].equity == after.cash + GrossExposure(after.portfolio, after.quotes)
  {
  }
}
