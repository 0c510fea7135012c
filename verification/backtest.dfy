/**
 The backtest engine: a sequential feed of bars, a strategy that sees completed closes only, and
 exact cash accounting. `Run` is the engine as a fold over the sorted bars, `BacktestEngine.RunBars`
 the loop that computes it.
 */
module Backtests {
  import opened Types
  import opened Portfolios
  import opened Orders
  import opened Brokers
  import opened Risk
  import opened Histories
  import opened Strategies
  import opened Sorting

  datatype PriceBar = PriceBar(symbol: Symbol, timestamp: int, close: real)

  datatype BacktestConfig = BacktestConfig(
    initialCash: real, commissionRate: real, taxRate: real, historyCapacity: nat)

  datatype FillRecord = FillRecord(
    clientOrderId: string, symbol: Symbol, side: OrderSide, quantity: Shares, price: real,
    commission: real, tax: real, timestamp: int)

  /** A risk manager over a run: its limits, and kill switch and clock as read at order number `n`. */
  datatype RiskGate = RiskGate(limits: RiskLimits, killed: nat -> bool, clock: nat -> int)

  /** `hooked`: the bar hook sets the mock venue's price to each bar's close. */
  datatype Setup = Setup(config: BacktestConfig, strategy: Strategy, risk: Option<RiskGate>, hooked: bool)

  datatype Point = Point(timestamp: int, equity: real)

  /** `crashed`: a broker call panicked, and the run with it. */
  datatype Engine = Engine(
    cash: real, portfolio: Portfolio, fills: seq<FillRecord>, curve: seq<Point>, quotes: map<Symbol, Quote>,
    history: Window, orderSeq: nat, venue: Venue, crashed: bool)

  // ---- The feed ----

  function BarTime(b: PriceBar): int {
    b.timestamp
  }

  function SortBars(bars: seq<PriceBar>): seq<PriceBar> {
    SortBy(bars, BarTime)
  }

  datatype FeedError = Lookahead(index: nat, cursor: nat)

  class BacktestFeed {
    const bars: seq<PriceBar>
    var cursor: nat

    ghost predicate Valid()
      reads this
    {
      cursor <= |bars|
    }

    constructor (bars: seq<PriceBar>)
      ensures Valid() && this.bars == SortBars(bars) && cursor == 0
    {
      this.bars, cursor := SortBars(bars), 0;
    }

    method Advance() returns (bar: Option<PriceBar>)
      requires Valid()
      modifies this
      ensures Valid()
      ensures bar == if old(cursor) < |bars| then Some(bars[old(cursor)]) else None
      ensures cursor == if old(cursor) < |bars| then old(cursor) + 1 else old(cursor)
    {
      if cursor >= |bars| {
        return None;
      }
      bar := Some(bars[cursor]);
      cursor := cursor + 1;
    }

    /** Only consumed bars are addressable. */
    method BarAt(index: nat) returns (r: Result<PriceBar, FeedError>)
      requires Valid()
      ensures r == if index < cursor then Ok(bars[index]) else Err(Lookahead(index, cursor))
    {
      if index >= cursor {
        return Err(Lookahead(index, cursor));
      }
      r := Ok(bars[index]);
    }
  }

  // ---- One intent ----

  function OrderId(n: nat): string {
    ClientId("bt", n)
  }

  /** `build_request`: no check of the shape. */
  function Request(n: nat, it: OrderIntent): OrderRequest {
    OrderRequest(OrderId(n), it.symbol, it.side, it.orderType, it.quantity, it.limitPrice)
  }

  ghost predicate Passing(setup: Setup, p: Portfolio, quotes: map<Symbol, Quote>, n: nat, it: OrderIntent) {
    match setup.risk
    case None => true
    case Some(gate) =>
      var shaped := NewOrder(OrderId(n), it);
      shaped.Ok? && CheckOrder(gate.limits, gate.killed(n), gate.clock(n), shaped.value, p, quotes).Ok?
  }

  function Record(
    config: BacktestConfig, order: OrderRequest, quantity: Shares, price: real, timestamp: int): FillRecord
  {
    var notional := quantity as real * price;
    FillRecord(order.clientOrderId, order.symbol, order.side, quantity, price,
               notional * config.commissionRate, if order.side.Sell? then notional * config.taxRate else 0.0,
               timestamp)
  }

  function FillOfRecord(f: FillRecord): Fill {
    Fill(f.clientOrderId, f.symbol, f.side, f.quantity, f.price)
  }

  /** What a fill does to cash. */
  function Flow(f: FillRecord): real {
    var notional := f.quantity as real * f.price;
    if f.side.Buy? then -notional - f.commission else notional - f.commission - f.tax
  }

  /** The fill is recorded and cashed even when the portfolio refuses it. */
  function BookRecord(e: Engine, f: FillRecord): Engine {
    e.(cash := e.cash + Flow(f), portfolio := Book(e.portfolio, FillOfRecord(f)), fills := e.fills + [f])
  }

  datatype Outcome = Nothing | Filled(record: FillRecord) | Crash

  /** Submit and read the report back: what was filled, if anything. */
  function Execute(config: BacktestConfig, v: Venue, bar: PriceBar, order: OrderRequest): (Venue, Outcome) {
    var (v1, ack) := SubmitOrder(v, order);
    if ack.Err? then (v1, if ack.error.Panicked? then Crash else Nothing)
    else
      var (v2, answer) := ReportOrder(v1, ack.value.brokerOrderId);
      if answer.Err? then (v2, if answer.error.Panicked? then Crash else Nothing)
      else if answer.value.filledQuantity <= 0 then (v2, Nothing)
      else
        var price := if answer.value.averageFillPrice.Some? then answer.value.averageFillPrice.value else bar.close;
        (v2, Filled(Record(config, order, answer.value.filledQuantity, price, bar.timestamp)))
  }

  function Trade(setup: Setup, e: Engine, bar: PriceBar, order: OrderRequest): Engine {
    var (venue, outcome) := Execute(setup.config, e.venue, bar, order);
    match outcome
    case Nothing => e.(venue := venue)
    case Crash => e.(venue := venue, crashed := true)
    case Filled(f) => BookRecord(e.(venue := venue), f)
  }

  ghost function OnIntent(setup: Setup, e: Engine, bar: PriceBar, it: OrderIntent): Engine {
    var n := e.orderSeq + 1;
    var next := e.(orderSeq := n);
    if e.crashed then e
    else if !Passing(setup, e.portfolio, e.quotes, n, it) then next
    else Trade(setup, next, bar, Request(n, it))
  }

  ghost function OnIntents(setup: Setup, e: Engine, bar: PriceBar, intents: seq<OrderIntent>): Engine {
    if intents == [] then e
    else OnIntent(setup, OnIntents(setup, e, bar, intents[..|intents| - 1]), bar, intents[|intents| - 1])
  }

  // ---- One bar ----

  function Hooked(v: Venue, bar: PriceBar): Venue {
    match v
    case MockVenue(b) => MockVenue(b.(prices := b.prices[bar.symbol := bar.close]))
    case OpenVenue(_, _) => v
  }

  /** The hook and the live quote, before the decision. */
  function Quoted(setup: Setup, e: Engine, bar: PriceBar): Engine {
    e.(venue := if setup.hooked then Hooked(e.venue, bar) else e.venue,
       quotes := e.quotes[bar.symbol := Quote(bar.symbol, bar.close, bar.timestamp)])
  }

  function View(e: Engine, bar: PriceBar): Snapshot {
    Snapshot(e.quotes, e.portfolio.positions, At(bar.timestamp), e.history)
  }

  function Intents(setup: Setup, e: Engine, bar: PriceBar): seq<OrderIntent> {
    setup.strategy(View(Quoted(setup, e, bar), bar))
  }

  /** The bar's close enters the history only after its decision; equity is cash plus marked positions. */
  ghost function Closed(setup: Setup, e: Engine, bar: PriceBar): Engine {
    e.(history := PushClose(e.history, setup.config.historyCapacity, bar.symbol, bar.close),
       curve := e.curve + [Point(bar.timestamp, e.cash + GrossExposure(e.portfolio, e.quotes))])
  }

  ghost function Traded(setup: Setup, e: Engine, bar: PriceBar): Engine {
    OnIntents(setup, Quoted(setup, e, bar), bar, Intents(setup, e, bar))
  }

  ghost function OnBar(setup: Setup, e: Engine, bar: PriceBar): Engine {
    if e.crashed then e
    else
      var traded := Traded(setup, e, bar);
      if traded.crashed then traded else Closed(setup, traded, bar)
  }

  function Start(setup: Setup, venue: Venue): Engine {
    Engine(setup.config.initialCash, EMPTY, [], [], map[], map[], 0, venue, false)
  }

  ghost function Run(setup: Setup, venue: Venue, sorted: seq<PriceBar>): Engine {
    if sorted == [] then Start(setup, venue)
    else OnBar(setup, Run(setup, venue, sorted[..|sorted| - 1]), sorted[|sorted| - 1])
  }

  datatype BacktestResult = BacktestResult(
    cash: real, totalCommission: real, totalTax: real, equity: real, curve: seq<Point>, fills: seq<FillRecord>)

  function Commissions(fills: seq<FillRecord>): real {
    if fills == [] then 0.0 else Commissions(fills[..|fills| - 1]) + fills[|fills| - 1].commission
  }

  function Taxes(fills: seq<FillRecord>): real {
    if fills == [] then 0.0 else Taxes(fills[..|fills| - 1]) + fills[|fills| - 1].tax
  }

  /** A crashed run has no result. */
  function ResultOf(setup: Setup, e: Engine): Option<BacktestResult> {
    if e.crashed then None
    else
      Some(BacktestResult(
        e.cash, Commissions(e.fills), Taxes(e.fills),
        if e.curve == [] then setup.config.initialCash else e.curve[|e.curve| - 1].equity, e.curve, e.fills))
  }

  ghost function Backtest(setup: Setup, venue: Venue, bars: seq<PriceBar>): Option<BacktestResult> {
    ResultOf(setup, Run(setup, venue, SortBars(bars)))
  }

  lemma OneMoreIntent(setup: Setup, e: Engine, bar: PriceBar, intents: seq<OrderIntent>, i: nat)
    requires i < |intents|
    ensures OnIntents(setup, e, bar, intents[..i + 1])
        == OnIntent(setup, OnIntents(setup, e, bar, intents[..i]), bar, intents[i])
  {
    assert intents[..i + 1][..i] == intents[..i];
  }

  lemma RunOneMore(setup: Setup, venue: Venue, bars: seq<PriceBar>, bar: PriceBar)
    ensures Run(setup, venue, bars + [bar]) == OnBar(setup, Run(setup, venue, bars), bar)
  {
    assert (bars + [bar])[..|bars|] == bars;
  }

  lemma OneMoreBar(setup: Setup, venue: Venue, bars: seq<PriceBar>, k: nat)
    requires k < |bars|
    ensures Run(setup, venue, bars[..k + 1]) == OnBar(setup, Run(setup, venue, bars[..k]), bars[k])
  {
    assert bars[..k + 1][..k] == bars[..k];
  }

  lemma CrashedStays(setup: Setup, e: Engine, bar: PriceBar, it: OrderIntent)
    requires e.crashed
    ensures OnIntent(setup, e, bar, it) == e
  {
  }

  /** After a crash nothing happens. */
  lemma {:induction false} CrashedIntents(setup: Setup, e: Engine, bar: PriceBar, intents: seq<OrderIntent>, i: nat)
    requires i <= |intents| && OnIntents(setup, e, bar, intents[..i]).crashed
    ensures OnIntents(setup, e, bar, intents) == OnIntents(setup, e, bar, intents[..i])
    decreases |intents|
  {
    if i < |intents| {
      var n := |intents| - 1;
      PrefixOfPrefix(intents, n, i);
      CrashedIntents(setup, e, bar, intents[..n], i);
      CrashedStays(setup, OnIntents(setup, e, bar, intents[..n]), bar, intents[n]);
    } else {
      assert intents[..i] == intents;
    }
  }

  lemma {:induction false} CrashedRun(setup: Setup, venue: Venue, past: seq<PriceBar>, later: seq<PriceBar>)
    ensures Run(setup, venue, past).crashed ==> Run(setup, venue, past + later) == Run(setup, venue, past)
    decreases |later|
  {
    if later == [] {
      assert past + later == past;
    } else {
      var n := |later| - 1;
      var whole := past + later[..n];
      assert past + later == whole + [later[n]];
      CrashedRun(setup, venue, past, later[..n]);
      RunOneMore(setup, venue, whole, later[n]);
    }
  }

  lemma CrashedFeed(setup: Setup, venue: Venue, bars: seq<PriceBar>, k: nat)
    requires k <= |bars|
    ensures Run(setup, venue, bars[..k]).crashed ==> Run(setup, venue, bars).crashed
  {
    var past, later := bars[..k], bars[k..];
    assert bars == past + later;
    CrashedRun(setup, venue, past, later);
  }

  // ---- The loop ----

  /** The engine's running totals. */
  datatype Totals = Totals(
    cash: real, portfolio: Portfolio, fills: seq<FillRecord>, orderSeq: nat, crashed: bool)

  /** The engine state that the totals and the venue stand for; the rest is as in `e`. */
  function WithTotals(e: Engine, t: Totals, venue: Venue): Engine {
    e.(cash := t.cash, portfolio := t.portfolio, fills := t.fills, orderSeq := t.orderSeq, venue := venue,
       crashed := t.crashed)
  }

  lemma TotalsAgain(e: Engine, t: Totals, venue: Venue, later: Totals, venueLater: Venue)
    ensures var once := WithTotals(e, t, venue);
      once.quotes == e.quotes && WithTotals(once, later, venueLater) == WithTotals(e, later, venueLater)
  {
  }

  /** The loop's variables hold the engine state `e`. */
  ghost predicate Tracks(
    e: Engine, t: Totals, curve: seq<Point>, quotes: map<Symbol, Quote>, history: Window, venue: Venue)
  {
    && e.cash == t.cash && e.portfolio == t.portfolio && e.fills == t.fills && e.orderSeq == t.orderSeq
    && e.curve == curve && e.quotes == quotes && e.history == history && e.venue == venue
    && e.crashed == t.crashed
  }

  class BacktestEngine {
    const setup: Setup
    const risk: Option<RiskManager>

    constructor (setup: Setup, risk: Option<RiskManager>)
      ensures this.setup == setup && this.risk == risk
    {
      this.setup, this.risk := setup, risk;
    }

    ghost function Guard(): set<object> {
      if risk.Some? then {risk.value} else {}
    }

    ghost predicate Gated() {
      && (risk.Some? <==> setup.risk.Some?)
      && (risk.Some? ==> risk.value.limits == setup.risk.value.limits)
      && setup.config.historyCapacity > 0
    }

    /** `preflight`: the shape check and the risk checks, when there is a risk manager. */
    method Passes(n: nat, it: OrderIntent, portfolio: Portfolio, quotes: map<Symbol, Quote>) returns (ok: bool)
      requires Gated()
      modifies Guard()
      ensures ok == Passing(setup, portfolio, quotes, n, it)
    {
      if risk.None? {
        return true;
      }
      var shaped := NewOrder(OrderId(n), it);
      if shaped.Err? {
        return false;
      }
      var gate := setup.risk.value;
      risk.value.TurnKillSwitch(gate.killed(n));
      var checked := risk.value.Check(gate.clock(n), shaped.value, portfolio, quotes);
      ok := checked.Ok?;
    }

    method FillAt(broker: Broker, bar: PriceBar, order: OrderRequest) returns (outcome: Outcome)
      modifies broker.Footprint()
      ensures (broker.View(), outcome) == Execute(setup.config, old(broker.View()), bar, order)
    {
      ghost var v := broker.View();
      var ack := broker.Submit(order);
      if ack.Err? {
        return if ack.error.Panicked? then Crash else Nothing;
      }
      ghost var v1 := broker.View();
      assert (v1, ack) == SubmitOrder(v, order);
      var answer := broker.Report(ack.value.brokerOrderId);
      assert (broker.View(), answer) == ReportOrder(v1, ack.value.brokerOrderId);
      if answer.Err? {
        return if answer.error.Panicked? then Crash else Nothing;
      }
      if answer.value.filledQuantity <= 0 {
        return Nothing;
      }
      var price := if answer.value.averageFillPrice.Some? then answer.value.averageFillPrice.value else bar.close;
      var quantity: Shares := answer.value.filledQuantity;
      var notional := quantity as real * price;
      var commission := notional * setup.config.commissionRate;
      var tax := if order.side == Sell then notional * setup.config.taxRate else 0.0;
      var record := FillRecord(
        order.clientOrderId, order.symbol, order.side, quantity, price, commission, tax, bar.timestamp);
      assert record == Record(setup.config, order, quantity, price, bar.timestamp);
      outcome := Filled(record);
    }

    /** One intent: preflight, submission, and the booking of what was filled. */
    method TradeIntent(
      ghost e: Engine, t: Totals, broker: Broker, bar: PriceBar, it: OrderIntent, quotes: map<Symbol, Quote>)
      returns (after: Totals)
      requires Gated() && !t.crashed
      requires e == WithTotals(e, t, broker.View()) && e.quotes == quotes
      modifies Guard(), broker.Footprint()
      ensures WithTotals(e, after, broker.View()) == OnIntent(setup, e, bar, it)
    {
      after := t.(orderSeq := t.orderSeq + 1);
      var passes := Passes(after.orderSeq, it, t.portfolio, quotes);
      if !passes {
        return;
      }
      ghost var next := e.(orderSeq := after.orderSeq);
      var outcome := FillAt(broker, bar, Request(after.orderSeq, it));
      assert OnIntent(setup, e, bar, it) == Trade(setup, next, bar, Request(after.orderSeq, it));
      match outcome
      case Nothing =>
      case Crash =>
        after := after.(crashed := true);
      case Filled(f) =>
        var applied := ApplyFill(t.portfolio, FillOfRecord(f));
        var portfolio := if applied.Ok? then applied.value else t.portfolio;
        after := Totals(t.cash + Flow(f), portfolio, t.fills + [f], after.orderSeq, false);
    }

    method TradeIntents(
      ghost e: Engine, t: Totals, broker: Broker, bar: PriceBar, intents: seq<OrderIntent>, quotes: map<Symbol, Quote>)
      returns (after: Totals)
      requires Gated() && !t.crashed
      requires e == WithTotals(e, t, broker.View()) && e.quotes == quotes
      modifies Guard(), broker.Footprint()
      ensures WithTotals(e, after, broker.View()) == OnIntents(setup, e, bar, intents)
    {
      after := t;
      for i := 0 to |intents|
        invariant !after.crashed
        invariant WithTotals(e, after, broker.View()) == OnIntents(setup, e, bar, intents[..i])
      {
        OneMoreIntent(setup, e, bar, intents, i);
        ghost var now, before, venue := OnIntents(setup, e, bar, intents[..i]), after, broker.View();
        TotalsAgain(e, before, venue, before, venue);
        after := TradeIntent(now, after, broker, bar, intents[i], quotes);
        TotalsAgain(e, before, venue, after, broker.View());
        if after.crashed {
          CrashedIntents(setup, e, bar, intents, i + 1);
          return;
        }
      }
      assert intents[..|intents|] == intents;
    }

    /** The hook, the live quote, the decision on completed closes, and the trades of one bar. */
    method TradeBar(
      ghost e: Engine, t: Totals, broker: Broker, history: HistoryWindow, bar: PriceBar, quotes0: map<Symbol, Quote>)
      returns (after: Totals, quotes: map<Symbol, Quote>)
      requires Gated() && !t.crashed
      requires Tracks(e, t, e.curve, quotes0, history.inner, broker.View())
      modifies Guard(), broker.Footprint()
      ensures Tracks(Traded(setup, e, bar), after, e.curve, quotes, history.inner, broker.View())
    {
      if setup.hooked && broker.Mock? {
        broker.mock.SetPrice(bar.symbol, bar.close);
      }
      quotes := quotes0[bar.symbol := Quote(bar.symbol, bar.close, bar.timestamp)];
      ghost var quoted := Quoted(setup, e, bar);
      assert Tracks(quoted, t, e.curve, quotes, history.inner, broker.View());
      var snapshot := Snapshot(quotes, t.portfolio.positions, At(bar.timestamp), history.inner);
      var intents := setup.strategy(snapshot);
      after := TradeIntents(quoted, t, broker, bar, intents, quotes);
    }

    /** Only after the decision the close joins the history; the equity point marks the open positions. */
    method CloseBar(
      ghost e: Engine, t: Totals, history: HistoryWindow, bar: PriceBar, curve0: seq<Point>,
      quotes: map<Symbol, Quote>)
      returns (curve: seq<Point>)
      requires history.capacity == setup.config.historyCapacity
      requires Tracks(e, t, curve0, quotes, history.inner, e.venue)
      modifies history
      ensures Tracks(Closed(setup, e, bar), t, curve, quotes, history.inner, e.venue)
    {
      history.Push(bar.symbol, bar.close);
      var openValue := ComputeGrossExposure(t.portfolio, quotes);
      curve := curve0 + [Point(bar.timestamp, t.cash + openValue)];
    }

    method ProcessBar(
      ghost e: Engine, t: Totals, broker: Broker, history: HistoryWindow, bar: PriceBar, curve0: seq<Point>,
      quotes0: map<Symbol, Quote>)
      returns (after: Totals, curve: seq<Point>, quotes: map<Symbol, Quote>)
      requires Gated() && !t.crashed && history.capacity == setup.config.historyCapacity
      requires Tracks(e, t, curve0, quotes0, history.inner, broker.View())
      modifies Guard(), broker.Footprint(), history
      ensures Tracks(OnBar(setup, e, bar), after, curve, quotes, history.inner, broker.View())
    {
      ghost var traded := Traded(setup, e, bar);
      curve := curve0;
      after, quotes := TradeBar(e, t, broker, history, bar, quotes0);
      if !after.crashed {
        curve := CloseBar(traded, after, history, bar, curve0, quotes);
      }
    }

    /** None where a broker call panics. */
    method RunBars(bars: seq<PriceBar>, broker: Broker) returns (result: Option<BacktestResult>)
      requires Gated()
      modifies Guard(), broker.Footprint()
      ensures result == Backtest(setup, old(broker.View()), bars)
    {
      var feed := new BacktestFeed(bars);
      var history := new HistoryWindow(setup.config.historyCapacity);
      result := DrainFeed(feed, history, broker);
    }

    method DrainFeed(feed: BacktestFeed, history: HistoryWindow, broker: Broker)
      returns (result: Option<BacktestResult>)
      requires Gated() && history.inner == map[] && history.capacity == setup.config.historyCapacity
      requires feed.cursor == 0 && feed !in broker.Footprint() && history !in broker.Footprint()
      modifies Guard(), feed, history, broker.Footprint()
      ensures result == ResultOf(setup, Run(setup, old(broker.View()), feed.bars))
    {
      ghost var venue, seen := broker.View(), [];
      ghost var e := Start(setup, venue);
      var t, curve := Totals(setup.config.initialCash, EMPTY, [], 0, false), [];
      var quotes: map<Symbol, Quote> := map[];
      while feed.cursor < |feed.bars|
        invariant feed.Valid() && !t.crashed
        invariant seen == feed.bars[..feed.cursor] && e == Run(setup, venue, seen)
        invariant Tracks(e, t, curve, quotes, history.inner, broker.View())
        decreases |feed.bars| - feed.cursor
      {
        PrefixGrows(feed.bars, feed.cursor);
        var bar := feed.Advance();
        RunOneMore(setup, venue, seen, bar.value);
        ghost var next := OnBar(setup, e, bar.value);
        t, curve, quotes := ProcessBar(e, t, broker, history, bar.value, curve, quotes);
        e, seen := next, seen + [bar.value];
        if t.crashed {
          CrashedFeed(setup, venue, feed.bars, feed.cursor);
          return None;
        }
      }
      assert seen == feed.bars;
      result := Conclude(e, t, curve);
    }

    method Conclude(ghost e: Engine, t: Totals, curve: seq<Point>) returns (result: Option<BacktestResult>)
      requires e.cash == t.cash && e.fills == t.fills && e.curve == curve && !e.crashed
      ensures result == ResultOf(setup, e)
    {
      result := Some(BacktestResult(t.cash, Commissions(t.fills), Taxes(t.fills),
        if curve == [] then setup.config.initialCash else curve[|curve| - 1].equity, curve, t.fills));
    }
  }
}
