/**
 The engine on the hooked in-memory broker: exactly when its portfolio and the broker's positions stay
 together, the risk limits as bounds on every run, and disciplined strategies that are never refused.
 */
module EngineRuns {
  import opened Types
  import opened Portfolios
  import opened Orders
  import opened Brokers
  import opened Risk
  import opened Strategies
  import opened Backtests
  import opened Agreement
  import Accounting
  import LookAhead

  /** The broker may keep a row of no shares, after a buy of none. */
  function Live(row: Option<Holding>): Option<Holding> {
    if row.Some? && row.value.quantity == 0 then None else row
  }

  /** Same positive quantity and average price on every symbol. */
  ghost predicate Together(b: MockBook, p: Portfolio) {
    forall s :: Live(Row(b.positions, s)) == LocalRow(p, s)
  }

  ghost predicate NoShortRow(b: MockBook) {
    forall s :: s in b.positions ==> b.positions[s].quantity >= 0
  }

  /** Quotes and venue prices agree, the books agree, and the next order ids are new to the venue. */
  ghost predicate OnMock(e: Engine) {
    && !e.crashed && e.venue.MockVenue?
    && IdsFresh("bt", e.venue.book, e.orderSeq)
    && NoShortRow(e.venue.book) && Long(e.portfolio) && Together(e.venue.book, e.portfolio)
    && (forall s :: s in e.quotes ==> s in e.venue.book.prices && e.venue.book.prices[s] == e.quotes[s].lastPrice)
  }

  // ---- One submission at the mock ----

  predicate Fills(b: MockBook, order: OrderRequest) {
    order.symbol in b.prices && FillsNow(order, b.prices[order.symbol])
  }

  /** The fill divides by the shares it leaves. */
  predicate Breaks(b: MockBook, order: OrderRequest) {
    Fills(b, order) && DividesByZero(Row(b.positions, order.symbol), order.side, order.quantity)
  }

  /** A new request fills whole, at the market or at its limit, or not at all; of no shares, it counts as not filled. */
  lemma MockExecutes(config: BacktestConfig, b: MockBook, bar: PriceBar, order: OrderRequest)
    requires order.clientOrderId !in b.acks
    ensures var (v, outcome) := Execute(config, MockVenue(b), bar, order);
      && v == MockVenue(MockSubmit(b, order).0)
      && outcome ==
           if Breaks(b, order) then Crash
           else if Fills(b, order) && order.quantity > 0 then
             Filled(Record(config, order, order.quantity, FillPrice(order, b.prices[order.symbol]), bar.timestamp))
           else Nothing
  {
  }

  lemma MockMoves(b: MockBook, order: OrderRequest)
    requires order.clientOrderId !in b.acks && !Breaks(b, order)
    ensures var b' := MockSubmit(b, order).0;
      && b'.prices == b.prices
      && b'.acks.Keys <= b.acks.Keys + {order.clientOrderId}
      && (forall s :: s != order.symbol ==> Row(b'.positions, s) == Row(b.positions, s))
      && Row(b'.positions, order.symbol) == if Fills(b, order)
           then RowAfter(Row(b.positions, order.symbol), order.side, order.quantity,
                         FillPrice(order, b.prices[order.symbol]))
           else Row(b.positions, order.symbol)
  {
  }

  /** A row of no shares behaves like none under a positive quantity. */
  lemma LiveMoves(row: Option<Holding>, side: OrderSide, quantity: int, price: real)
    requires quantity > 0 && (row.Some? ==> row.value.quantity >= 0)
    ensures !DividesByZero(row, side, quantity) && !DividesByZero(Live(row), side, quantity)
    ensures Live(RowAfter(row, side, quantity, price)) == RowAfter(Live(row), side, quantity, price)
    ensures var after := RowAfter(row, side, quantity, price); after.Some? ==> after.value.quantity >= 0
  {
    if side.Buy? && row.Some? && row.value.quantity == 0 {
      BlendFromZero(row.value.averagePrice, quantity, price);
    }
  }

  /** The broker moves one row, the portfolio applies the same fill. */
  lemma FillKeepsTogether(b: MockBook, b': MockBook, p: Portfolio, fill: Fill)
    requires NoShortRow(b) && Long(p) && Together(b, p) && fill.quantity > 0
    requires !DividesByZero(Row(b.positions, fill.symbol), fill.side, fill.quantity)
    requires Row(b'.positions, fill.symbol)
      == RowAfter(Row(b.positions, fill.symbol), fill.side, fill.quantity, fill.price)
    requires forall s :: s != fill.symbol ==> Row(b'.positions, s) == Row(b.positions, s)
    ensures NoShortRow(b') && Long(Book(p, fill)) && Together(b', Book(p, fill))
  {
    var row := Row(b.positions, fill.symbol);
    LiveMoves(row, fill.side, fill.quantity, fill.price);
    BooksMoveAlike(p, fill);
    BookKeepsLong(p, fill);
    assert Live(row) == LocalRow(p, fill.symbol);
    RowsStayLong(b, b', fill.symbol);
  }

  lemma TradeKeepsMock(setup: Setup, e: Engine, bar: PriceBar, it: OrderIntent)
    requires OnMock(e) && it.quantity > 0
    ensures OnMock(Trade(setup, e.(orderSeq := e.orderSeq + 1), bar, Request(e.orderSeq + 1, it)))
  {
    var n, b := e.orderSeq + 1, e.venue.book;
    var order := Request(n, it);
    assert order.clientOrderId !in b.acks;
    LiveKeepsWhole(b, order);
    MockExecutes(setup.config, b, bar, order);
    MockMoves(b, order);
    NextIdsStayFresh("bt", b, MockSubmit(b, order).0, e.orderSeq);
    if Fills(b, order) {
      var f := Record(setup.config, order, order.quantity, FillPrice(order, b.prices[order.symbol]), bar.timestamp);
      FillKeepsTogether(b, MockSubmit(b, order).0, e.portfolio, FillOfRecord(f));
    } else {
      RowsStayLong(b, MockSubmit(b, order).0, order.symbol);
    }
  }

  lemma RowsStayLong(b: MockBook, b': MockBook, moved: Symbol)
    requires NoShortRow(b) && forall s :: s != moved ==> Row(b'.positions, s) == Row(b.positions, s)
    requires var row := Row(b'.positions, moved); row.Some? ==> row.value.quantity >= 0
    ensures NoShortRow(b')
  {
    forall s | s in b'.positions
      ensures b'.positions[s].quantity >= 0
    {
      assert Row(b'.positions, s).Some?;
      assert s != moved ==> Row(b.positions, s) == Row(b'.positions, s);
    }
  }

  // ---- Requests of no positive quantity ----

  /**
   Without a risk manager nothing checks shapes. A request strays if it fills and either moves the
   broker's row by a negative quantity, or divides by zero: the broker reports no positive fill, so the
   engine's portfolio does not follow.
   */
  predicate Strays(setup: Setup, e: Engine, it: OrderIntent)
    requires e.venue.MockVenue?
  {
    var b := e.venue.book;
    var row := Row(b.positions, it.symbol);
    && setup.risk.None? && Fills(b, Request(e.orderSeq + 1, it))
    && (if it.quantity < 0 then it.side.Buy? || row.Some?
        else it.quantity == 0 && it.side.Buy? && row.Some? && row.value.quantity == 0)
  }

  /** A row under a quantity that is not positive: where it stays what it was. */
  lemma IdleMoves(row: Option<Holding>, side: OrderSide, quantity: int, price: real)
    requires quantity <= 0 && (row.Some? ==> row.value.quantity >= 0) && !DividesByZero(row, side, quantity)
    ensures var after := RowAfter(row, side, quantity, price);
      Live(after) == Live(row) <==> quantity == 0 || (side.Sell? && row.None?)
    ensures quantity == 0 ==>
      (var after := RowAfter(row, side, quantity, price); after.Some? ==> after.value.quantity >= 0)
  {
    if side.Buy? && row.Some? && quantity == 0 {
      BlendNothing(row.value.quantity, row.value.averagePrice, price);
    }
  }

  lemma BlendNothing(quantity: int, average: real, price: real)
    requires quantity > 0
    ensures BlendedAverage(quantity, average, 0, price) == average
  {
    var q := quantity as real;
    assert price * 0.0 == 0.0;
    assert average * q / q == average;
  }

  lemma IdleTrade(setup: Setup, e: Engine, bar: PriceBar, it: OrderIntent)
    requires OnMock(e) && it.quantity <= 0 && setup.risk.None?
    ensures var after := Trade(setup, e.(orderSeq := e.orderSeq + 1), bar, Request(e.orderSeq + 1, it));
      && (OnMock(after) <==> !Strays(setup, e, it))
      && (Strays(setup, e, it) ==> after.crashed || !Together(after.venue.book, after.portfolio))
  {
    var n, b := e.orderSeq + 1, e.venue.book;
    var order := Request(n, it);
    var row := Row(b.positions, order.symbol);
    assert order.clientOrderId !in b.acks;
    MockExecutes(setup.config, b, bar, order);
    if !Breaks(b, order) {
      MockMoves(b, order);
      NextIdsStayFresh("bt", b, MockSubmit(b, order).0, e.orderSeq);
      if Fills(b, order) {
        IdleMoves(row, order.side, order.quantity, FillPrice(order, b.prices[order.symbol]));
        assert Live(row) == LocalRow(e.portfolio, order.symbol);
      }
      if !Strays(setup, e, it) {
        RowsStayLong(b, MockSubmit(b, order).0, order.symbol);
      }
    }
  }

  /** One intent, of any quantity: the books stay together exactly when it does not stray. */
  lemma IntentExactly(setup: Setup, e: Engine, bar: PriceBar, it: OrderIntent)
    requires OnMock(e)
    ensures var after := OnIntent(setup, e, bar, it);
      && (OnMock(after) <==> !Strays(setup, e, it))
      && (Strays(setup, e, it) ==> after.crashed || !Together(after.venue.book, after.portfolio))
  {
    if !Passing(setup, e.portfolio, e.quotes, e.orderSeq + 1, it) {
      NextIdsStayFresh("bt", e.venue.book, e.venue.book, e.orderSeq);
    } else if it.quantity > 0 {
      TradeKeepsMock(setup, e, bar, it);
    } else {
      IdleTrade(setup, e, bar, it);
    }
  }

  /** No intent of the list strays when its turn comes. */
  ghost predicate NoneStrays(setup: Setup, e: Engine, bar: PriceBar, intents: seq<OrderIntent>) {
    forall j :: 0 <= j < |intents| ==>
      var now := OnIntents(setup, e, bar, intents[..j]); now.venue.MockVenue? && !Strays(setup, now, intents[j])
  }

  lemma {:induction false} IntentsKeepMock(setup: Setup, e: Engine, bar: PriceBar, intents: seq<OrderIntent>)
    requires OnMock(e) && NoneStrays(setup, e, bar, intents)
    ensures OnMock(OnIntents(setup, e, bar, intents))
    decreases |intents|
  {
    if intents != [] {
      var n := |intents| - 1;
      NoneStraysFront(setup, e, bar, intents);
      IntentsKeepMock(setup, e, bar, intents[..n]);
      IntentExactly(setup, OnIntents(setup, e, bar, intents[..n]), bar, intents[n]);
    }
  }

  lemma NoneStraysFront(setup: Setup, e: Engine, bar: PriceBar, intents: seq<OrderIntent>)
    requires NoneStrays(setup, e, bar, intents) && intents != []
    ensures NoneStrays(setup, e, bar, intents[..|intents| - 1])
    ensures var now := OnIntents(setup, e, bar, intents[..|intents| - 1]);
      now.venue.MockVenue? && !Strays(setup, now, intents[|intents| - 1])
  {
    var n := |intents| - 1;
    var front := intents[..n];
    assert forall j :: 0 <= j < n ==> front[..j] == intents[..j] && front[j] == intents[j];
    assert intents[..n] == front;
  }

  lemma QuotingKeepsMock(setup: Setup, e: Engine, bar: PriceBar)
    requires OnMock(e) && setup.hooked
    ensures OnMock(Quoted(setup, e, bar))
  {
    var b, b' := e.venue.book, Quoted(setup, e, bar).venue.book;
    assert forall s :: Row(b'.positions, s) == Row(b.positions, s);
  }

  /** A venue the engine may start on: flat, and new to the engine's order ids. */
  ghost predicate CleanVenue(b: MockBook) {
    b.positions == map[] && IdsFresh("bt", b, 0)
  }

  lemma EmptyVenueIsClean()
    ensures CleanVenue(EMPTY_BOOK)
  {
  }

  lemma StartsOnMock(setup: Setup, b: MockBook)
    requires CleanVenue(b)
    ensures OnMock(Start(setup, MockVenue(b)))
  {
    assert forall s :: Row(b.positions, s) == None;
  }

  // ---- Whole runs ----

  /** No intent of bar `i` strays when its turn comes. */
  ghost predicate BarNeverStrays(setup: Setup, venue: Venue, bars: seq<PriceBar>, i: nat)
    requires i < |bars|
  {
    var e := Run(setup, venue, bars[..i]);
    NoneStrays(setup, Quoted(setup, e, bars[i]), bars[i], Intents(setup, e, bars[i]))
  }

  /** The books are together before, between and after the intents of bar `i`. */
  ghost predicate TogetherThroughBar(setup: Setup, venue: Venue, bars: seq<PriceBar>, i: nat)
    requires i < |bars|
  {
    var e := Run(setup, venue, bars[..i]);
    TogetherThrough(setup, Quoted(setup, e, bars[i]), bars[i], Intents(setup, e, bars[i]))
  }

  ghost predicate TogetherThrough(setup: Setup, e: Engine, bar: PriceBar, intents: seq<OrderIntent>) {
    forall j :: 0 <= j <= |intents| ==> OnMock(OnIntents(setup, e, bar, intents[..j]))
  }

  lemma TogetherFromTheStart(setup: Setup, e: Engine, bar: PriceBar, intents: seq<OrderIntent>)
    requires TogetherThrough(setup, e, bar, intents)
    ensures OnMock(e)
  {
    assert intents[..0] == [];
    assert OnMock(OnIntents(setup, e, bar, intents[..0]));
  }

  lemma OnMockThroughBar(setup: Setup, e: Engine, bar: PriceBar, intents: seq<OrderIntent>)
    requires OnMock(e)
    ensures NoneStrays(setup, e, bar, intents) <==> TogetherThrough(setup, e, bar, intents)
  {
    if NoneStrays(setup, e, bar, intents) {
      forall j | 0 <= j <= |intents|
        ensures OnMock(OnIntents(setup, e, bar, intents[..j]))
      {
        assert forall k :: 0 <= k < j ==> intents[..j][..k] == intents[..k];
        IntentsKeepMock(setup, e, bar, intents[..j]);
      }
    } else {
      var j :| 0 <= j < |intents|
        && var now := OnIntents(setup, e, bar, intents[..j]);
           !(now.venue.MockVenue? && !Strays(setup, now, intents[j]));
      if OnMock(OnIntents(setup, e, bar, intents[..j])) {
        OneMoreIntent(setup, e, bar, intents, j);
        IntentExactly(setup, OnIntents(setup, e, bar, intents[..j]), bar, intents[j]);
        assert !OnMock(OnIntents(setup, e, bar, intents[..j + 1]));
      }
    }
  }

  lemma BarKeepsMock(setup: Setup, e: Engine, bar: PriceBar)
    requires OnMock(e) && setup.hooked && NoneStrays(setup, Quoted(setup, e, bar), bar, Intents(setup, e, bar))
    ensures OnMock(OnBar(setup, e, bar))
  {
    QuotingKeepsMock(setup, e, bar);
    IntentsKeepMock(setup, Quoted(setup, e, bar), bar, Intents(setup, e, bar));
  }

  lemma {:induction false} RunKeepsMock(setup: Setup, b: MockBook, bars: seq<PriceBar>)
    requires setup.hooked && CleanVenue(b)
    requires forall i :: 0 <= i < |bars| ==> BarNeverStrays(setup, MockVenue(b), bars, i)
    ensures OnMock(Run(setup, MockVenue(b), bars))
    decreases |bars|
  {
    if bars == [] {
      StartsOnMock(setup, b);
    } else {
      var n := |bars| - 1;
      var front := bars[..n];
      forall i | 0 <= i < n
        ensures BarNeverStrays(setup, MockVenue(b), front, i)
      {
        assert front[..i] == bars[..i];
        assert BarNeverStrays(setup, MockVenue(b), bars, i);
      }
      RunKeepsMock(setup, b, front);
      assert BarNeverStrays(setup, MockVenue(b), bars, n);
      BarKeepsMock(setup, Run(setup, MockVenue(b), front), bars[n]);
    }
  }

  /**
   For any strategy, with or without risk gate, over any bars: the two books are together in every
   state of the run exactly when no intent strays.
   */
  lemma EngineBooksExactly(setup: Setup, b: MockBook, bars: seq<PriceBar>)
    requires setup.hooked && CleanVenue(b)
    ensures (forall i :: 0 <= i < |bars| ==> TogetherThroughBar(setup, MockVenue(b), bars, i)) <==>
      (forall i :: 0 <= i < |bars| ==> BarNeverStrays(setup, MockVenue(b), bars, i))
  {
    var v := MockVenue(b);
    if forall i :: 0 <= i < |bars| ==> BarNeverStrays(setup, v, bars, i) {
      forall i | 0 <= i < |bars|
        ensures TogetherThroughBar(setup, v, bars, i)
      {
        PrefixKeepsMock(setup, b, bars, i);
        TogetherBar(setup, v, bars, i);
      }
    }
    if forall i :: 0 <= i < |bars| ==> TogetherThroughBar(setup, v, bars, i) {
      forall i | 0 <= i < |bars|
        ensures BarNeverStrays(setup, v, bars, i)
      {
        assert TogetherThroughBar(setup, v, bars, i);
        StraysPart(setup, v, bars, i);
      }
    }
  }

  lemma TogetherBar(setup: Setup, v: Venue, bars: seq<PriceBar>, i: nat)
    requires i < |bars| && setup.hooked && OnMock(Run(setup, v, bars[..i])) && BarNeverStrays(setup, v, bars, i)
    ensures TogetherThroughBar(setup, v, bars, i)
  {
    var e := Run(setup, v, bars[..i]);
    QuotingKeepsMock(setup, e, bars[i]);
    OnMockThroughBar(setup, Quoted(setup, e, bars[i]), bars[i], Intents(setup, e, bars[i]));
  }

  lemma StraysPart(setup: Setup, v: Venue, bars: seq<PriceBar>, i: nat)
    requires i < |bars| && TogetherThroughBar(setup, v, bars, i)
    ensures BarNeverStrays(setup, v, bars, i)
  {
    var e := Run(setup, v, bars[..i]);
    TogetherFromTheStart(setup, Quoted(setup, e, bars[i]), bars[i], Intents(setup, e, bars[i]));
    OnMockThroughBar(setup, Quoted(setup, e, bars[i]), bars[i], Intents(setup, e, bars[i]));
  }

  lemma PrefixKeepsMock(setup: Setup, b: MockBook, bars: seq<PriceBar>, i: nat)
    requires setup.hooked && CleanVenue(b) && i <= |bars|
    requires forall k :: 0 <= k < |bars| ==> BarNeverStrays(setup, MockVenue(b), bars, k)
    ensures OnMock(Run(setup, MockVenue(b), bars[..i]))
  {
    var front := bars[..i];
    forall k | 0 <= k < i
      ensures BarNeverStrays(setup, MockVenue(b), front, k)
    {
      assert front[..k] == bars[..k];
      assert BarNeverStrays(setup, MockVenue(b), bars, k);
    }
    RunKeepsMock(setup, b, front);
  }

  /** Someone checks shapes: the risk manager, or the strategy itself. */
  ghost predicate Shaped(setup: Setup) {
    setup.risk.Some? || forall s :: Positive(setup.strategy(s))
  }

  ghost predicate Positive(intents: seq<OrderIntent>) {
    forall i :: 0 <= i < |intents| ==> intents[i].quantity > 0
  }

  lemma {:induction false} ShapedKeepsMock(setup: Setup, e: Engine, bar: PriceBar, intents: seq<OrderIntent>)
    requires OnMock(e) && (setup.risk.Some? || Positive(intents))
    ensures OnMock(OnIntents(setup, e, bar, intents))
    decreases |intents|
  {
    if intents != [] {
      var n := |intents| - 1;
      ShapedKeepsMock(setup, e, bar, intents[..n]);
      IntentExactly(setup, OnIntents(setup, e, bar, intents[..n]), bar, intents[n]);
    }
  }

  /** With shapes checked the books agree after any bars: no request ever strays. */
  lemma {:induction false} EngineBooksAgree(setup: Setup, b: MockBook, bars: seq<PriceBar>)
    requires setup.hooked && CleanVenue(b) && Shaped(setup)
    ensures OnMock(Run(setup, MockVenue(b), bars))
    decreases |bars|
  {
    if bars == [] {
      StartsOnMock(setup, b);
    } else {
      var n := |bars| - 1;
      EngineBooksAgree(setup, b, bars[..n]);
      ShapedBar(setup, Run(setup, MockVenue(b), bars[..n]), bars[n]);
    }
  }

  lemma ShapedBar(setup: Setup, e: Engine, bar: PriceBar)
    requires OnMock(e) && setup.hooked && Shaped(setup)
    ensures OnMock(OnBar(setup, e, bar))
  {
    QuotingKeepsMock(setup, e, bar);
    assert setup.risk.Some? || Positive(Intents(setup, e, bar));
    ShapedKeepsMock(setup, Quoted(setup, e, bar), bar, Intents(setup, e, bar));
  }

  // ---- Risk bounds ----

  /** The engine in the middle of a bar: after some bars and the first `j` intents of the next one, or all of them. */
  ghost function MidBar(setup: Setup, venue: Venue, bars: seq<PriceBar>, bar: PriceBar, j: nat): Engine
  {
    var e := Run(setup, venue, bars);
    var intents := Intents(setup, e, bar);
    OnIntents(setup, Quoted(setup, e, bar), bar, intents[..if j <= |intents| then j else |intents|])
  }

  lemma BuyAboveMarket(quantity: int, market: real, paid: real, gross: real, limit: real)
    requires quantity > 0 && market <= paid && gross + quantity as real * paid <= limit
    ensures gross + quantity as real * market <= limit
  {
    var q, d := quantity as real, paid - market;
    NonNegative(q, d);
    assert q * paid == q * market + q * d;
  }

  lemma NonNegative(q: real, d: real)
    requires q >= 0.0 && d >= 0.0
    ensures q * d >= 0.0
  {
  }

  /**
   The state a checked intent leaves: cap kept, a fill of at most the order notional, and after a buy
   the exposure at live quotes within the limit.
   */
  ghost predicate Bounded(limits: RiskLimits, e: Engine, after: Engine) {
    && WithinCap(after.portfolio, limits.maxPositionQuantity)
    && (|after.fills| > |e.fills| ==> Notional(FillOfRecord(after.fills[|e.fills|])) <= limits.maxOrderNotional)
    && (|after.fills| > |e.fills| && after.fills[|e.fills|].side.Buy? ==>
         GrossExposure(after.portfolio, after.quotes) <= limits.maxGrossExposure)
  }

  lemma CheckedTradeIsBounded(setup: Setup, e: Engine, bar: PriceBar, it: OrderIntent)
    requires OnMock(e) && setup.risk.Some? && it.quantity > 0
    requires WithinCap(e.portfolio, setup.risk.value.limits.maxPositionQuantity)
    requires Passing(setup, e.portfolio, e.quotes, e.orderSeq + 1, it)
    ensures Bounded(setup.risk.value.limits, e,
                    Trade(setup, e.(orderSeq := e.orderSeq + 1), bar, Request(e.orderSeq + 1, it)))
  {
    var limits, b, next := setup.risk.value.limits, e.venue.book, e.(orderSeq := e.orderSeq + 1);
    var order := Request(e.orderSeq + 1, it);
    PassingWithinLimits(setup, e.portfolio, e.quotes, e.orderSeq + 1, it);
    LiveKeepsWhole(e.venue.book, order);
    var filled := MockTrades(setup, next, bar, order);
    if filled.Some? {
      CheckedFillIsBounded(limits, e.portfolio, filled.value, e.quotes);
    }
  }

  lemma LiveKeepsWhole(b: MockBook, order: OrderRequest)
    requires NoShortRow(b) && order.quantity > 0
    ensures !Breaks(b, order)
  {
  }

  /** What the risk check takes for the price of a request. */
  function RequestPrice(order: OrderRequest, quote: Quote): real {
    if order.limitPrice.Some? then order.limitPrice.value else quote.lastPrice
  }

  function RequestNotional(order: OrderRequest, quote: Quote): real {
    order.quantity as real * RequestPrice(order, quote)
  }

  /** The fill of one order at the mock, at the price the risk check looks at, and what it changes. */
  lemma MockTrades(setup: Setup, e: Engine, bar: PriceBar, order: OrderRequest) returns (filled: Option<Fill>)
    requires e.venue.MockVenue? && order.clientOrderId !in e.venue.book.acks
    requires order.quantity > 0 && !Breaks(e.venue.book, order)
    requires order.symbol in e.quotes && order.symbol in e.venue.book.prices
    requires order.orderType.Market? <==> order.limitPrice.None?
    requires e.venue.book.prices[order.symbol] == e.quotes[order.symbol].lastPrice
    ensures var after, quote := Trade(setup, e, bar, order), e.quotes[order.symbol];
      && after.quotes == e.quotes
      && (filled.None? ==> after.fills == e.fills && after.portfolio == e.portfolio)
      && (filled.Some? ==>
           var fill := filled.value;
           && |after.fills| == |e.fills| + 1 && FillOfRecord(after.fills[|e.fills|]) == fill
           && after.portfolio == Book(e.portfolio, fill)
           && fill.symbol == order.symbol && fill.side == order.side && fill.quantity == order.quantity
           && Notional(fill) == RequestNotional(order, quote)
           && (fill.side.Buy? ==> quote.lastPrice <= fill.price))
  {
    var b := e.venue.book;
    MockExecutes(setup.config, b, bar, order);
    filled := None;
    if Fills(b, order) {
      var price := FillPrice(order, b.prices[order.symbol]);
      filled := Some(FillOfRecord(Record(setup.config, order, order.quantity, price, bar.timestamp)));
      assert price == RequestPrice(order, e.quotes[order.symbol]);
    }
  }

  /** A fill that the checks let through at its own price, which for a buy is the market or above. */
  lemma CheckedFillIsBounded(limits: RiskLimits, p: Portfolio, fill: Fill, quotes: map<Symbol, Quote>)
    requires Long(p) && fill.quantity > 0 && WithinCap(p, limits.maxPositionQuantity)
    requires fill.side.Buy? ==>
      && fill.symbol in quotes && quotes[fill.symbol].lastPrice <= fill.price
      && Held(p, fill.symbol) + fill.quantity <= limits.maxPositionQuantity
      && GrossExposure(p, quotes) + Notional(fill) <= limits.maxGrossExposure
    ensures WithinCap(Book(p, fill), limits.maxPositionQuantity)
    ensures fill.side.Buy? ==> GrossExposure(Book(p, fill), quotes) <= limits.maxGrossExposure
  {
    FillKeepsCap(p, fill, limits.maxPositionQuantity);
    if fill.side.Buy? {
      BuyWithinLimit(p, fill, quotes, limits.maxGrossExposure);
    }
  }

  /** What the checks let through: a fill at the market or above is bounded by the checked price. */
  lemma BuyWithinLimit(p: Portfolio, fill: Fill, quotes: map<Symbol, Quote>, limit: real)
    requires Long(p) && fill.quantity > 0
    requires fill.side.Buy? && fill.symbol in quotes && quotes[fill.symbol].lastPrice <= fill.price
    requires GrossExposure(p, quotes) + fill.quantity as real * fill.price <= limit
    ensures GrossExposure(Book(p, fill), quotes) <= limit
  {
    FillMovesExposure(p, fill, quotes);
    BuyAboveMarket(fill.quantity, quotes[fill.symbol].lastPrice, fill.price, GrossExposure(p, quotes), limit);
  }

  lemma PassingWithinLimits(setup: Setup, p: Portfolio, quotes: map<Symbol, Quote>, n: nat, it: OrderIntent)
    requires setup.risk.Some? && it.quantity > 0 && Passing(setup, p, quotes, n, it)
    ensures it.symbol in quotes && (it.orderType.Market? <==> it.limitPrice.None?)
    ensures var limits, notional := setup.risk.value.limits, RequestNotional(Request(n, it), quotes[it.symbol]);
      && notional <= limits.maxOrderNotional
      && (it.side.Buy? ==>
           && Held(p, it.symbol) + it.quantity <= limits.maxPositionQuantity
           && GrossExposure(p, quotes) + notional <= limits.maxGrossExposure)
  {
    assert OrderNotional(NewOrder(OrderId(n), it).value, quotes[it.symbol])
      == RequestNotional(Request(n, it), quotes[it.symbol]);
  }

  lemma IntentIsBounded(setup: Setup, e: Engine, bar: PriceBar, it: OrderIntent)
    requires OnMock(e) && setup.risk.Some?
    requires WithinCap(e.portfolio, setup.risk.value.limits.maxPositionQuantity)
    ensures Bounded(setup.risk.value.limits, e, OnIntent(setup, e, bar, it))
  {
    if it.quantity > 0 && Passing(setup, e.portfolio, e.quotes, e.orderSeq + 1, it) {
      CheckedTradeIsBounded(setup, e, bar, it);
    }
  }

  /**
   With a risk manager, at any venue: an intent that is malformed, or violates a limit as clock and switch stand
   at its order number, uses up that number and does nothing else; any other is submitted.
   */
  lemma OnlyPassedIsTraded(setup: Setup, e: Engine, bar: PriceBar, it: OrderIntent, reason: RejectionReason)
    requires setup.risk.Some? && !e.crashed
    ensures var n := e.orderSeq + 1;
      var order, next := NewOrder(OrderId(n), it), e.(orderSeq := n);
      && (order.Err? || BreaksLimit(setup, e, order.value, reason) ==> OnIntent(setup, e, bar, it) == next)
      && (order.Ok? && (forall r :: !BreaksLimit(setup, e, order.value, r)) ==>
           OnIntent(setup, e, bar, it) == Trade(setup, next, bar, RequestOf(order.value)))
  {
    var order := NewOrder(OrderId(e.orderSeq + 1), it);
    if order.Ok? {
      FirstBreak(setup, e, order.value, reason);
      var checked := Checked(setup, e, order.value);
      if checked.Err? {
        FirstBreak(setup, e, order.value, checked.error);
        assert BreaksLimit(setup, e, order.value, checked.error);
      }
    }
  }

  /**
   What a running engine makes of the broker's answers, at any venue: a call that panics ends the run, a report of
   some shares becomes one fill at the reported average, or at the close without one, and else nothing happens.
   */
  lemma TradeTells(setup: Setup, e: Engine, bar: PriceBar, order: OrderRequest)
    requires !e.crashed
    ensures var (asked, ack) := SubmitOrder(e.venue, order);
      var (told, report) :=
        if ack.Ok? then ReportOrder(asked, ack.value.brokerOrderId) else (asked, Err(ack.error));
      var after := Trade(setup, e, bar, order);
      && after.venue == told && (after.crashed <==> report == Err(Panicked))
      && if report.Ok? && report.value.filledQuantity > 0 then
           && |after.fills| == |e.fills| + 1 && e.fills <= after.fills
           && var f, average := after.fills[|e.fills|], report.value.averageFillPrice;
           && f.clientOrderId == order.clientOrderId && f.symbol == order.symbol && f.side == order.side
           && f.quantity == report.value.filledQuantity && f.timestamp == bar.timestamp
           && f.price == match average case Some(price) => price case None => bar.close
         else after == e.(venue := told, crashed := after.crashed)
  {
  }

  /** The next order violates this limit, as clock and switch stand at its number. */
  ghost predicate BreaksLimit(setup: Setup, e: Engine, order: Order, reason: RejectionReason)
    requires setup.risk.Some?
  {
    var n, gate := e.orderSeq + 1, setup.risk.value;
    Violates(reason, gate.limits, gate.killed(n), gate.clock(n), order, e.portfolio, e.quotes)
  }

  ghost function Checked(setup: Setup, e: Engine, order: Order): Result<real, RejectionReason>
    requires setup.risk.Some?
  {
    var n, gate := e.orderSeq + 1, setup.risk.value;
    CheckOrder(gate.limits, gate.killed(n), gate.clock(n), order, e.portfolio, e.quotes)
  }

  lemma FirstBreak(setup: Setup, e: Engine, order: Order, reason: RejectionReason)
    requires setup.risk.Some?
    ensures Checked(setup, e, order) == Err(reason) ==> BreaksLimit(setup, e, order, reason)
    ensures Checked(setup, e, order).Ok? ==> !BreaksLimit(setup, e, order, reason)
  {
    var n, gate := e.orderSeq + 1, setup.risk.value;
    FirstViolation(gate.limits, gate.killed(n), gate.clock(n), order, e.portfolio, e.quotes, reason);
  }

  lemma {:induction false} IntentsKeepCap(setup: Setup, e: Engine, bar: PriceBar, intents: seq<OrderIntent>)
    requires OnMock(e) && setup.risk.Some?
    requires WithinCap(e.portfolio, setup.risk.value.limits.maxPositionQuantity)
    ensures WithinCap(OnIntents(setup, e, bar, intents).portfolio, setup.risk.value.limits.maxPositionQuantity)
    decreases |intents|
  {
    if intents != [] {
      var n := |intents| - 1;
      ShapedKeepsMock(setup, e, bar, intents[..n]);
      IntentsKeepCap(setup, e, bar, intents[..n]);
      IntentIsBounded(setup, OnIntents(setup, e, bar, intents[..n]), bar, intents[n]);
    }
  }

  lemma {:induction false} RunKeepsCap(setup: Setup, b: MockBook, bars: seq<PriceBar>)
    requires setup.hooked && setup.risk.Some? && CleanVenue(b)
    ensures WithinCap(Run(setup, MockVenue(b), bars).portfolio, setup.risk.value.limits.maxPositionQuantity)
    decreases |bars|
  {
    if bars != [] {
      var n := |bars| - 1;
      RunKeepsCap(setup, b, bars[..n]);
      EngineBooksAgree(setup, b, bars[..n]);
      var e := Run(setup, MockVenue(b), bars[..n]);
      QuotingKeepsMock(setup, e, bars[n]);
      IntentsKeepCap(setup, Quoted(setup, e, bars[n]), bars[n], Intents(setup, e, bars[n]));
    }
  }

  /**
   Risk bounds in every reachable state: no position above the cap, no fill above the order notional,
   and right after each buy the exposure at live quotes is within the limit, for limit fills above the
   market too.
   */
  lemma RiskBounds(setup: Setup, b: MockBook, bars: seq<PriceBar>, bar: PriceBar, j: nat)
    requires setup.hooked && setup.risk.Some? && CleanVenue(b)
    ensures var before := MidBar(setup, MockVenue(b), bars, bar, j);
      var after := MidBar(setup, MockVenue(b), bars, bar, j + 1);
      && WithinCap(before.portfolio, setup.risk.value.limits.maxPositionQuantity)
      && Bounded(setup.risk.value.limits, before, after)
  {
    var e := Run(setup, MockVenue(b), bars);
    RunKeepsCap(setup, b, bars);
    EngineBooksAgree(setup, b, bars);
    QuotingKeepsMock(setup, e, bar);
    IntentsBounded(setup, Quoted(setup, e, bar), bar, Intents(setup, e, bar), j);
  }

  lemma IntentsBounded(setup: Setup, e: Engine, bar: PriceBar, intents: seq<OrderIntent>, j: nat)
    requires OnMock(e) && setup.risk.Some?
    requires WithinCap(e.portfolio, setup.risk.value.limits.maxPositionQuantity)
    ensures var limits, n := setup.risk.value.limits, |intents|;
      var before := OnIntents(setup, e, bar, intents[..if j <= n then j else n]);
      var after := OnIntents(setup, e, bar, intents[..if j + 1 <= n then j + 1 else n]);
      WithinCap(before.portfolio, limits.maxPositionQuantity) && Bounded(limits, before, after)
  {
    var k := if j <= |intents| then j else |intents|;
    ShapedKeepsMock(setup, e, bar, intents[..k]);
    IntentsKeepCap(setup, e, bar, intents[..k]);
    if k < |intents| {
      OneMoreIntent(setup, e, bar, intents, k);
      IntentIsBounded(setup, OnIntents(setup, e, bar, intents[..k]), bar, intents[k]);
    }
  }

  // ---- Stopping ----

  /** From here on the gate lets nothing through: the loss limit is passed, or the kill switch stays on. */
  ghost predicate Stopped(setup: Setup, e: Engine) {
    && setup.risk.Some?
    && (TotalRealizedPnl(e.portfolio) < -setup.risk.value.limits.dailyLossLimit
        || forall n: nat :: n > e.orderSeq ==> setup.risk.value.killed(n))
  }

  /** Cash, rows and fills are untouched. */
  ghost predicate SameBooks(e: Engine, after: Engine) {
    after.cash == e.cash && after.portfolio == e.portfolio && after.fills == e.fills
  }

  lemma {:induction false} StoppedIntents(setup: Setup, e: Engine, bar: PriceBar, intents: seq<OrderIntent>)
    requires Stopped(setup, e)
    ensures var after := OnIntents(setup, e, bar, intents);
      SameBooks(e, after) && Stopped(setup, after) && after.orderSeq >= e.orderSeq
    decreases |intents|
  {
    if intents != [] {
      var n := |intents| - 1;
      StoppedIntents(setup, e, bar, intents[..n]);
      StoppedIntent(setup, OnIntents(setup, e, bar, intents[..n]), bar, intents[n]);
    }
  }

  lemma StoppedIntent(setup: Setup, e: Engine, bar: PriceBar, it: OrderIntent)
    requires Stopped(setup, e)
    ensures OnIntent(setup, e, bar, it) == if e.crashed then e else e.(orderSeq := e.orderSeq + 1)
  {
  }

  /**
   Once the realized loss is beyond the limit, or the kill switch is on for good, no run books
   another fill: sells are rejected like buys, so a loss is never undone and open positions stay.
   */
  lemma {:induction false} StoppedForGood(setup: Setup, venue: Venue, past: seq<PriceBar>, later: seq<PriceBar>)
    ensures Stopped(setup, Run(setup, venue, past)) ==>
      && SameBooks(Run(setup, venue, past), Run(setup, venue, past + later))
      && Stopped(setup, Run(setup, venue, past + later))
    decreases |later|
  {
    if later == [] {
      assert past + later == past;
    } else {
      var n := |later| - 1;
      var whole, bar := past + later[..n], later[n];
      assert past + later == whole + [bar];
      StoppedForGood(setup, venue, past, later[..n]);
      RunOneMore(setup, venue, whole, bar);
      StoppedBar(setup, Run(setup, venue, whole), bar);
    }
  }

  lemma StoppedBar(setup: Setup, e: Engine, bar: PriceBar)
    ensures Stopped(setup, e) ==> SameBooks(e, OnBar(setup, e, bar)) && Stopped(setup, OnBar(setup, e, bar))
  {
    if Stopped(setup, e) {
      StoppedIntents(setup, Quoted(setup, e, bar), bar, Intents(setup, e, bar));
    }
  }

  // ---- Position discipline ----

  ghost predicate Lots(e: Engine, q: int) {
    && OnMock(e)
    && ZeroOrLot(e.portfolio, q)
    && Accounting.NoneRefused(e.fills) && e.portfolio == Accounting.Replay(e.fills)
  }

  /** An intent that keeps lots: a fitting order for the holdings as they are now. */
  predicate Lotwise(it: OrderIntent, p: Portfolio, q: int) {
    it.orderType.Market? && it.quantity == q && Held(p, it.symbol) == if it.side.Buy? then 0 else q
  }

  lemma AcceptedKeepsReplay(fills: seq<FillRecord>, f: FillRecord)
    requires Accounting.NoneRefused(fills) && ApplyFill(Accounting.Replay(fills), FillOfRecord(f)).Ok?
    ensures Accounting.NoneRefused(fills + [f])
    ensures Accounting.Replay(fills + [f]) == Book(Accounting.Replay(fills), FillOfRecord(f))
  {
    var all := fills + [f];
    assert all[..|fills|] == fills && all[..|all|] == all;
    forall k | 0 < k <= |all|
      ensures !Accounting.RefusedLast(all[..k])
    {
      if k <= |fills| {
        assert all[..k] == fills[..k];
      }
    }
  }

  lemma FillKeepsLots(e: Engine, after: Engine, f: FillRecord, q: int)
    requires Lots(e, q) && OnMock(after) && q > 0
    requires LotFill(e.portfolio, f.side, f.symbol, f.quantity, q)
    requires after.portfolio == Book(e.portfolio, FillOfRecord(f)) && after.fills == e.fills + [f]
    ensures Lots(after, q) && (forall s :: s != f.symbol ==> Held(after.portfolio, s) == Held(e.portfolio, s))
  {
    LotFillBooks(e.portfolio, FillOfRecord(f), q);
    AcceptedKeepsReplay(e.fills, f);
  }

  lemma TradeKeepsLots(setup: Setup, e: Engine, bar: PriceBar, it: OrderIntent, q: int)
    requires Lots(e, q) && q > 0 && Lotwise(it, e.portfolio, q)
    ensures var after := OnIntent(setup, e, bar, it);
      Lots(after, q) && (forall s :: s != it.symbol ==> Held(after.portfolio, s) == Held(e.portfolio, s))
  {
    IntentExactly(setup, e, bar, it);
    if Passing(setup, e.portfolio, e.quotes, e.orderSeq + 1, it) {
      var b, order := e.venue.book, Request(e.orderSeq + 1, it);
      MockExecutes(setup.config, b, bar, order);
      if Fills(b, order) {
        var f := Record(setup.config, order, order.quantity, FillPrice(order, b.prices[order.symbol]), bar.timestamp);
        FillKeepsLots(e, OnIntent(setup, e, bar, it), f, q);
      }
    }
  }

  lemma {:induction false} IntentsKeepLots(setup: Setup, e: Engine, bar: PriceBar, intents: seq<OrderIntent>, q: int)
    requires Lots(e, q) && q > 0 && OnePerSymbol(intents)
    requires forall i :: 0 <= i < |intents| ==> Lotwise(intents[i], e.portfolio, q)
    ensures var after := OnIntents(setup, e, bar, intents);
      && Lots(after, q)
      && (forall s :: (forall i :: 0 <= i < |intents| ==> intents[i].symbol != s) ==>
           Held(after.portfolio, s) == Held(e.portfolio, s))
    decreases |intents|
  {
    if intents != [] {
      var n := |intents| - 1;
      IntentsKeepLots(setup, e, bar, intents[..n], q);
      TradeKeepsLots(setup, OnIntents(setup, e, bar, intents[..n]), bar, intents[n], q);
    }
  }

  lemma DisciplinedIsLotwise(setup: Setup, e: Engine, bar: PriceBar, q: int)
    requires DisciplinedStrategy(setup.strategy, q) && q > 0
    requires forall s :: Held(e.portfolio, s) == 0 || Held(e.portfolio, s) == q
    ensures OnePerSymbol(Intents(setup, e, bar))
    ensures forall i :: 0 <= i < |Intents(setup, e, bar)| ==> Lotwise(Intents(setup, e, bar)[i], e.portfolio, q)
  {
    var snap := View(Quoted(setup, e, bar), bar);
    assert Disciplined(setup.strategy(snap), HeldIn(snap), q);
    assert forall s :: HeldIn(snap)(s) == Held(e.portfolio, s);
  }

  /**
   Position discipline in the engine: from a flat mock, after any bars, every holding is zero or one
   lot and no fill was ever refused.
   */
  lemma {:induction false} EngineDiscipline(setup: Setup, b: MockBook, bars: seq<PriceBar>, q: int)
    requires setup.hooked && CleanVenue(b) && q > 0 && DisciplinedStrategy(setup.strategy, q)
    ensures Lots(Run(setup, MockVenue(b), bars), q)
    decreases |bars|
  {
    if bars == [] {
      EngineBooksAgree(setup, b, bars);
    } else {
      var n := |bars| - 1;
      EngineDiscipline(setup, b, bars[..n], q);
      var e := Run(setup, MockVenue(b), bars[..n]);
      var intents := Intents(setup, e, bars[n]);
      assert intents[..|intents|] == intents;
      LotsThroughBar(setup, e, bars[n], |intents|, q);
      EngineBooksAgree(setup, b, bars);
    }
  }

  lemma LotsThroughBar(setup: Setup, e: Engine, bar: PriceBar, j: nat, q: int)
    requires setup.hooked && q > 0 && DisciplinedStrategy(setup.strategy, q) && Lots(e, q)
    requires j <= |Intents(setup, e, bar)|
    ensures Lots(OnIntents(setup, Quoted(setup, e, bar), bar, Intents(setup, e, bar)[..j]), q)
  {
    QuotingKeepsMock(setup, e, bar);
    DisciplinedIsLotwise(setup, e, bar, q);
    IntentsKeepLots(setup, Quoted(setup, e, bar), bar, Intents(setup, e, bar)[..j], q);
  }

  /** The same after any bars and any intents of the next one. */
  lemma LotsMidBar(setup: Setup, b: MockBook, bars: seq<PriceBar>, bar: PriceBar, j: nat, q: int)
    requires setup.hooked && CleanVenue(b) && q > 0 && DisciplinedStrategy(setup.strategy, q)
    ensures Lots(MidBar(setup, MockVenue(b), bars, bar, j), q)
  {
    var e := Run(setup, MockVenue(b), bars);
    var n := |Intents(setup, e, bar)|;
    EngineDiscipline(setup, b, bars, q);
    LotsThroughBar(setup, e, bar, if j <= n then j else n, q);
  }

  /** With disciplined strategies the accounting identity is exact: nothing was refused. */
  lemma DisciplinedAccounting(setup: Setup, b: MockBook, bars: seq<PriceBar>, k: nat, q: int)
    requires setup.hooked && CleanVenue(b) && q > 0 && DisciplinedStrategy(setup.strategy, q) && k < |bars|
    ensures var e := Run(setup, MockVenue(b), bars[..k + 1]);
      var basis := setup.config.initialCash + TotalRealizedPnl(e.portfolio) - Commissions(e.fills) - Taxes(e.fills);
      && e.cash + BookValue(e.portfolio) == basis
      && |Run(setup, MockVenue(b), bars).curve| == |bars|
      && Run(setup, MockVenue(b), bars).curve[k].equity == basis + Accounting.Unrealized(e.portfolio, e.quotes)
  {
    DisciplinedNeverCrash(setup, b, bars, q);
    EngineDiscipline(setup, b, bars[..k + 1], q);
    var e := Run(setup, MockVenue(b), bars[..k + 1]);
    Accounting.NoneRefusedMeansNothingExtra(e.fills);
    Accounting.AccountingConservation(setup, MockVenue(b), bars, k);
  }

  lemma DisciplinedNeverCrash(setup: Setup, b: MockBook, bars: seq<PriceBar>, q: int)
    requires setup.hooked && CleanVenue(b) && q > 0 && DisciplinedStrategy(setup.strategy, q)
    ensures |Run(setup, MockVenue(b), bars).curve| == |bars|
  {
    EngineDiscipline(setup, b, bars, q);
    LookAhead.OnePointPerBar(setup, MockVenue(b), bars);
  }
}
