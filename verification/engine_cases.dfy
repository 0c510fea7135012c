/** Short engine runs on an empty in-memory broker, without a risk manager, in which something goes wrong. */
module EngineCases {
  import opened Types
  import opened Portfolios
  import opened Orders
  import opened Brokers
  import opened Backtests
  import opened Agreement
  import opened EngineRuns
  import Accounting

  /** Ask for the same order on every bar. */
  function Asking(config: BacktestConfig, it: OrderIntent): Setup {
    Setup(config, snap => [it], None, true)
  }

  lemma OneIntent(setup: Setup, e: Engine, bar: PriceBar, it: OrderIntent)
    ensures OnIntents(setup, e, bar, [it]) == OnIntent(setup, e, bar, it)
  {
    assert [it][..0] == [];
    assert OnIntents(setup, e, bar, []) == e;
  }

  /** One bar of a strategy that asks for one order: the order, and the closing of the bar. */
  lemma OneBar(config: BacktestConfig, it: OrderIntent, e: Engine, bar: PriceBar)
    requires !e.crashed
    ensures var setup := Asking(config, it);
      var traded := Trade(setup, Quoted(setup, e, bar).(orderSeq := e.orderSeq + 1), bar, Request(e.orderSeq + 1, it));
      OnBar(setup, e, bar) == if traded.crashed then traded else Closed(setup, traded, bar)
  {
    var setup := Asking(config, it);
    OneIntent(setup, Quoted(setup, e, bar), bar, it);
  }

  lemma RunOfOne(setup: Setup, venue: Venue, bar: PriceBar)
    ensures Run(setup, venue, [bar]) == OnBar(setup, Start(setup, venue), bar)
  {
    assert [] + [bar] == [bar];
    RunOneMore(setup, venue, [], bar);
  }

  ghost predicate PlainOrder(it: OrderIntent, bar: PriceBar) {
    it.orderType.Market? && it.limitPrice.None? && it.symbol == bar.symbol
  }

  /** The engine right after its first order. */
  function FirstTrade(config: BacktestConfig, it: OrderIntent, bar: PriceBar): Engine {
    var setup := Asking(config, it);
    var quoted := Quoted(setup, Start(setup, MockVenue(EMPTY_BOOK)), bar);
    Trade(setup, quoted.(orderSeq := 1), bar, Request(1, it))
  }

  lemma FirstBar(config: BacktestConfig, it: OrderIntent, bar: PriceBar)
    requires PlainOrder(it, bar)
    ensures !FirstTrade(config, it, bar).crashed
    ensures Run(Asking(config, it), MockVenue(EMPTY_BOOK), [bar])
        == Closed(Asking(config, it), FirstTrade(config, it, bar), bar)
  {
    var setup := Asking(config, it);
    RunOfOne(setup, MockVenue(EMPTY_BOOK), bar);
    OneBar(config, it, Start(setup, MockVenue(EMPTY_BOOK)), bar);
  }

  /** Acknowledged under the id `bt-0001` and filled at the close. */
  lemma FirstBooks(config: BacktestConfig, it: OrderIntent, bar: PriceBar)
    requires PlainOrder(it, bar)
    ensures var e := FirstTrade(config, it, bar);
      && e.venue.MockVenue? && e.orderSeq == 1 && e.venue.book.acks.Keys == {OrderId(1)}
      && Row(e.venue.book.positions, it.symbol) == RowAfter(None, it.side, it.quantity, bar.close)
      && e.venue.book.positions.Keys <= {it.symbol}
  {
  }

  lemma FirstFill(config: BacktestConfig, it: OrderIntent, bar: PriceBar)
    requires PlainOrder(it, bar)
    ensures var e := FirstTrade(config, it, bar);
      if it.quantity <= 0 then e.fills == [] && e.portfolio == EMPTY
      else
        var f := Record(config, Request(1, it), it.quantity, bar.close, bar.timestamp);
        && e.fills == [f] && e.portfolio == Book(EMPTY, FillOfRecord(f)) && e.cash == config.initialCash + Flow(f)
  {
    var book := EMPTY_BOOK.(prices := map[bar.symbol := bar.close]);
    assert EMPTY_BOOK.prices[bar.symbol := bar.close] == book.prices;
    MockExecutes(config, book, bar, Request(1, it));
  }

  lemma FirstOrder(config: BacktestConfig, it: OrderIntent, bar: PriceBar)
    requires PlainOrder(it, bar)
    ensures var e, t := Run(Asking(config, it), MockVenue(EMPTY_BOOK), [bar]), FirstTrade(config, it, bar);
      && !e.crashed && e.venue == t.venue && e.orderSeq == t.orderSeq
      && e.fills == t.fills && e.portfolio == t.portfolio && e.cash == t.cash
  {
    FirstBar(config, it, bar);
  }

  /**
   A sell from flat. The broker ignores the shares and reports the fill, the engine cashes it, the
   portfolio refuses it: cash from nowhere, by exactly the refused notional.
   */
  lemma SellFromFlatRaisesCash(config: BacktestConfig, s: Symbol, q: int, price: real, timestamp: int)
    requires q > 0 && price > 0.0
    ensures var bar := PriceBar(s, timestamp, price);
      var e := Run(Asking(config, MarketIntent(s, Sell, q)), MockVenue(EMPTY_BOOK), [bar]);
      && !Accounting.NoneRefused(e.fills)
      && e.portfolio == EMPTY && e.venue.MockVenue? && e.venue.book.positions == map[]
      && e.cash == config.initialCash + q as real * price - Commissions(e.fills) - Taxes(e.fills)
      && Accounting.RefusedNotional(e.fills) == q as real * price > 0.0
  {
    var it, bar := MarketIntent(s, Sell, q), PriceBar(s, timestamp, price);
    FirstOrder(config, it, bar);
    FirstBooks(config, it, bar);
    FirstFill(config, it, bar);
    SoldAlone(config, FirstTrade(config, it, bar), Record(config, Request(1, it), q, price, timestamp), q, price);
    var positions := FirstTrade(config, it, bar).venue.book.positions;
    assert Row(positions, s) == None;
    assert positions == map[];
  }

  lemma SoldAlone(config: BacktestConfig, e: Engine, f: FillRecord, q: int, price: real)
    requires f.side.Sell? && f.quantity == q && f.price == price > 0.0
    requires e.fills == [f] && e.portfolio == Book(EMPTY, FillOfRecord(f)) && e.cash == config.initialCash + Flow(f)
    ensures !Accounting.NoneRefused(e.fills) && e.portfolio == EMPTY
    ensures e.cash == config.initialCash + q as real * price - Commissions(e.fills) - Taxes(e.fills)
    ensures Accounting.RefusedNotional(e.fills) == q as real * price > 0.0
  {
    RefusedAlone(f);
  }

  lemma RefusedAlone(f: FillRecord)
    requires f.side.Sell? && f.price > 0.0
    ensures !Accounting.NoneRefused([f]) && Book(EMPTY, FillOfRecord(f)) == EMPTY
    ensures Accounting.RefusedNotional([f]) == f.quantity as real * f.price > 0.0
    ensures Commissions([f]) == f.commission && Taxes([f]) == f.tax
  {
    assert [f][..0] == [] && [f][..1] == [f];
    assert Accounting.Replay([]) == EMPTY;
    assert Accounting.RefusedLast([f]);
    assert Accounting.RefusedNotional([]) == 0.0 && Commissions([]) == 0.0 && Taxes([]) == 0.0;
    Accounting.PositiveNotional(FillOfRecord(f));
  }

  /** A buy of a negative quantity leaves the broker short and the portfolio empty. */
  lemma NegativeBuyParts(config: BacktestConfig, s: Symbol, q: int, price: real, timestamp: int)
    requires q < 0
    ensures var bar := PriceBar(s, timestamp, price);
      var e := Run(Asking(config, MarketIntent(s, Buy, q)), MockVenue(EMPTY_BOOK), [bar]);
      && !e.crashed && e.venue.MockVenue? && !Together(e.venue.book, e.portfolio)
      && Row(e.venue.book.positions, s) == Some(Holding(q, price)) && e.portfolio == EMPTY && e.fills == []
  {
    FirstOrder(config, MarketIntent(s, Buy, q), PriceBar(s, timestamp, price));
    FirstBooks(config, MarketIntent(s, Buy, q), PriceBar(s, timestamp, price));
    FirstFill(config, MarketIntent(s, Buy, q), PriceBar(s, timestamp, price));
    var e := Run(Asking(config, MarketIntent(s, Buy, q)), MockVenue(EMPTY_BOOK), [PriceBar(s, timestamp, price)]);
    assert Live(Row(e.venue.book.positions, s)) != LocalRow(e.portfolio, s);
  }

  /** Two buys of nothing divide by zero: the run has no result. */
  lemma TwoEmptyBuysCrash(config: BacktestConfig, s: Symbol, price: real, timestamp: int)
    ensures var bar := PriceBar(s, timestamp, price);
      Run(Asking(config, MarketIntent(s, Buy, 0)), MockVenue(EMPTY_BOOK), [bar, bar]).crashed
  {
    var it, bar := MarketIntent(s, Buy, 0), PriceBar(s, timestamp, price);
    var setup := Asking(config, it);
    FirstOrder(config, it, bar);
    FirstBooks(config, it, bar);
    assert [bar] + [bar] == [bar, bar];
    RunOneMore(setup, MockVenue(EMPTY_BOOK), [bar], bar);
    SecondEmptyBuy(config, it, bar, Run(setup, MockVenue(EMPTY_BOOK), [bar]));
  }

  lemma SecondEmptyBuy(config: BacktestConfig, it: OrderIntent, bar: PriceBar, e: Engine)
    requires PlainOrder(it, bar) && it.side.Buy? && it.quantity == 0 && !e.crashed && e.orderSeq == 1
    requires e.venue.MockVenue? && e.venue.book.acks.Keys == {OrderId(1)}
    requires Row(e.venue.book.positions, it.symbol) == Some(Holding(0, bar.close))
    ensures OnBar(Asking(config, it), e, bar).crashed
  {
    if OrderId(2) == OrderId(1) {
      ClientIdInjective("bt", 2, "bt", 1);
    }
    OneBar(config, it, e, bar);
    MockExecutes(config, Quoted(Asking(config, it), e, bar).venue.book, bar, Request(2, it));
  }
}
