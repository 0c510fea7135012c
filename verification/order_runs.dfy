/** Runs from an empty in-memory broker on which the two books part. */
module OrderRuns {
  import opened Types
  import opened Sums
  import opened Portfolios
  import opened Orders
  import opened Brokers
  import opened Gateways
  import opened Risk
  import opened Strategies
  import opened Runtimes
  import opened Agreement
  import opened Simulation
  import opened OrderPairs
  import opened Recovery
  import opened Discoveries
  import opened LiveBounds

  // ---- A configuration that lets every order below through ----

  const WIDE := RiskLimits(1000000.0, 1000000, 1000000.0, 1000000.0, 1000000)

  function WideConfig(strategy: Strategy): Config {
    Config("rt", strategy, WIDE, n => 0, n => false, 60)
  }

  lemma ExposureOfNone(quotes: map<Symbol, Quote>)
    ensures GrossExposure(EMPTY, quotes) == 0.0 && TotalRealizedPnl(EMPTY) == 0.0
  {
  }

  lemma SumOfOne(keys: set<Symbol>, f: Symbol -> real, s: Symbol)
    requires keys == {s}
    ensures Sum(keys, f) == f(s)
  {
    SumRemove(keys, f, s);
    assert keys - {s} == {};
  }

  /** A portfolio of one row that never sold. */
  lemma ExposureOfOne(p: Portfolio, quotes: map<Symbol, Quote>, s: Symbol)
    requires p.positions.Keys == {s} && s in quotes && p.positions[s].quantity > 0 && p.positions[s].realizedPnl == 0.0
    ensures GrossExposure(p, quotes) == p.positions[s].quantity as real * quotes[s].lastPrice
    ensures TotalRealizedPnl(p) == 0.0
  {
    SumOfOne(p.positions.Keys, t => RowExposure(p, quotes, t), s);
    SumOfOne(p.positions.Keys, t => RowRealized(p, t), s);
  }

  function OrderOf(c: Config, n: nat, it: OrderIntent): Order
    requires it.quantity > 0
  {
    Order(ClientId(c.prefix, n), it.symbol, it.side, it.orderType, it.quantity, it.limitPrice)
  }

  /** Shares and prices here are far below the limits. */
  ghost predicate Small(p: Portfolio, quotes: map<Symbol, Quote>, it: OrderIntent) {
    && it.orderType.Market? && it.limitPrice.None? && 0 < it.quantity <= 10
    && it.symbol in quotes && 0.0 < quotes[it.symbol].lastPrice <= 1000.0 && quotes[it.symbol].timestamp >= 0
    && Held(p, it.symbol) <= 10 && GrossExposure(p, quotes) <= 10000.0 && TotalRealizedPnl(p) == 0.0
  }

  lemma Times(n: int, price: real)
    requires 0 < n <= 10 && 0.0 < price <= 1000.0
    ensures n as real * price <= 10000.0
  {
    assert n as real * price <= 10.0 * price;
  }

  lemma SmallIsPlaced(c: Config, d: Desk, it: OrderIntent, quotes: map<Symbol, Quote>)
    requires c.limits == WIDE && c.clock(d.orderSeq + 1) == 0 && !c.killed(d.orderSeq + 1)
    requires Small(d.portfolio, quotes, it)
    ensures Place(c, d, it, quotes) == Send(d.(orderSeq := d.orderSeq + 1), OrderOf(c, d.orderSeq + 1, it))
  {
    SmallPasses(d.portfolio, quotes, it, OrderOf(c, d.orderSeq + 1, it));
  }

  lemma SmallPasses(p: Portfolio, quotes: map<Symbol, Quote>, it: OrderIntent, order: Order)
    requires Small(p, quotes, it) && order.symbol == it.symbol && order.quantity == it.quantity
    requires order.limitPrice == it.limitPrice
    ensures CheckOrder(WIDE, false, 0, order, p, quotes).Ok?
  {
    Times(it.quantity, quotes[it.symbol].lastPrice);
  }

  lemma CycleOfOne(c: Config, d: Desk, x: OrderIntent, quotes: map<Symbol, Quote>)
    ensures Cycle(c, d, [x], quotes).0 == Place(c, d, x, quotes).0
  {
    CycleOneMore(c, d, [], x, quotes);
    assert [] + [x] == [x];
  }

  lemma CycleOfTwo(c: Config, d: Desk, x: OrderIntent, y: OrderIntent, quotes: map<Symbol, Quote>)
    ensures Cycle(c, d, [x, y], quotes).0 == Place(c, Place(c, d, x, quotes).0, y, quotes).0
  {
    CycleOfOne(c, d, x, quotes);
    CycleOneMore(c, d, [x], y, quotes);
    assert [x] + [y] == [x, y];
  }

  // ---- A first buy, synced ----

  function Fresh(): Runtime {
    Runtime(FreshDesk(MockVenue(EMPTY_BOOK)), EMPTY_TAPE)
  }

  const FIRST := ClientId("rt", 1)

  /** One order filled and booked, both books at `q` shares for `price`. */
  ghost predicate Bought(d: Desk, s: Symbol, q: int, price: real) {
    && Settled(d)
    && d.portfolio.positions == map[s := PositionState(s, q, price, 0.0)]
    && d.orderSeq == 1 && d.openLocal == map[]
    && d.exec.brokerIds.Keys == {FIRST} && d.exec.machine.statuses.Keys == {FIRST}
    && d.exec.venue.book.acks.Keys == {FIRST} && d.exec.venue.book.prices == map[s := price]
    && FIRST in d.exec.venue.book.acks && d.exec.venue.book.acks[FIRST].brokerOrderId in d.exec.venue.book.reports
    && var r := d.exec.venue.book.reports[d.exec.venue.book.acks[FIRST].brokerOrderId];
    && Done(r) && r.symbol == s && r.side == Buy && r.filledQuantity == q
  }

  lemma FirstBuy(c: Config, s: Symbol, q: int, price: real, timestamp: int)
    requires c.prefix == "rt" && c.limits == WIDE && (forall n :: c.clock(n) == 0 && !c.killed(n))
    requires 0 < q <= 10 && 0.0 < price <= 1000.0 && timestamp >= 0
    requires var quote := Quote(s, price, timestamp);
      c.strategy(TakeSnapshot(c, Runtime(Fresh().desk, OnQuote(c, EMPTY_TAPE, quote)))) == [MarketIntent(s, Buy, q)]
    ensures var quote := Quote(s, price, timestamp);
      && Enumerates([FIRST], Decided(c, Fresh(), quote).desk.openLocal.Keys)
      && Bought(Tick(c, Fresh(), quote, [FIRST]).desk, s, q, price)
  {
    var quote, order := Quote(s, price, timestamp), OrderOf(c, 1, MarketIntent(s, Buy, q));
    var b := EMPTY_BOOK.(prices := map[s := price]);
    var next := FreshDesk(MockVenue(b)).(orderSeq := 1);
    FirstTickSends(c, s, q, price, timestamp);
    FreshStart("rt");
    SameReportsKeepBoundary("rt", Fresh().desk, b);
    FirstOrder(next, order, b, s, q, price);
    SyncsOne(Send(next, order).0, FIRST);
  }

  lemma SyncsOne(d: Desk, id: string)
    ensures SyncAll(d, [id]).0 == Sync(d, id).0
  {
    assert [id] == [] + [id];
    SyncOneMore(d, [], id);
  }

  lemma FirstTickSends(c: Config, s: Symbol, q: int, price: real, timestamp: int)
    requires c.prefix == "rt" && c.limits == WIDE && (forall n :: c.clock(n) == 0 && !c.killed(n))
    requires 0 < q <= 10 && 0.0 < price <= 1000.0 && timestamp >= 0
    requires var quote := Quote(s, price, timestamp);
      c.strategy(TakeSnapshot(c, Runtime(Fresh().desk, OnQuote(c, EMPTY_TAPE, quote)))) == [MarketIntent(s, Buy, q)]
    ensures var next := FreshDesk(MockVenue(EMPTY_BOOK.(prices := map[s := price]))).(orderSeq := 1);
      Decided(c, Fresh(), Quote(s, price, timestamp)).desk == Send(next, OrderOf(c, 1, MarketIntent(s, Buy, q))).0
  {
    var quote, it := Quote(s, price, timestamp), MarketIntent(s, Buy, q);
    var d := FreshDesk(MockVenue(EMPTY_BOOK.(prices := map[s := price])));
    var quotes := OnQuote(c, EMPTY_TAPE, quote).quotes;
    assert WithVenue(Fresh().desk, Priced(MockVenue(EMPTY_BOOK), s, price)) == d;
    ExposureOfNone(quotes);
    CycleOfOne(c, d, it, quotes);
    SmallIsPlaced(c, d, it, quotes);
  }

  lemma FirstOrder(d: Desk, order: Order, b: MockBook, s: Symbol, q: int, price: real)
    requires b == EMPTY_BOOK.(prices := map[s := price]) && d == FreshDesk(MockVenue(b)).(orderSeq := 1)
    requires q > 0 && order == Order(FIRST, s, Buy, OrderType.Market, q, None) && Mid(d)
    ensures var sent := Send(d, order).0; sent.openLocal.Keys == {FIRST} && Bought(Sync(sent, FIRST).0, s, q, price)
  {
    SendOne(d, order);
    var sent := Send(d, order).0;
    SendKeepsMid(d, order);
    SyncOne(sent, FIRST);
    SyncKeepsMid(sent, FIRST);
    var e := Sync(sent, FIRST).0;
    assert NothingUnseen(e.openLocal, e.exec.venue.book);
    forall t
      ensures Row(e.exec.venue.book.positions, t) == LocalRow(e.portfolio, t)
    {
      assert Quiet(e.openLocal, e.exec.venue.book, t);
      QuietAgrees(e.openLocal, e.exec.venue.book, e.portfolio, t);
    }
  }

  // ---- A buy and a sell in one cycle ----

  /** Buy a lot when flat, and then, in every cycle, buy one and sell one. */
  function Swing(s: Symbol): Strategy {
    snap =>
      if HeldShares(snap, s) == 0 then [MarketIntent(s, Buy, 10)]
      else [MarketIntent(s, Buy, 10), MarketIntent(s, Sell, 10)]
  }

  const SECOND := ClientId("rt", 2)
  const THIRD := ClientId("rt", 3)

  lemma IdsDiffer()
    ensures FIRST != SECOND && SECOND != THIRD && FIRST != THIRD
  {
    if FIRST == SECOND {
      ClientIdInjective("rt", 1, "rt", 2);
    }
    if SECOND == THIRD {
      ClientIdInjective("rt", 2, "rt", 3);
    }
    if FIRST == THIRD {
      ClientIdInjective("rt", 1, "rt", 3);
    }
  }

  lemma SecondTickSends(c: Config, s: Symbol, r: Runtime, price: real)
    requires c == WideConfig(Swing(s)) && Bought(r.desk, s, 10, 50.0) && 0.0 < price <= 100.0
    ensures var d := WithVenue(r.desk, Priced(r.desk.exec.venue, s, price));
      var buy, sell := OrderOf(c, 2, MarketIntent(s, Buy, 10)), OrderOf(c, 3, MarketIntent(s, Sell, 10));
      Decided(c, r, Quote(s, price, 1)).desk == Send(Send(d.(orderSeq := 2), buy).0.(orderSeq := 3), sell).0
  {
    var quote, buy, sell := Quote(s, price, 1), MarketIntent(s, Buy, 10), MarketIntent(s, Sell, 10);
    var d, quotes := WithVenue(r.desk, Priced(r.desk.exec.venue, s, price)), OnQuote(c, r.tape, quote).quotes;
    assert c.strategy(TakeSnapshot(c, Runtime(d, OnQuote(c, r.tape, quote)))) == [buy, sell];
    ExposureOfOne(d.portfolio, quotes, s);
    CycleOfTwo(c, d, buy, sell, quotes);
    SmallIsPlaced(c, d, buy, quotes);
    var sent := Send(d.(orderSeq := 2), OrderOf(c, 2, buy)).0;
    SameDesk(d.(orderSeq := 2), OrderOf(c, 2, buy));
    SmallIsPlaced(c, sent, sell, quotes);
  }

  lemma SameDesk(d: Desk, order: Order)
    ensures Send(d, order).0.portfolio == d.portfolio && Send(d, order).0.orderSeq == d.orderSeq
  {
  }

  /** Two ticks from an empty broker: a lot at 50, then a buy and a sell at 100 in one cycle. */
  function SwingEvents(s: Symbol, order: seq<string>): seq<SimEvent> {
    [Ticked(Quote(s, 50.0, 0), [FIRST]), Ticked(Quote(s, 100.0, 1), order)]
  }

  lemma SwingFirst(s: Symbol)
    ensures var c := WideConfig(Swing(s));
      && Enumerates([FIRST], Decided(c, Fresh(), Quote(s, 50.0, 0)).desk.openLocal.Keys)
      && Bought(Tick(c, Fresh(), Quote(s, 50.0, 0), [FIRST]).desk, s, 10, 50.0)
  {
    FirstBuy(WideConfig(Swing(s)), s, 10, 50.0, 0);
  }

  lemma SwingSecond(s: Symbol, r: Runtime)
    requires Bought(r.desk, s, 10, 50.0)
    ensures var c, quote := WideConfig(Swing(s)), Quote(s, 100.0, 1);
      var e := Decided(c, r, quote).desk;
      e.openLocal.Keys == {SECOND, THIRD} && AgreesAsSent(e, SECOND, THIRD, false)
  {
    SecondTickSends(WideConfig(Swing(s)), s, r, 100.0);
    SwingOrders(s, r.desk);
    SwingOpens(s, r.desk);
  }

  lemma RepricedIsSettled(s: Symbol, d: Desk, price: real)
    requires Settled(d)
    ensures var e := WithVenue(d, Priced(d.exec.venue, s, price)).(orderSeq := 2);
      && Settled(e) && e.openLocal == d.openLocal && e.portfolio == d.portfolio
      && e.exec.brokerIds == d.exec.brokerIds && e.exec.machine == d.exec.machine
      && e.exec.venue.book.acks == d.exec.venue.book.acks
      && e.exec.venue.book.prices == d.exec.venue.book.prices[s := price]
  {
    SameReportsKeepSettled(d, d.exec.venue.book.(prices := d.exec.venue.book.prices[s := price]));
  }

  lemma SwingOrders(s: Symbol, r: Desk)
    requires Bought(r, s, 10, 50.0)
    ensures var c, d := WideConfig(Swing(s)), WithVenue(r, Priced(r.exec.venue, s, 100.0)).(orderSeq := 2);
      var buy, sell := OrderOf(c, 2, MarketIntent(s, Buy, 10)), OrderOf(c, 3, MarketIntent(s, Sell, 10));
      AgreesAsSent(Send(Send(d, buy).0.(orderSeq := 3), sell).0, SECOND, THIRD, false)
  {
    var c, d := WideConfig(Swing(s)), WithVenue(r, Priced(r.exec.venue, s, 100.0)).(orderSeq := 2);
    var buy, sell := OrderOf(c, 2, MarketIntent(s, Buy, 10)), OrderOf(c, 3, MarketIntent(s, Sell, 10));
    IdsDiffer();
    RepricedIsSettled(s, r, 100.0);
    SwingCannotSwap(s, d.portfolio, d.exec.venue.book, buy, sell);
    TwoOrdersExactly(d, buy, sell, 3);
  }

  lemma SwingOpens(s: Symbol, r: Desk)
    requires Bought(r, s, 10, 50.0)
    ensures var c, d := WideConfig(Swing(s)), WithVenue(r, Priced(r.exec.venue, s, 100.0)).(orderSeq := 2);
      var buy, sell := OrderOf(c, 2, MarketIntent(s, Buy, 10)), OrderOf(c, 3, MarketIntent(s, Sell, 10));
      Send(Send(d, buy).0.(orderSeq := 3), sell).0.openLocal.Keys == {SECOND, THIRD}
  {
    var c, d := WideConfig(Swing(s)), WithVenue(r, Priced(r.exec.venue, s, 100.0)).(orderSeq := 2);
    IdsDiffer();
    RepricedIsSettled(s, r, 100.0);
    TwoOrdersOpen(d, OrderOf(c, 2, MarketIntent(s, Buy, 10)), OrderOf(c, 3, MarketIntent(s, Sell, 10)), 3);
  }

  /** The buy moves the average away from 50 before the sale, or comes after it. */
  lemma SwingCannotSwap(s: Symbol, p: Portfolio, b: MockBook, buy: Order, sell: Order)
    requires p.positions == map[s := PositionState(s, 10, 50.0, 0.0)] && s in b.prices && b.prices[s] == 100.0
    requires buy == Order(SECOND, s, Buy, OrderType.Market, 10, None)
    requires sell == Order(THIRD, s, Sell, OrderType.Market, 10, None)
    ensures !CanSwap(LocalRow(p, s), MoveFor(b, buy), MoveFor(b, sell))
  {
  }

  /** The second sync as the orders were sent, or the other way round. */
  function SecondSync(asSent: bool): seq<string> {
    if asSent then [SECOND, THIRD] else [THIRD, SECOND]
  }

  /**
   From an empty broker, with a buy and a sell in one cycle: agreeing books or parted ones, as the sync happens
   to go.
   */
  lemma TwoOrdersOneSymbolDisagree(s: Symbol, asSent: bool)
    ensures var c, evs := WideConfig(Swing(s)), SwingEvents(s, SecondSync(asSent));
      var d := SimRun(c, Fresh(), evs).desk;
      && FullSyncs(c, Fresh(), evs) && d.exec.venue.MockVenue?
      && (BooksAgree(d.exec.venue.book, d.portfolio) <==> asSent)
  {
    var c, evs := WideConfig(Swing(s)), SwingEvents(s, SecondSync(asSent));
    var r := Tick(c, Fresh(), Quote(s, 50.0, 0), [FIRST]);
    SwingFirst(s);
    SwingTicked(s, r, asSent);
    TwoTicks(c, evs);
  }

  lemma SwingTicked(s: Symbol, r: Runtime, asSent: bool)
    requires Bought(r.desk, s, 10, 50.0)
    ensures var c, quote := WideConfig(Swing(s)), Quote(s, 100.0, 1);
      var d := Tick(c, r, quote, SecondSync(asSent)).desk;
      && Enumerates(SecondSync(asSent), Decided(c, r, quote).desk.openLocal.Keys)
      && d.exec.venue.MockVenue? && (BooksAgree(d.exec.venue.book, d.portfolio) <==> asSent)
  {
    IdsDiffer();
    SwingSecond(s, r);
    SyncKeepsVenue(Decided(WideConfig(Swing(s)), r, Quote(s, 100.0, 1)).desk, SecondSync(asSent));
    assert Enumerates(SecondSync(asSent), {SECOND, THIRD});
  }

  lemma TwoTicks(c: Config, evs: seq<SimEvent>)
    requires |evs| == 2
    ensures SimRun(c, Fresh(), evs) == SimStep(c, SimStep(c, Fresh(), evs[0]), evs[1])
    ensures FullSyncs(c, Fresh(), evs) <==>
      && (evs[0].Ticked? ==> Enumerates(evs[0].order, Decided(c, Fresh(), evs[0].quote).desk.openLocal.Keys))
      && (evs[1].Ticked? ==> Enumerates(evs[1].order,
            Decided(c, SimStep(c, Fresh(), evs[0]), evs[1].quote).desk.openLocal.Keys))
  {
    var one := evs[..1];
    assert one[..0] == [] && one[0] == evs[0];
    OneTick(c, one);
  }

  lemma OneTick(c: Config, evs: seq<SimEvent>)
    requires |evs| == 1
    ensures SimRun(c, Fresh(), evs) == SimStep(c, Fresh(), evs[0])
    ensures FullSyncs(c, Fresh(), evs) <==>
      (evs[0].Ticked? ==> Enumerates(evs[0].order, Decided(c, Fresh(), evs[0].quote).desk.openLocal.Keys))
  {
    assert evs[..0] == [];
  }

  lemma {:induction false} SyncKeepsVenue(d: Desk, order: seq<string>)
    requires d.exec.venue.MockVenue?
    ensures SyncAll(d, order).0.exec.venue == d.exec.venue
    decreases |order|
  {
    if order != [] {
      SyncKeepsVenue(d, order[..|order| - 1]);
    }
  }

  // ---- A restart under the same prefix ----

  function Always(s: Symbol): Strategy {
    snap => [MarketIntent(s, Buy, 10)]
  }

  lemma RebuiltLot(positions: map<Symbol, Holding>, s: Symbol, q: int, price: real)
    requires positions == map[s := Holding(q, price)] && q > 0
    ensures Restored(EMPTY, SortedPositions(positions, positions.Keys)).positions
        == map[s := PositionState(s, q, price, 0.0)]
  {
    assert positions.Keys == {s} && Least({s}) == s && {s} - {s} == {};
    var list := [Position(s, q, price)];
    assert SortedPositions(positions, positions.Keys) == list;
    assert list[..0] == [];
  }

  /** The recovered runtime: the books agree, nothing is open, the sequence starts again. */
  lemma RecoveredLot(d: Desk, s: Symbol)
    requires Bought(d, s, 10, 50.0)
    ensures var e := Recover(FreshDesk(d.exec.venue), map[], []).0;
      && Settled(e) && e.exec.venue == d.exec.venue && e.orderSeq == 0 && e.openLocal == map[]
      && e.exec.brokerIds == map[] && e.exec.machine.statuses == map[]
      && e.portfolio.positions == map[s := PositionState(s, 10, 50.0, 0.0)]
  {
    var b := d.exec.venue.book;
    RestartSettles(b, map[], []);
    forall t
      ensures t in b.positions <==> t == s
    {
      assert Row(b.positions, t) == LocalRow(d.portfolio, t);
    }
    assert Row(b.positions, s) == LocalRow(d.portfolio, s);
    assert b.positions == map[s := Holding(10, 50.0)];
    RebuiltLot(b.positions, s, 10, 50.0);
  }

  lemma AgainTickSends(s: Symbol, d: Desk)
    requires d.exec.venue.MockVenue? && d.exec.venue.book.prices == map[s := 50.0] && d.orderSeq == 0
    requires d.portfolio.positions == map[s := PositionState(s, 10, 50.0, 0.0)]
    ensures var c := WideConfig(Always(s));
      Decided(c, Runtime(d, EMPTY_TAPE), Quote(s, 50.0, 1)).desk
        == Send(d.(orderSeq := 1), OrderOf(c, 1, MarketIntent(s, Buy, 10))).0
  {
    var c, quote, it := WideConfig(Always(s)), Quote(s, 50.0, 1), MarketIntent(s, Buy, 10);
    var quotes := OnQuote(c, EMPTY_TAPE, quote).quotes;
    assert d.exec.venue.book.prices[s := 50.0] == d.exec.venue.book.prices;
    assert WithVenue(d, Priced(d.exec.venue, s, 50.0)) == d;
    assert c.strategy(TakeSnapshot(c, Runtime(d, OnQuote(c, EMPTY_TAPE, quote)))) == [it];
    ExposureOfOne(d.portfolio, quotes, s);
    CycleOfOne(c, d, it, quotes);
    SmallIsPlaced(c, d, it, quotes);
  }

  /**
   From an empty broker: buy a lot and sync it; crash; recover under the same prefix; buy a lot. The
   books agree before the crash and after the recovery, and no longer after the first order.
   */
  lemma RestartBooksTwice(s: Symbol)
    ensures var c := WideConfig(Always(s));
      var before := Tick(c, Fresh(), Quote(s, 50.0, 0), [FIRST]).desk;
      var restarted := Recover(FreshDesk(before.exec.venue), map[], []).0;
      var after := Tick(c, Runtime(restarted, EMPTY_TAPE), Quote(s, 50.0, 1), [FIRST]).desk;
      && Enumerates([FIRST], Decided(c, Fresh(), Quote(s, 50.0, 0)).desk.openLocal.Keys)
      && Settled(before) && Settled(restarted)
      && after.exec.venue == before.exec.venue && !BooksAgree(after.exec.venue.book, after.portfolio)
  {
    var c := WideConfig(Always(s));
    FirstBuy(c, s, 10, 50.0, 0);
    var before := Tick(c, Fresh(), Quote(s, 50.0, 0), [FIRST]).desk;
    AgainAfterRestart(s, before);
  }

  lemma AgainAfterRestart(s: Symbol, before: Desk)
    requires Bought(before, s, 10, 50.0)
    ensures var restarted := Recover(FreshDesk(before.exec.venue), map[], []).0;
      var after := Tick(WideConfig(Always(s)), Runtime(restarted, EMPTY_TAPE), Quote(s, 50.0, 1), [FIRST]).desk;
      && Settled(restarted)
      && after.exec.venue == before.exec.venue && !BooksAgree(after.exec.venue.book, after.portfolio)
  {
    RecoveredLot(before, s);
    var restarted := Recover(FreshDesk(before.exec.venue), map[], []).0;
    AgainTickSends(s, restarted);
    var order := OrderOf(WideConfig(Always(s)), 1, MarketIntent(s, Buy, 10));
    assert Mid(restarted.(orderSeq := 1));
    ReusedIdBooksTwice(restarted.(orderSeq := 1), order);
    SyncsOne(Send(restarted.(orderSeq := 1), order).0, FIRST);
  }

  // ---- Two buys that pass the exposure check one by one ----

  const TIGHT := RiskLimits(1000000.0, 1000000, 600.0, 1000000.0, 1000000)

  /** A lot of each of two symbols as soon as both have a quote. */
  function Both(s: Symbol, t: Symbol): Strategy {
    (snap: Snapshot) =>
      if s in snap.quotes && t in snap.quotes then [MarketIntent(s, Buy, 10), MarketIntent(t, Buy, 10)] else []
  }

  function TightConfig(s: Symbol, t: Symbol): Config {
    Config("rt", Both(s, t), TIGHT, n => 0, n => false, 60)
  }

  lemma TightIsPlaced(c: Config, d: Desk, it: OrderIntent, quotes: map<Symbol, Quote>)
    requires c.limits == TIGHT && c.clock(d.orderSeq + 1) == 0 && !c.killed(d.orderSeq + 1) && d.portfolio == EMPTY
    requires it == MarketIntent(it.symbol, Buy, 10) && it.symbol in quotes
    requires quotes[it.symbol].lastPrice == 50.0 && quotes[it.symbol].timestamp == 0
    ensures Place(c, d, it, quotes) == Send(d.(orderSeq := d.orderSeq + 1), OrderOf(c, d.orderSeq + 1, it))
  {
    ExposureOfNone(quotes);
  }

  /** After the first quote: nothing sent, the venue has one price. */
  function OneQuoted(s: Symbol, t: Symbol): Runtime {
    var q := Quote(s, 50.0, 0);
    Runtime(FreshDesk(MockVenue(EMPTY_BOOK.(prices := map[s := 50.0]))), OnQuote(TightConfig(s, t), EMPTY_TAPE, q))
  }

  lemma FirstQuoteIsQuiet(s: Symbol, t: Symbol)
    requires s != t
    ensures var c, quote := TightConfig(s, t), Quote(s, 50.0, 0);
      && Decided(c, Fresh(), quote) == OneQuoted(s, t) && Tick(c, Fresh(), quote, []) == OneQuoted(s, t)
      && Enumerates([], OneQuoted(s, t).desk.openLocal.Keys)
    ensures Boundary("rt", OneQuoted(s, t).desk)
  {
    var c, quote := TightConfig(s, t), Quote(s, 50.0, 0);
    var d := FreshDesk(MockVenue(EMPTY_BOOK.(prices := map[s := 50.0])));
    assert WithVenue(Fresh().desk, Priced(MockVenue(EMPTY_BOOK), s, 50.0)) == d;
    assert c.strategy(TakeSnapshot(c, Runtime(d, OnQuote(c, EMPTY_TAPE, quote)))) == [];
    FreshStart("rt");
    SameReportsKeepBoundary("rt", Fresh().desk, d.exec.venue.book);
  }

  /** The desk of the second tick before its orders. */
  function TwoPriced(s: Symbol, t: Symbol): Desk {
    FreshDesk(MockVenue(EMPTY_BOOK.(prices := map[s := 50.0, t := 50.0])))
  }

  /** The second tick asks for a lot of each. */
  lemma ShownTwo(s: Symbol, t: Symbol)
    requires s != t
    ensures var c, shown := TightConfig(s, t), Shown(TightConfig(s, t), OneQuoted(s, t), Quote(t, 50.0, 0));
      && shown.desk == TwoPriced(s, t)
      && c.strategy(TakeSnapshot(c, shown)) == [MarketIntent(s, Buy, 10), MarketIntent(t, Buy, 10)]
      && s in shown.tape.quotes && t in shown.tape.quotes
      && shown.tape.quotes[s] == Quote(s, 50.0, 0) && shown.tape.quotes[t] == Quote(t, 50.0, 0)
  {
    var r := OneQuoted(s, t);
    assert map[s := 50.0][t := 50.0] == map[s := 50.0, t := 50.0];
    assert WithVenue(r.desk, Priced(r.desk.exec.venue, t, 50.0)) == TwoPriced(s, t);
  }

  lemma SecondQuoteSends(s: Symbol, t: Symbol)
    requires s != t
    ensures var c, d := TightConfig(s, t), TwoPriced(s, t);
      var x, y := OrderOf(c, 1, MarketIntent(s, Buy, 10)), OrderOf(c, 2, MarketIntent(t, Buy, 10));
      Decided(c, OneQuoted(s, t), Quote(t, 50.0, 0)).desk
        == Send(Send(d.(orderSeq := 1), x).0.(orderSeq := 2), y).0
  {
    var c, d := TightConfig(s, t), TwoPriced(s, t);
    var x, y := MarketIntent(s, Buy, 10), MarketIntent(t, Buy, 10);
    var quotes := Shown(c, OneQuoted(s, t), Quote(t, 50.0, 0)).tape.quotes;
    ShownTwo(s, t);
    CycleOfTwo(c, d, x, y, quotes);
    TightIsPlaced(c, d, x, quotes);
    SameDesk(d.(orderSeq := 1), OrderOf(c, 1, x));
    TightIsPlaced(c, Send(d.(orderSeq := 1), OrderOf(c, 1, x)).0, y, quotes);
  }

  lemma BothOpen(s: Symbol, t: Symbol)
    requires s != t
    ensures Decided(TightConfig(s, t), OneQuoted(s, t), Quote(t, 50.0, 0)).desk.openLocal.Keys == {FIRST, SECOND}
  {
    var c, d := TightConfig(s, t), TwoPriced(s, t).(orderSeq := 1);
    SecondQuoteSends(s, t);
    IdsDiffer();
    FreshStart("rt");
    SameReportsKeepBoundary("rt", Fresh().desk, d.exec.venue.book);
    assert Mid(d);
    TwoOrdersOpen(d, OrderOf(c, 1, MarketIntent(s, Buy, 10)), OrderOf(c, 2, MarketIntent(t, Buy, 10)), 2);
  }

  /** Each of the two orders is let through, fills, and is worth 500. */
  lemma LotAdds(c: Config, d: Desk, it: OrderIntent, quotes: map<Symbol, Quote>, n: nat)
    requires c.limits == TIGHT && c.clock(n) == 0 && !c.killed(n) && d.portfolio == EMPTY && d.exec.venue.MockVenue?
    requires d.exec.brokerIds == map[] && d.exec.machine.statuses == map[] && it.symbol in d.exec.venue.book.prices
    requires it == MarketIntent(it.symbol, Buy, 10) && it.symbol in quotes
    requires quotes[it.symbol].lastPrice == 50.0 && quotes[it.symbol].timestamp == 0
    ensures IntentAdds(Exposure(quotes), c, d, quotes, it, n) == 500.0
  {
    ExposureOfNone(quotes);
    assert Fills(c, d, quotes, it, n);
  }

  lemma TwoAddUp(m: Measure, c: Config, d: Desk, x: OrderIntent, y: OrderIntent, quotes: map<Symbol, Quote>)
    requires d.exec.venue.MockVenue?
    ensures AddsUp(m, c, d, [x, y], quotes)
         == IntentAdds(m, c, d, quotes, x, d.orderSeq + 1) + IntentAdds(m, c, d, quotes, y, d.orderSeq + 2)
  {
    assert [x, y][..1] == [x] && [x][..0] == [];
    assert AddsUp(m, c, d, [x], quotes) == IntentAdds(m, c, d, quotes, x, d.orderSeq + 1);
  }

  lemma OneEach(s: Symbol, t: Symbol)
    requires s != t
    ensures OneOrderPerSymbol(Both(s, t))
  {
  }

  lemma LotsAddUp(s: Symbol, t: Symbol, quotes: map<Symbol, Quote>)
    requires s in quotes && t in quotes && quotes[s] == Quote(s, 50.0, 0) && quotes[t] == Quote(t, 50.0, 0)
    ensures AddsUp(Exposure(quotes), TightConfig(s, t), TwoPriced(s, t),
                   [MarketIntent(s, Buy, 10), MarketIntent(t, Buy, 10)], quotes) == 1000.0
  {
    var c, d := TightConfig(s, t), TwoPriced(s, t);
    var x, y := MarketIntent(s, Buy, 10), MarketIntent(t, Buy, 10);
    LotAdds(c, d, x, quotes, 1);
    LotAdds(c, d, y, quotes, 2);
    TwoAddUp(Exposure(quotes), c, d, x, y, quotes);
  }

  lemma SecondTickAddsUp(s: Symbol, t: Symbol)
    requires s != t
    ensures var c, one, quote := TightConfig(s, t), OneQuoted(s, t), Quote(t, 50.0, 0);
      && Enumerates([FIRST, SECOND], Decided(c, one, quote).desk.openLocal.Keys)
      && GrossExposure(Tick(c, one, quote, [FIRST, SECOND]).desk.portfolio, OnQuote(c, one.tape, quote).quotes)
           == 1000.0
  {
    var c, one, quote := TightConfig(s, t), OneQuoted(s, t), Quote(t, 50.0, 0);
    ShownTwo(s, t);
    LotsAddUp(s, t, OnQuote(c, one.tape, quote).quotes);
    OneEach(s, t);
    OnePerSymbolCommutes(c.strategy);
    FirstQuoteIsQuiet(s, t);
    BothOpen(s, t);
    IdsDiffer();
    ExposureOfNone(OnQuote(c, one.tape, quote).quotes);
    ExposureAfterTick(c, one, quote, [FIRST, SECOND]);
  }

  /**
   From an empty broker, with one order per symbol: the second tick buys two lots of 500 each under an
   exposure limit of 600, and ends at 1000.
   */
  lemma TwoBuysPassTheLimit(s: Symbol, t: Symbol)
    requires s != t
    ensures var c := TightConfig(s, t);
      var one := Tick(c, Fresh(), Quote(s, 50.0, 0), []);
      var two := Tick(c, one, Quote(t, 50.0, 0), [FIRST, SECOND]);
      && OneOrderPerSymbol(c.strategy)
      && Enumerates([FIRST, SECOND], Decided(c, one, Quote(t, 50.0, 0)).desk.openLocal.Keys)
      && GrossExposure(two.desk.portfolio, OnQuote(c, one.tape, Quote(t, 50.0, 0)).quotes) == 1000.0
      && c.limits.maxGrossExposure == 600.0
  {
    OneEach(s, t);
    FirstQuoteIsQuiet(s, t);
    SecondTickAddsUp(s, t);
  }
}
