/**
 The risk limits in the live loop. Every order of a cycle is checked against the portfolio before the
 cycle, so what the filled orders add up to decides: for the shares of a symbol, and for the exposure.
 */
module LiveBounds {
  import opened Types
  import opened Portfolios
  import opened Orders
  import opened Brokers
  import opened Gateways
  import opened Risk
  import opened Strategies
  import opened Runtimes
  import opened Agreement
  import opened Simulation
  import opened Safeguards
  import opened Discoveries

  // ---- What a cycle adds ----

  /** Order number `n` of a cycle that starts at `d` is let through, and fills as it is sent. */
  ghost predicate Fills(c: Config, d: Desk, quotes: map<Symbol, Quote>, it: OrderIntent, n: nat)
    requires d.exec.venue.MockVenue?
  {
    LetThrough(c, d, quotes, it, n) && FillsAt(d.exec.venue.book, NewOrder(ClientId(c.prefix, n), it).value)
  }

  ghost function IntentAdds(
    m: Measure, c: Config, d: Desk, quotes: map<Symbol, Quote>, it: OrderIntent, n: nat): real
    requires d.exec.venue.MockVenue?
  {
    if Fills(c, d, quotes, it, n) then Worth(m, d.portfolio, it.symbol, it.side, it.quantity) else 0.0
  }

  /** The sum over the intents of a cycle, each judged by what the desk, the book and the quotes were before it. */
  ghost function AddsUp(
    m: Measure, c: Config, d: Desk, intents: seq<OrderIntent>, quotes: map<Symbol, Quote>): real
    requires d.exec.venue.MockVenue?
  {
    if intents == [] then 0.0
    else
      AddsUp(m, c, d, intents[..|intents| - 1], quotes)
      + IntentAdds(m, c, d, quotes, intents[|intents| - 1], d.orderSeq + |intents|)
  }

  /** What a cycle relies on: fresh ids, and quotes for everything that is measured. */
  ghost predicate Measured(m: Measure, c: Config, d: Desk, quotes: map<Symbol, Quote>) {
    && Steady(d) && IdsFresh(c.prefix, d.exec.venue.book, d.orderSeq)
    && Gauged(m, d.openLocal, d.exec.venue.book) && (m.Exposure? ==> m.quotes == quotes)
  }

  /** `e` waits for `sum` more than `d`; prices and portfolio are the same. */
  ghost predicate Gains(m: Measure, c: Config, d: Desk, e: Desk, quotes: map<Symbol, Quote>, sum: real)
    requires d.exec.venue.MockVenue?
  {
    && Measured(m, c, e, quotes) && e.exec.venue.book.prices == d.exec.venue.book.prices
    && e.portfolio == d.portfolio && Waiting(m, e) == Waiting(m, d) + sum
  }

  lemma PlaceAdds(m: Measure, c: Config, d: Desk, it: OrderIntent, quotes: map<Symbol, Quote>)
    requires Measured(m, c, d, quotes)
    ensures Gains(m, c, d, Place(c, d, it, quotes).0, quotes, IntentAdds(m, c, d, quotes, it, d.orderSeq + 1))
  {
    var n := d.orderSeq + 1;
    var next, order := d.(orderSeq := n), NewOrder(NextId(c, d), it);
    assert forall x :: Part(m, next, x) == Part(m, d, x);
    WaitingMoves(m, d, next, "");
    if order.Ok? && CheckOrder(c.limits, c.killed(n), c.clock(n), order.value, d.portfolio, quotes).Ok? {
      SendAddsNext(m, c, next, order.value, quotes);
    } else {
      NextIdsStayFresh(c.prefix, d.exec.venue.book, d.exec.venue.book, d.orderSeq);
    }
  }

  lemma SendAddsNext(m: Measure, c: Config, d: Desk, order: Order, quotes: map<Symbol, Quote>)
    requires Steady(d) && Gauged(m, d.openLocal, d.exec.venue.book) && (m.Exposure? ==> m.quotes == quotes)
    requires d.orderSeq > 0 && IdsFresh(c.prefix, d.exec.venue.book, d.orderSeq - 1)
    requires order.clientOrderId == ClientId(c.prefix, d.orderSeq) && order.symbol in quotes
    ensures Gains(m, c, d, Send(d, order).0, quotes, OrderAdds(m, d, order))
  {
    SendKeepsSteady(d, order);
    SendAdds(m, d, order, Send(d, order).0);
    NextIdsStayFresh(c.prefix, d.exec.venue.book, Send(d, order).0.exec.venue.book, d.orderSeq - 1);
  }

  /** What waits after a cycle is what waited before and what its intents add, judged before the cycle. */
  lemma {:induction false} CycleAdds(
    m: Measure, c: Config, d: Desk, intents: seq<OrderIntent>, quotes: map<Symbol, Quote>)
    requires Measured(m, c, d, quotes)
    ensures Gains(m, c, d, Cycle(c, d, intents, quotes).0, quotes, AddsUp(m, c, d, intents, quotes))
    decreases |intents|
  {
    if intents != [] {
      var n := |intents| - 1;
      var before := Cycle(c, d, intents[..n], quotes).0;
      CycleSendsExactly(c, d, intents[..n], quotes);
      CycleAdds(m, c, d, intents[..n], quotes);
      var k := d.orderSeq + |intents|;
      LaterPlaceAdds(m, c, d, before, intents[n], quotes, k);
      GainsThen(m, c, d, before, Place(c, before, intents[n], quotes).0, quotes,
                AddsUp(m, c, d, intents[..n], quotes), IntentAdds(m, c, d, quotes, intents[n], k));
      AddsUpFront(m, c, d, intents, quotes);
    }
  }

  lemma AddsUpFront(m: Measure, c: Config, d: Desk, intents: seq<OrderIntent>, quotes: map<Symbol, Quote>)
    requires d.exec.venue.MockVenue? && intents != []
    ensures var n := |intents| - 1;
      AddsUp(m, c, d, intents, quotes)
        == AddsUp(m, c, d, intents[..n], quotes) + IntentAdds(m, c, d, quotes, intents[n], d.orderSeq + |intents|)
  {
  }

  lemma GainsThen(
    m: Measure, c: Config, d: Desk, e: Desk, f: Desk, quotes: map<Symbol, Quote>, sum: real, more: real)
    requires d.exec.venue.MockVenue? && Gains(m, c, d, e, quotes, sum) && Gains(m, c, e, f, quotes, more)
    ensures Gains(m, c, d, f, quotes, sum + more)
  {
  }

  /** One more intent, still judged by the desk before the cycle. */
  lemma LaterPlaceAdds(
    m: Measure, c: Config, d: Desk, before: Desk, it: OrderIntent, quotes: map<Symbol, Quote>, n: nat)
    requires n == before.orderSeq + 1 && Measured(m, c, before, quotes) && d.exec.venue.MockVenue?
    requires before.portfolio == d.portfolio && SameLaterIds(c, d, before)
    requires before.exec.venue.book.prices == d.exec.venue.book.prices
    ensures Gains(m, c, before, Place(c, before, it, quotes).0, quotes, IntentAdds(m, c, d, quotes, it, n))
  {
    PlaceAdds(m, c, before, it, quotes);
    SameIntentAdds(m, c, d, before, it, quotes);
  }

  lemma SameIntentAdds(m: Measure, c: Config, d: Desk, before: Desk, it: OrderIntent, quotes: map<Symbol, Quote>)
    requires d.exec.venue.MockVenue? && before.exec.venue.MockVenue?
    requires before.portfolio == d.portfolio && SameLaterIds(c, d, before)
    requires before.exec.venue.book.prices == d.exec.venue.book.prices
    ensures var n := before.orderSeq + 1;
      IntentAdds(m, c, before, quotes, it, n) == IntentAdds(m, c, d, quotes, it, n)
  {
    assert LetThrough(c, before, quotes, it, before.orderSeq + 1) == LetThrough(c, d, quotes, it, before.orderSeq + 1);
  }

  // ---- A tick ----

  /** The intents of a tick. */
  function Asked(c: Config, r: Runtime, quote: Quote): seq<OrderIntent> {
    c.strategy(TakeSnapshot(c, Shown(c, r, quote)))
  }

  lemma ShownIsBoundary(c: Config, r: Runtime, quote: Quote)
    requires Boundary(c.prefix, r.desk)
    ensures Boundary(c.prefix, Shown(c, r, quote).desk)
  {
    SameReportsKeepBoundary(c.prefix, r.desk, Priced(r.desk.exec.venue, quote.symbol, quote.lastPrice).book);
  }

  /** The portfolio after a tick, by any measure, is the portfolio before it and what the intents add up to. */
  lemma GaugeAfterTick(m: Measure, c: Config, r: Runtime, quote: Quote, order: seq<string>)
    requires Boundary(c.prefix, r.desk) && CommutingOrders(c.strategy)
    requires Enumerates(order, Decided(c, r, quote).desk.openLocal.Keys)
    requires m.Exposure? ==> m.quotes == OnQuote(c, r.tape, quote).quotes
    ensures Gauge(m, Tick(c, r, quote, order).desk.portfolio) == Gauge(m, r.desk.portfolio)
      + AddsUp(m, c, Shown(c, r, quote).desk, Asked(c, r, quote), OnQuote(c, r.tape, quote).quotes)
  {
    var shown, e := Shown(c, r, quote), Decided(c, r, quote).desk;
    var intents, quotes := Asked(c, r, quote), OnQuote(c, r.tape, quote).quotes;
    ShownIsBoundary(c, r, quote);
    NothingWaits(m, shown.desk);
    CycleAdds(m, c, shown.desk, intents, quotes);
    assert Commuting(intents);
    CycleKeepsMid(c, shown.desk, intents, quotes);
    AheadIsApart(e.openLocal, e.exec.venue.book, e.portfolio);
    FullSyncDiscovers(m, e, order);
  }

  /**
   Every buy of a cycle alone keeps the limit on exposure, together they may not. The exposure after the
   tick, at its quotes, is the exposure before and the sum over the intents that are let through and fill.
   */
  lemma ExposureAfterTick(c: Config, r: Runtime, quote: Quote, order: seq<string>)
    requires Boundary(c.prefix, r.desk) && CommutingOrders(c.strategy)
    requires Enumerates(order, Decided(c, r, quote).desk.openLocal.Keys)
    ensures var quotes := OnQuote(c, r.tape, quote).quotes;
      GrossExposure(Tick(c, r, quote, order).desk.portfolio, quotes) == GrossExposure(r.desk.portfolio, quotes)
        + AddsUp(Exposure(quotes), c, Shown(c, r, quote).desk, Asked(c, r, quote), quotes)
  {
    GaugeAfterTick(Exposure(OnQuote(c, r.tape, quote).quotes), c, r, quote, order);
  }

  /** The same for the shares of a symbol: several buys of one cycle may add up beyond the cap. */
  lemma SharesAfterTick(c: Config, r: Runtime, quote: Quote, order: seq<string>, s: Symbol)
    requires Boundary(c.prefix, r.desk) && CommutingOrders(c.strategy)
    requires Enumerates(order, Decided(c, r, quote).desk.openLocal.Keys)
    ensures var quotes := OnQuote(c, r.tape, quote).quotes;
      Held(Tick(c, r, quote, order).desk.portfolio, s) as real == Held(r.desk.portfolio, s) as real
        + AddsUp(SharesOf(s), c, Shown(c, r, quote).desk, Asked(c, r, quote), quotes)
  {
    GaugeAfterTick(SharesOf(s), c, r, quote, order);
  }

  // ---- One order per symbol ----

  ghost predicate OneOrderPerSymbol(strategy: Strategy) {
    forall s :: OnePerSymbol(strategy(s))
  }

  lemma OnePerSymbolCommutes(strategy: Strategy)
    requires OneOrderPerSymbol(strategy)
    ensures CommutingOrders(strategy)
  {
    forall s
      ensures Commuting(strategy(s))
    {
      assert OnePerSymbol(strategy(s));
    }
  }

  /** A single order adds what the check allowed, or takes away. */
  lemma {:induction false} OneAddsUp(
    c: Config, d: Desk, intents: seq<OrderIntent>, quotes: map<Symbol, Quote>, s: Symbol)
    requires d.exec.venue.MockVenue? && OnePerSymbol(intents)
    ensures var sum := AddsUp(SharesOf(s), c, d, intents, quotes);
      && (NoneOn(intents, s) ==> sum == 0.0)
      && (sum > 0.0 ==> Held(d.portfolio, s) as real + sum <= c.limits.maxPositionQuantity as real)
    decreases |intents|
  {
    if intents != [] {
      var n := |intents| - 1;
      var front, last := intents[..n], intents[n];
      assert forall i :: 0 <= i < n ==> front[i] == intents[i];
      OneAddsUp(c, d, front, quotes, s);
      OrderWithinCap(c, d, quotes, last, d.orderSeq + |intents|, s);
      if last.symbol == s {
        assert NoneOn(front, s);
      } else {
        assert NoneOn(intents, s) ==> NoneOn(front, s);
      }
    }
  }

  lemma OrderWithinCap(c: Config, d: Desk, quotes: map<Symbol, Quote>, it: OrderIntent, n: nat, s: Symbol)
    requires d.exec.venue.MockVenue?
    ensures var adds := IntentAdds(SharesOf(s), c, d, quotes, it, n);
      && (it.symbol != s ==> adds == 0.0)
      && (adds > 0.0 ==> Held(d.portfolio, s) as real + adds <= c.limits.maxPositionQuantity as real)
  {
  }

  lemma TickKeepsCap(c: Config, r: Runtime, quote: Quote, order: seq<string>)
    requires Boundary(c.prefix, r.desk) && OneOrderPerSymbol(c.strategy)
    requires Enumerates(order, Decided(c, r, quote).desk.openLocal.Keys)
    requires WithinCap(r.desk.portfolio, c.limits.maxPositionQuantity)
    ensures WithinCap(Tick(c, r, quote, order).desk.portfolio, c.limits.maxPositionQuantity)
  {
    var intents, quotes := Asked(c, r, quote), OnQuote(c, r.tape, quote).quotes;
    OnePerSymbolCommutes(c.strategy);
    assert OnePerSymbol(intents);
    forall s | Held(Tick(c, r, quote, order).desk.portfolio, s) > 0
      ensures Held(Tick(c, r, quote, order).desk.portfolio, s) <= c.limits.maxPositionQuantity
    {
      SharesAfterTick(c, r, quote, order, s);
      OneAddsUp(c, Shown(c, r, quote).desk, intents, quotes, s);
    }
  }

  /** One order per symbol: at every tick boundary of every run, no position is above the cap. */
  lemma {:induction false} PositionCap(c: Config, r: Runtime, evs: seq<SimEvent>)
    requires Boundary(c.prefix, r.desk) && OneOrderPerSymbol(c.strategy) && FullSyncs(c, r, evs)
    requires WithinCap(r.desk.portfolio, c.limits.maxPositionQuantity)
    ensures WithinCap(SimRun(c, r, evs).desk.portfolio, c.limits.maxPositionQuantity)
    decreases |evs|
  {
    if evs != [] {
      var n := |evs| - 1;
      PositionCap(c, r, evs[..n]);
      OnePerSymbolCommutes(c.strategy);
      TwoBookAgreement(c, r, evs[..n]);
      match evs[n]
      case Ticked(quote, order) => TickKeepsCap(c, SimRun(c, r, evs[..n]), quote, order);
      case CancelledAtVenue(_) =>
    }
  }
}
