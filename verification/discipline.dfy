/**
 Position discipline in the replay loop: under a disciplined strategy, from an empty book, every
 holding is zero or the order quantity after every tick, and no fill is ever refused.
 */
module Discipline {
  import opened Types
  import opened Portfolios
  import opened Orders
  import opened Brokers
  import opened Gateways
  import opened Strategies
  import opened Runtimes
  import opened Agreement
  import opened Simulation

  ghost predicate AllAccepted(d: Desk) {
    forall i :: 0 <= i < |d.booked| ==> d.booked[i].accepted
  }

  /** Every open order has filled at the venue, as a lot fill the portfolio is still to see. */
  ghost predicate InStep(d: Desk, q: int) {
    && Mid(d) && ZeroOrLot(d.portfolio, q) && AllAccepted(d)
    && (forall id :: id in d.openLocal ==> Unseen(d.openLocal, d.exec.venue.book, id).Some?)
    && (forall id :: id in d.openLocal ==>
         var r := d.exec.venue.book.reports[d.openLocal[id]];
         LotFill(d.portfolio, r.side, r.symbol, r.filledQuantity, q))
    && (forall i, j :: i in d.openLocal && j in d.openLocal && i != j ==>
         d.exec.venue.book.reports[d.openLocal[i]].symbol != d.exec.venue.book.reports[d.openLocal[j]].symbol)
  }

  /** What an acknowledged market order adds to the venue and to the open set. */
  lemma MarketOrderFills(b: MockBook, order: OrderRequest)
    requires BookInv(b) && order.clientOrderId !in b.acks && order.symbol in b.prices
    requires order.orderType.Market? && order.quantity > 0
    ensures var b', key := MockSubmit(b, order).0, MockId(b.nextBrokerId);
      && key !in b.reports && b'.reports.Keys == b.reports.Keys + {key}
      && (forall k :: k in b.reports ==> b'.reports[k] == b.reports[k])
      && Done(b'.reports[key])
      && (b'.reports[key].side, b'.reports[key].symbol, b'.reports[key].filledQuantity)
         == (order.side, order.symbol, order.quantity)
  {
    SubmitKeepsBook(b, order);
  }

  lemma SendKeepsStep(d: Desk, order: Order, q: int)
    requires InStep(d, q) && order.clientOrderId !in d.exec.venue.book.acks
    requires Quiet(d.openLocal, d.exec.venue.book, order.symbol)
    requires order.orderType.Market? && LotFill(d.portfolio, order.side, order.symbol, order.quantity, q)
    ensures InStep(Send(d, order).0, q)
  {
    var e := Send(d, order).0;
    SendKeepsMid(d, order);
    SendAtMock(d, order);
    if New(d, order) && order.symbol in d.exec.venue.book.prices {
      AckKeepsStep(d, order, e, q);
    }
  }

  lemma AckKeepsStep(d: Desk, order: Order, e: Desk, q: int)
    requires InStep(d, q) && order.clientOrderId !in d.exec.venue.book.acks
    requires order.clientOrderId !in d.exec.machine.statuses && order.symbol in d.exec.venue.book.prices
    requires Quiet(d.openLocal, d.exec.venue.book, order.symbol)
    requires order.orderType.Market? && LotFill(d.portfolio, order.side, order.symbol, order.quantity, q)
    requires AckedInto(d, order, e) && Mid(e) && e.portfolio == d.portfolio && e.booked == d.booked
    ensures InStep(e, q)
  {
    MarketOrderFills(d.exec.venue.book, RequestOf(order));
    OneMoreLot(d, e, order.clientOrderId, MockId(d.exec.venue.book.nextBrokerId), q);
  }

  /** `e` is `d` with one more open order, filled as a lot on a symbol that was quiet. */
  lemma OneMoreLot(d: Desk, e: Desk, id: string, key: string, q: int)
    requires InStep(d, q) && id !in d.openLocal && Mid(e) && e.portfolio == d.portfolio && e.booked == d.booked
    requires e.openLocal == d.openLocal[id := key]
    requires var reports, next := d.exec.venue.book.reports, e.exec.venue.book.reports;
      && key !in reports && key in next && (forall k :: k in reports ==> k in next && next[k] == reports[k])
      && Done(next[key]) && LotFill(d.portfolio, next[key].side, next[key].symbol, next[key].filledQuantity, q)
      && Quiet(d.openLocal, d.exec.venue.book, next[key].symbol)
    ensures InStep(e, q)
  {
    var b, s := d.exec.venue.book, e.exec.venue.book.reports[key].symbol;
    forall x | x in d.openLocal
      ensures x != id && e.exec.venue.book.reports[e.openLocal[x]] == b.reports[d.openLocal[x]]
      ensures b.reports[d.openLocal[x]].symbol != s
    {
      assert Unseen(d.openLocal, b, x).Some?;
      assert !Touches(Unseen(d.openLocal, b, x), s);
    }
  }

  /** An intent the discipline allows on this portfolio. */
  predicate Allowed(it: OrderIntent, p: Portfolio, q: int) {
    it.orderType.Market? && it.limitPrice.None? && LotFill(p, it.side, it.symbol, it.quantity, q)
  }

  lemma PlaceKeepsStep(c: Config, d: Desk, intent: OrderIntent, quotes: map<Symbol, Quote>, q: int)
    requires InStep(d, q) && IdsFresh(c.prefix, d.exec.venue.book, d.orderSeq)
    requires Quiet(d.openLocal, d.exec.venue.book, intent.symbol) && Allowed(intent, d.portfolio, q)
    ensures InStep(Place(c, d, intent, quotes).0, q)
    ensures Place(c, d, intent, quotes).0.portfolio == d.portfolio
  {
    var next := d.(orderSeq := d.orderSeq + 1);
    assert InStep(next, q);
    var order := NewOrder(NextId(c, d), intent);
    if order.Ok? {
      SendKeepsStep(next, order.value, q);
    }
  }

  lemma {:induction false} CycleKeepsStep(
    c: Config, d: Desk, intents: seq<OrderIntent>, quotes: map<Symbol, Quote>, q: int)
    requires Boundary(c.prefix, d) && InStep(d, q) && OnePerSymbol(intents)
    requires forall i :: 0 <= i < |intents| ==> Allowed(intents[i], d.portfolio, q)
    ensures InStep(Cycle(c, d, intents, quotes).0, q)
    ensures Cycle(c, d, intents, quotes).0.portfolio == d.portfolio
    decreases |intents|
  {
    if intents != [] {
      var n := |intents| - 1;
      CycleKeepsStep(c, d, intents[..n], quotes, q);
      CycleKeepsMid(c, d, intents[..n], quotes);
      PlaceKeepsStep(c, Cycle(c, d, intents[..n], quotes).0, intents[n], quotes, q);
    }
  }

  lemma SyncKeepsStep(d: Desk, id: string, q: int)
    requires InStep(d, q)
    ensures InStep(Sync(d, id).0, q)
  {
    SyncKeepsMid(d, id);
    if id in d.openLocal {
      SyncOpenOrder(d, id);
      var b, e := d.exec.venue.book, Sync(d, id).0;
      var r := b.reports[d.openLocal[id]];
      LotFillBooks(d.portfolio, FillOf(r).(clientOrderId := id), q);
      forall x | x in e.openLocal
        ensures Unseen(e.openLocal, b, x).Some?
        ensures var rx := b.reports[e.openLocal[x]];
          LotFill(e.portfolio, rx.side, rx.symbol, rx.filledQuantity, q)
      {
        assert Unseen(e.openLocal, b, x) == Unseen(d.openLocal, b, x);
        assert Unseen(d.openLocal, b, x).value.symbol != Unseen(d.openLocal, b, id).value.symbol;
      }
    }
  }

  lemma {:induction false} SyncAllKeepsStep(d: Desk, order: seq<string>, q: int)
    requires InStep(d, q)
    ensures InStep(SyncAll(d, order).0, q)
    decreases |order|
  {
    if order != [] {
      SyncAllKeepsStep(d, order[..|order| - 1], q);
      SyncKeepsStep(SyncAll(d, order[..|order| - 1]).0, order[|order| - 1], q);
    }
  }

  /** At a tick boundary: nothing open, both books flat or at one lot, every fill so far accepted. */
  ghost predicate Rested(prefix: string, d: Desk, q: int) {
    Boundary(prefix, d) && InStep(d, q) && d.openLocal == map[]
  }

  lemma TickKeepsRest(c: Config, r: Runtime, quote: Quote, order: seq<string>, q: int)
    requires Rested(c.prefix, r.desk, q) && q > 0
    requires CommutingOrders(c.strategy) && DisciplinedStrategy(c.strategy, q)
    requires Enumerates(order, Decided(c, r, quote).desk.openLocal.Keys)
    ensures Rested(c.prefix, Tick(c, r, quote, order).desk, q)
  {
    TickKeepsBoundary(c, r, quote, order);
    var venue := Priced(r.desk.exec.venue, quote.symbol, quote.lastPrice);
    var desk := WithVenue(r.desk, venue);
    SameReportsKeepBoundary(c.prefix, r.desk, venue.book);
    var quoted := Runtime(desk, OnQuote(c, r.tape, quote));
    var snap := TakeSnapshot(c, quoted);
    var intents := c.strategy(snap);
    assert Disciplined(intents, HeldIn(snap), q);
    assert forall s :: HeldIn(snap)(s) == Held(desk.portfolio, s);
    CycleKeepsStep(c, desk, intents, quoted.tape.quotes, q);
    var decided := Decided(c, r, quote).desk;
    SyncAllKeepsStep(decided, order, q);
    SyncAllKeepsMid(decided, order);
    var d := SyncAll(decided, order).0;
    assert forall id :: id in d.openLocal ==> id in order && Unseen(d.openLocal, d.exec.venue.book, id) == None;
    assert d.openLocal == map[];
  }

  lemma {:induction false} RestOverRuns(c: Config, r: Runtime, evs: seq<SimEvent>, q: int)
    requires Rested(c.prefix, r.desk, q) && q > 0 && FullSyncs(c, r, evs)
    requires CommutingOrders(c.strategy) && DisciplinedStrategy(c.strategy, q)
    ensures Rested(c.prefix, SimRun(c, r, evs).desk, q)
    decreases |evs|
  {
    if evs != [] {
      var n := |evs| - 1;
      RestOverRuns(c, r, evs[..n], q);
      var before := SimRun(c, r, evs[..n]);
      match evs[n]
      case Ticked(quote, order) => TickKeepsRest(c, before, quote, order, q);
      case CancelledAtVenue(id) => CancelKeepsBoundary(c.prefix, before.desk, id);
    }
  }

  /** From an empty mock book: after every tick, in both books, every holding is zero or one lot. */
  lemma PositionDiscipline(c: Config, evs: seq<SimEvent>, q: int)
    requires q > 0 && DisciplinedStrategy(c.strategy, q)
    requires FullSyncs(c, Runtime(FreshDesk(MockVenue(EMPTY_BOOK)), EMPTY_TAPE), evs)
    ensures var d := SimRun(c, Runtime(FreshDesk(MockVenue(EMPTY_BOOK)), EMPTY_TAPE), evs).desk;
      && d.exec.venue.MockVenue?
      && (forall s :: Held(d.portfolio, s) == 0 || Held(d.portfolio, s) == q)
      && (forall s :: s in d.exec.venue.book.positions ==> d.exec.venue.book.positions[s].quantity == q)
      && (forall i :: 0 <= i < |d.booked| ==> d.booked[i].accepted)
  {
    FreshStart(c.prefix);
    var r := Runtime(FreshDesk(MockVenue(EMPTY_BOOK)), EMPTY_TAPE);
    forall s
      ensures OnePerSymbol(c.strategy(s))
    {
      assert Disciplined(c.strategy(s), HeldIn(s), q);
    }
    RestOverRuns(c, r, evs, q);
    var d := SimRun(c, r, evs).desk;
    forall s | s in d.exec.venue.book.positions
      ensures d.exec.venue.book.positions[s].quantity == q
    {
      assert Row(d.exec.venue.book.positions, s) == LocalRow(d.portfolio, s);
    }
  }
}
