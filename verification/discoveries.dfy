/**
 What the fills still to be discovered will add, to the exposure or to the shares of a symbol. A sync
 moves it from there into the portfolio and nothing else, so the order of a full sync does not matter.
 */
module Discoveries {
  import opened Types
  import opened Sums
  import opened Portfolios
  import opened Orders
  import opened Brokers
  import opened Gateways
  import opened Risk
  import opened Runtimes
  import opened Agreement

  /** The exposure at live quotes, or the shares of one symbol. */
  datatype Measure = Exposure(quotes: map<Symbol, Quote>) | SharesOf(symbol: Symbol)

  ghost function Gauge(m: Measure, p: Portfolio): real {
    match m
    case Exposure(quotes) => GrossExposure(p, quotes)
    case SharesOf(s) => Held(p, s) as real
  }

  /** What one share counts. */
  function Weight(m: Measure, s: Symbol): real {
    match m
    case Exposure(quotes) => if s in quotes then quotes[s].lastPrice else 0.0
    case SharesOf(t) => if s == t then 1.0 else 0.0
  }

  predicate Covers(m: Measure, s: Symbol) {
    m.Exposure? ==> s in m.quotes
  }

  /** The shares a fill moves; a refused sell moves none. */
  function Shift(p: Portfolio, symbol: Symbol, side: OrderSide, quantity: int): int {
    if side.Buy? then quantity else if Held(p, symbol) < quantity then 0 else 0 - quantity
  }

  /** What a fill adds. */
  function Worth(m: Measure, p: Portfolio, symbol: Symbol, side: OrderSide, quantity: int): real {
    Shift(p, symbol, side, quantity) as real * Weight(m, symbol)
  }

  lemma BookMovesGauge(m: Measure, p: Portfolio, fill: Fill)
    requires Long(p) && fill.quantity > 0 && Covers(m, fill.symbol)
    ensures Gauge(m, Book(p, fill)) == Gauge(m, p) + Worth(m, p, fill.symbol, fill.side, fill.quantity)
  {
    match m
    case Exposure(quotes) => BookMovesExposure(p, fill, quotes);
    case SharesOf(s) => BookMovesShares(p, fill, s);
  }

  lemma BookMovesExposure(p: Portfolio, fill: Fill, quotes: map<Symbol, Quote>)
    requires Long(p) && fill.quantity > 0 && fill.symbol in quotes
    ensures GrossExposure(Book(p, fill), quotes) == GrossExposure(p, quotes)
      + Shift(p, fill.symbol, fill.side, fill.quantity) as real * quotes[fill.symbol].lastPrice
  {
    ShiftIsSigned(p, fill);
    if ApplyFill(p, fill).Ok? {
      FillMovesExposure(p, fill, quotes);
    }
  }

  lemma ShiftIsSigned(p: Portfolio, fill: Fill)
    requires Long(p) && fill.quantity > 0
    ensures Shift(p, fill.symbol, fill.side, fill.quantity)
        == if ApplyFill(p, fill).Ok? then SignedQuantity(fill) else 0
  {
    ApplyFillRow(p, fill);
  }

  lemma BookMovesShares(p: Portfolio, fill: Fill, s: Symbol)
    requires Long(p) && fill.quantity > 0
    ensures Held(Book(p, fill), s)
         == Held(p, s) + if s == fill.symbol then Shift(p, s, fill.side, fill.quantity) else 0
  {
    ApplyFillRow(p, fill);
  }

  // ---- The unseen fills ----

  /** Two unseen fills of one symbol are buys. */
  ghost predicate Apart(open: map<string, string>, b: MockBook) {
    forall i, j, s :: i != j && Touches(Unseen(open, b, i), s) && Touches(Unseen(open, b, j), s) ==>
      Unseen(open, b, i).value.side.Buy?
  }

  lemma AheadIsApart(open: map<string, string>, b: MockBook, p: Portfolio)
    requires Ahead(open, b, p)
    ensures Apart(open, b)
  {
    forall i, j, s | i != j && Touches(Unseen(open, b, i), s) && Touches(Unseen(open, b, j), s)
      ensures Unseen(open, b, i).value.side.Buy?
    {
      assert AheadOn(open, b, p, s);
    }
  }

  ghost predicate Gauged(m: Measure, open: map<string, string>, b: MockBook) {
    forall id :: Unseen(open, b, id).Some? ==> Covers(m, Unseen(open, b, id).value.symbol)
  }

  /** What discovering a fill adds, if there is one. */
  function Adds(m: Measure, p: Portfolio, r: Option<ExecutionReport>): real {
    if r.Some? then Worth(m, p, r.value.symbol, r.value.side, r.value.filledQuantity) else 0.0
  }

  /** The part of one open order. */
  function Part(m: Measure, d: Desk, id: string): real
    requires d.exec.venue.MockVenue?
  {
    Adds(m, d.portfolio, Unseen(d.openLocal, d.exec.venue.book, id))
  }

  ghost function Waiting(m: Measure, d: Desk): real
    requires d.exec.venue.MockVenue?
  {
    Sum(d.openLocal.Keys, id => Part(m, d, id))
  }

  /** Changing at most one order's fill changes the sum by that order's part. */
  lemma WaitingMoves(m: Measure, d: Desk, e: Desk, id: string)
    requires d.exec.venue.MockVenue? && e.exec.venue.MockVenue?
    requires d.openLocal.Keys + {id} == e.openLocal.Keys + {id}
    requires forall x :: x != id ==> Part(m, e, x) == Part(m, d, x)
    ensures Waiting(m, e) == Waiting(m, d) + Part(m, e, id) - Part(m, d, id)
  {
    MovedSum(d.openLocal.Keys, x => Part(m, d, x), e.openLocal.Keys, x => Part(m, e, x), id);
  }

  lemma NothingWaits(m: Measure, d: Desk)
    requires d.exec.venue.MockVenue? && NothingUnseen(d.openLocal, d.exec.venue.book)
    ensures Waiting(m, d) == 0.0
  {
    SumOfZeros(d.openLocal.Keys, id => Part(m, d, id));
  }

  // ---- One sync ----

  /** What the sync of the others leaves alone. */
  ghost predicate Discoverable(m: Measure, d: Desk) {
    Steady(d) && Apart(d.openLocal, d.exec.venue.book) && Gauged(m, d.openLocal, d.exec.venue.book)
  }

  /** Another order's part is the same before and after: it is a buy, or alone on its symbol. */
  lemma OthersAddTheSame(m: Measure, d: Desk, id: string, e: Desk, x: string)
    requires Discoverable(m, d) && SyncedInto(d, id, e) && x != id
    ensures Part(m, e, x) == Part(m, d, x)
  {
    var r, own := Unseen(d.openLocal, d.exec.venue.book, x), Unseen(d.openLocal, d.exec.venue.book, id);
    if r.Some? && r.value.side.Sell? {
      var s := r.value.symbol;
      assert Touches(r, s) && !Touches(own, s);
      if own.Some? {
        BookMovesShares(d.portfolio, FillOf(own.value).(clientOrderId := id), s);
      }
    }
  }

  lemma OwnIsBooked(m: Measure, d: Desk, id: string, e: Desk)
    requires Discoverable(m, d) && SyncedInto(d, id, e)
    ensures Gauge(m, e.portfolio) == Gauge(m, d.portfolio) + Part(m, d, id)
  {
    var r := Unseen(d.openLocal, d.exec.venue.book, id);
    if r.Some? {
      BookMovesGauge(m, d.portfolio, FillOf(r.value).(clientOrderId := id));
    }
  }

  lemma StaysDiscoverable(m: Measure, d: Desk, id: string, e: Desk)
    requires Discoverable(m, d) && SyncedInto(d, id, e)
    ensures Discoverable(m, e)
  {
  }

  /** The portfolio and what waits, taken together, do not change. */
  lemma SyncDiscovers(m: Measure, d: Desk, id: string, e: Desk)
    requires Discoverable(m, d) && SyncedInto(d, id, e)
    ensures Gauge(m, e.portfolio) + Waiting(m, e) == Gauge(m, d.portfolio) + Waiting(m, d)
  {
    forall x | x != id
      ensures Part(m, e, x) == Part(m, d, x)
    {
      OthersAddTheSame(m, d, id, e, x);
    }
    WaitingMoves(m, d, e, id);
    OwnIsBooked(m, d, id, e);
  }

  // ---- A full sync ----

  lemma {:induction false} SyncAllDiscovers(m: Measure, d: Desk, order: seq<string>)
    requires Discoverable(m, d)
    ensures var b, e := d.exec.venue.book, SyncAll(d, order).0;
      && Discoverable(m, e) && e.exec.venue == d.exec.venue
      && (forall x :: Unseen(e.openLocal, b, x) == if x in order then None else Unseen(d.openLocal, b, x))
      && Gauge(m, e.portfolio) + Waiting(m, e) == Gauge(m, d.portfolio) + Waiting(m, d)
    decreases |order|
  {
    if order != [] {
      var n := |order| - 1;
      SyncAllDiscovers(m, d, order[..n]);
      var before := SyncAll(d, order[..n]).0;
      SyncKeepsSteady(before, order[n]);
      var e := Sync(before, order[n]).0;
      SyncDiscovers(m, before, order[n], e);
      StaysDiscoverable(m, before, order[n], e);
      assert order == order[..n] + [order[n]];
    }
  }

  /** In whatever order: afterwards the portfolio is where the unseen fills said it would be. */
  lemma FullSyncDiscovers(m: Measure, d: Desk, order: seq<string>)
    requires Discoverable(m, d) && Enumerates(order, d.openLocal.Keys)
    ensures var e := SyncAll(d, order).0;
      && Steady(e) && e.exec.venue == d.exec.venue && NothingUnseen(e.openLocal, d.exec.venue.book)
      && Gauge(m, e.portfolio) == Gauge(m, d.portfolio) + Waiting(m, d)
  {
    SyncAllDiscovers(m, d, order);
    NothingWaits(m, SyncAll(d, order).0);
  }

  // ---- One order sent ----

  /** What a filled order adds. */
  ghost function OrderAdds(m: Measure, d: Desk, order: Order): real
    requires d.exec.venue.MockVenue?
  {
    if New(d, order) && FillsAt(d.exec.venue.book, order) then
      Worth(m, d.portfolio, order.symbol, order.side, order.quantity)
    else 0.0
  }

  lemma SendAdds(m: Measure, d: Desk, order: Order, e: Desk)
    requires Steady(d) && Gauged(m, d.openLocal, d.exec.venue.book) && Covers(m, order.symbol)
    requires SentInto(d, order, e)
    ensures Gauged(m, e.openLocal, e.exec.venue.book) && Waiting(m, e) == Waiting(m, d) + OrderAdds(m, d, order)
  {
    WaitingMoves(m, d, e, order.clientOrderId);
  }
}
