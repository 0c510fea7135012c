/**
 The two position books against the in-memory broker. The broker deletes closed positions, the
 portfolio keeps zero-quantity rows and blends from them, and the portfolio only learns of a fill
 when its order is synced, in any order. Yet the two agree at every tick boundary, as long as the
 orders of one cycle on one symbol are a single order, or buys alone.
 */
module Agreement {
  import opened Types
  import opened Sums
  import opened Portfolios
  import opened Orders
  import opened StateMachines
  import opened Brokers
  import opened Gateways
  import opened Strategies
  import opened Runtimes

  /** A portfolio row as the broker would show it: closed rows are not there. */
  function LocalRow(p: Portfolio, s: Symbol): Option<Holding> {
    if Held(p, s) > 0 then Some(Holding(p.positions[s].quantity, p.positions[s].averagePrice)) else None
  }

  /** One fill, oversells included, moves the portfolio row exactly as the broker's rule moves its own. */
  lemma BooksMoveAlike(p: Portfolio, fill: Fill)
    requires Long(p) && fill.quantity > 0
    ensures !DividesByZero(LocalRow(p, fill.symbol), fill.side, fill.quantity)
    ensures LocalRow(Book(p, fill), fill.symbol)
         == RowAfter(LocalRow(p, fill.symbol), fill.side, fill.quantity, fill.price)
    ensures forall s :: s != fill.symbol ==> LocalRow(Book(p, fill), s) == LocalRow(p, s)
  {
    if fill.side.Buy? && fill.symbol in p.positions && p.positions[fill.symbol].quantity == 0 {
      BlendFromZero(p.positions[fill.symbol].averagePrice, fill.quantity, fill.price);
    }
  }

  // ---- The broker's reports: all or nothing ----

  predicate Untouched(r: ExecutionReport) {
    r.filledQuantity == 0 && r.averageFillPrice.None? && 0 < r.orderQuantity
  }

  predicate Done(r: ExecutionReport) {
    !r.open && 0 < r.orderQuantity && r.filledQuantity == r.orderQuantity && r.averageFillPrice.Some?
  }

  ghost predicate BookInv(b: MockBook) {
    && (forall k :: k in b.reports ==> Untouched(b.reports[k]) || Done(b.reports[k]))
    && (forall n: nat :: n >= b.nextBrokerId ==> MockId(n) !in b.reports)
    && (forall id :: id in b.acks ==> b.acks[id].brokerOrderId in b.reports)
    && (forall s :: s in b.positions ==> b.positions[s].quantity > 0)
  }

  function FillOf(r: ExecutionReport): Fill
    requires Done(r)
  {
    Fill(r.clientOrderId, r.symbol, r.side, r.filledQuantity, r.averageFillPrice.value)
  }

  // ---- Fills the broker has made and the portfolio has not seen ----

  /** The report behind an open order whose fill is still to be discovered. */
  function Unseen(open: map<string, string>, b: MockBook, id: string): Option<ExecutionReport> {
    if id in open && open[id] in b.reports && Done(b.reports[open[id]]) then Some(b.reports[open[id]]) else None
  }

  predicate Touches(r: Option<ExecutionReport>, s: Symbol) {
    r.Some? && r.value.symbol == s
  }

  ghost predicate Quiet(open: map<string, string>, b: MockBook, s: Symbol) {
    forall id :: !Touches(Unseen(open, b, id), s)
  }

  /** Only buys are unseen on a symbol, if anything. */
  ghost predicate OnlyBuys(open: map<string, string>, b: MockBook, s: Symbol) {
    forall id :: Touches(Unseen(open, b, id), s) ==> Unseen(open, b, id).value.side.Buy?
  }

  ghost predicate OnlyOne(open: map<string, string>, b: MockBook, s: Symbol, id: string) {
    Touches(Unseen(open, b, id), s) && forall x :: x != id ==> !Touches(Unseen(open, b, x), s)
  }

  function After(row: Option<Holding>, r: ExecutionReport): Option<Holding>
    requires Done(r) && !DividesByZero(row, r.side, r.filledQuantity)
  {
    RowAfter(row, r.side, r.filledQuantity, r.averageFillPrice.value)
  }

  // ---- Shares and cost of a row, and what unseen buys add to them ----

  function Units(row: Option<Holding>): real {
    if row.Some? then row.value.quantity as real else 0.0
  }

  function Cost(row: Option<Holding>): real {
    if row.Some? then row.value.averagePrice * row.value.quantity as real else 0.0
  }

  /** A row is its shares and its cost. */
  lemma SameRow(x: Option<Holding>, y: Option<Holding>)
    requires x.Some? ==> x.value.quantity > 0
    requires y.Some? ==> y.value.quantity > 0
    requires Units(x) == Units(y) && Cost(x) == Cost(y)
    ensures x == y
  {
    if x.Some? && y.Some? {
      CancelPositive(x.value.averagePrice, y.value.averagePrice, Units(x));
      CancelPositive(y.value.averagePrice, x.value.averagePrice, Units(x));
    }
  }

  lemma BuyAdds(row: Option<Holding>, quantity: int, price: real)
    requires quantity > 0 && (row.Some? ==> row.value.quantity > 0)
    ensures var after := RowAfter(row, Buy, quantity, price);
      && after.Some? && after.value.quantity > 0
      && Units(after) == Units(row) + quantity as real
      && Cost(after) == Cost(row) + price * quantity as real
  {
    if row.Some? {
      BlendConservesCost(row.value.quantity, row.value.averagePrice, quantity, price);
    }
  }

  function UnitsOf(open: map<string, string>, b: MockBook, s: Symbol, id: string): real {
    var r := Unseen(open, b, id);
    if Touches(r, s) then r.value.filledQuantity as real else 0.0
  }

  function CostOf(open: map<string, string>, b: MockBook, s: Symbol, id: string): real {
    var r := Unseen(open, b, id);
    if Touches(r, s) then r.value.averageFillPrice.value * r.value.filledQuantity as real else 0.0
  }

  ghost function UnitsAhead(open: map<string, string>, b: MockBook, s: Symbol): real {
    Sum(open.Keys, id => UnitsOf(open, b, s, id))
  }

  ghost function CostAhead(open: map<string, string>, b: MockBook, s: Symbol): real {
    Sum(open.Keys, id => CostOf(open, b, s, id))
  }

  /** Between two syncs the broker is ahead by unseen buys, in shares and in cost. */
  ghost predicate BuysAhead(open: map<string, string>, b: MockBook, p: Portfolio, s: Symbol) {
    && OnlyBuys(open, b, s)
    && Units(Row(b.positions, s)) == Units(LocalRow(p, s)) + UnitsAhead(open, b, s)
    && Cost(Row(b.positions, s)) == Cost(LocalRow(p, s)) + CostAhead(open, b, s)
  }

  /** Or by one fill, buy or sell, and by that fill exactly. */
  ghost predicate OneAhead(open: map<string, string>, b: MockBook, p: Portfolio, s: Symbol, id: string) {
    && OnlyOne(open, b, s, id)
    && var r := Unseen(open, b, id).value;
    && !DividesByZero(LocalRow(p, s), r.side, r.filledQuantity)
    && Row(b.positions, s) == After(LocalRow(p, s), r)
  }

  ghost predicate AheadOn(open: map<string, string>, b: MockBook, p: Portfolio, s: Symbol) {
    BuysAhead(open, b, p, s) || exists id :: OneAhead(open, b, p, s, id)
  }

  ghost predicate Ahead(open: map<string, string>, b: MockBook, p: Portfolio) {
    forall s :: AheadOn(open, b, p, s)
  }

  /** The sums look at nothing but the fills that touch the symbol. */
  lemma SameAhead(
    open: map<string, string>, b: MockBook, open': map<string, string>, b': MockBook, s: Symbol, id: string)
    requires open'.Keys + {id} == open.Keys + {id}
    requires forall x :: x != id ==> Unseen(open', b', x) == Unseen(open, b, x)
    ensures UnitsAhead(open', b', s) == UnitsAhead(open, b, s) + UnitsOf(open', b', s, id) - UnitsOf(open, b, s, id)
    ensures CostAhead(open', b', s) == CostAhead(open, b, s) + CostOf(open', b', s, id) - CostOf(open, b, s, id)
  {
    MovedSum(open.Keys, x => UnitsOf(open, b, s, x), open'.Keys, x => UnitsOf(open', b', s, x), id);
    MovedSum(open.Keys, x => CostOf(open, b, s, x), open'.Keys, x => CostOf(open', b', s, x), id);
  }

  lemma MovedSum(before: set<string>, f: string -> real, after: set<string>, g: string -> real, id: string)
    requires before + {id} == after + {id}
    requires forall x :: x != id ==> f(x) == g(x)
    requires (id !in before ==> f(id) == 0.0) && (id !in after ==> g(id) == 0.0)
    ensures Sum(after, g) == Sum(before, f) + g(id) - f(id)
  {
    var rest := before - {id};
    assert after - {id} == rest;
    SumCongruence(rest, f, g);
    if id in before {
      SumRemove(before, f, id);
    } else {
      assert before == rest;
    }
    if id in after {
      SumRemove(after, g, id);
    } else {
      assert after == rest;
    }
  }

  lemma QuietIsZero(open: map<string, string>, b: MockBook, s: Symbol)
    requires Quiet(open, b, s)
    ensures UnitsAhead(open, b, s) == 0.0 && CostAhead(open, b, s) == 0.0
  {
    SumOfZeros(open.Keys, id => UnitsOf(open, b, s, id));
    SumOfZeros(open.Keys, id => CostOf(open, b, s, id));
  }

  lemma {:induction false} SumOfZeros(keys: set<string>, f: string -> real)
    requires forall k :: k in keys ==> f(k) == 0.0
    ensures Sum(keys, f) == 0.0
    decreases keys
  {
    if keys != {} {
      var k :| k in keys;
      SumRemove(keys, f, k);
      SumOfZeros(keys - {k}, f);
    }
  }

  /** On a quiet symbol the books agree. */
  lemma QuietAgrees(open: map<string, string>, b: MockBook, p: Portfolio, s: Symbol)
    requires BookInv(b) && AheadOn(open, b, p, s) && Quiet(open, b, s)
    ensures Row(b.positions, s) == LocalRow(p, s)
  {
    QuietIsZero(open, b, s);
    SameRow(Row(b.positions, s), LocalRow(p, s));
  }

  lemma AgreeingIsAhead(open: map<string, string>, b: MockBook, p: Portfolio, s: Symbol)
    requires Quiet(open, b, s) && Row(b.positions, s) == LocalRow(p, s)
    ensures BuysAhead(open, b, p, s)
  {
    QuietIsZero(open, b, s);
  }

  lemma AgreementIsAhead(open: map<string, string>, b: MockBook, p: Portfolio)
    requires NothingUnseen(open, b) && BooksAgree(b, p)
    ensures Ahead(open, b, p)
  {
    forall s
      ensures AheadOn(open, b, p, s)
    {
      assert Row(b.positions, s) == LocalRow(p, s);
      AgreeingIsAhead(open, b, p, s);
    }
  }

  /** One unseen buy is a case of buys alone. */
  lemma OneBuyIsBuys(open: map<string, string>, b: MockBook, p: Portfolio, s: Symbol, id: string)
    requires OneAhead(open, b, p, s, id) && Unseen(open, b, id).value.side.Buy?
    ensures BuysAhead(open, b, p, s)
  {
    var rest, r := open - {id}, Unseen(open, b, id).value;
    assert forall x :: x != id ==> Unseen(rest, b, x) == Unseen(open, b, x);
    assert Quiet(rest, b, s);
    QuietIsZero(rest, b, s);
    SameAhead(rest, b, open, b, s, id);
    BuyAdds(LocalRow(p, s), r.filledQuantity, r.averageFillPrice.value);
  }

  ghost predicate OpenKnown(m: Machine, open: map<string, string>, b: MockBook) {
    forall id :: id in open ==> Status(m, id) == Some(Submitted) && open[id] in b.reports
  }

  /** All-or-nothing reports, open orders that are Submitted and known to the broker, no short row. */
  ghost predicate Steady(d: Desk) {
    && d.exec.venue.MockVenue?
    && BookInv(d.exec.venue.book)
    && OpenKnown(d.exec.machine, d.openLocal, d.exec.venue.book)
    && Long(d.portfolio)
  }

  /** And the broker ahead by the unseen fills. */
  ghost predicate Mid(d: Desk) {
    Steady(d) && Ahead(d.openLocal, d.exec.venue.book, d.portfolio)
  }

  /** The broker has never acknowledged an id that this runtime is still going to use. */
  ghost predicate IdsFresh(prefix: string, b: MockBook, orderSeq: nat) {
    forall k: nat :: k > orderSeq ==> ClientId(prefix, k) !in b.acks
  }

  /** Same quantity and same average price on every symbol; positions absent on one side are closed on the other. */
  ghost predicate BooksAgree(b: MockBook, p: Portfolio) {
    forall s :: Row(b.positions, s) == LocalRow(p, s)
  }

  ghost predicate NothingUnseen(open: map<string, string>, b: MockBook) {
    forall id :: Unseen(open, b, id) == None
  }

  ghost predicate Boundary(prefix: string, d: Desk) {
    && Mid(d)
    && NothingUnseen(d.openLocal, d.exec.venue.book)
    && BooksAgree(d.exec.venue.book, d.portfolio)
    && IdsFresh(prefix, d.exec.venue.book, d.orderSeq)
  }

  // ---- Submitting one order ----

  /** The book after acknowledging a new order. */
  lemma SubmitKeepsBook(b: MockBook, order: OrderRequest)
    requires BookInv(b) && order.clientOrderId !in b.acks && order.symbol in b.prices && order.quantity > 0
    ensures var b', key := MockSubmit(b, order).0, MockId(b.nextBrokerId);
      && BookInv(b') && MockSubmit(b, order).1.Ok?
      && key !in b.reports && b'.reports == b.reports[key := ReportFor(order, key, b.prices[order.symbol])]
      && b'.acks == b.acks[order.clientOrderId := OrderAck(order.clientOrderId, key)] && b'.prices == b.prices
  {
    forall n: nat | n >= b.nextBrokerId + 1
      ensures MockId(n) != MockId(b.nextBrokerId)
    {
      if MockId(n) == MockId(b.nextBrokerId) {
        MockIdInjective(n, b.nextBrokerId);
      }
    }
  }

  /** The position row after a new order; other rows stay. */
  lemma SubmitMovesRow(b: MockBook, order: OrderRequest)
    requires BookInv(b) && order.clientOrderId !in b.acks && order.symbol in b.prices && order.quantity > 0
    ensures var b', price := MockSubmit(b, order).0, b.prices[order.symbol];
      && (forall s :: s != order.symbol ==> Row(b'.positions, s) == Row(b.positions, s))
      && !DividesByZero(Row(b.positions, order.symbol), order.side, order.quantity)
      && Row(b'.positions, order.symbol) == if FillsNow(order, price)
           then RowAfter(Row(b.positions, order.symbol), order.side, order.quantity, FillPrice(order, price))
           else Row(b.positions, order.symbol)
  {
  }

  /** What the next order on a symbol must be: the first one, or a buy among buys. */
  ghost predicate Room(open: map<string, string>, b: MockBook, side: OrderSide, s: Symbol) {
    Quiet(open, b, s) || (side.Buy? && OnlyBuys(open, b, s))
  }

  /** An order leaves the room there was, except on its symbol, where a buy leaves room for buys. */
  ghost predicate RoomKept(
    open: map<string, string>, b: MockBook, open': map<string, string>, b': MockBook, side: OrderSide, symbol: Symbol)
  {
    && (forall s :: s != symbol && Quiet(open, b, s) ==> Quiet(open', b', s))
    && (forall s :: (s != symbol || side.Buy?) && OnlyBuys(open, b, s) ==> OnlyBuys(open', b', s))
  }

  /** A new acknowledged order keeps the broker ahead by one fill, or by buys. */
  lemma AckKeepsAhead(open: map<string, string>, b: MockBook, p: Portfolio, order: OrderRequest)
    requires BookInv(b) && Ahead(open, b, p) && order.clientOrderId !in b.acks && order.symbol in b.prices
    requires order.quantity > 0
    requires (forall id :: id in open ==> open[id] in b.reports) && order.clientOrderId !in open
    requires Room(open, b, order.side, order.symbol)
    ensures var b', open' := MockSubmit(b, order).0, open[order.clientOrderId := MockId(b.nextBrokerId)];
      Ahead(open', b', p) && RoomKept(open, b, open', b', order.side, order.symbol)
  {
    SubmitKeepsBook(b, order);
    SubmitMovesRow(b, order);
    var id, key := order.clientOrderId, MockId(b.nextBrokerId);
    var b', open' := MockSubmit(b, order).0, open[id := key];
    var r := ReportFor(order, key, b.prices[order.symbol]);
    assert Unseen(open', b', id) == if Done(r) then Some(r) else None;
    assert forall x :: x != id ==> Unseen(open', b', x) == Unseen(open, b, x);
    forall s
      ensures AheadOn(open', b', p, s)
    {
      if s == order.symbol && Done(r) {
        AckAheadOnSymbol(open, b, p, order, open', b', r);
      } else {
        AckElsewhere(open, b, p, open', b', s, id);
      }
    }
    UnseenKeepsRoom(open, b, open', b', order);
  }

  lemma AckElsewhere(
    open: map<string, string>, b: MockBook, p: Portfolio, open': map<string, string>, b': MockBook, s: Symbol,
    id: string)
    requires AheadOn(open, b, p, s) && Row(b'.positions, s) == Row(b.positions, s) && open'.Keys == open.Keys + {id}
    requires id !in open && !Touches(Unseen(open', b', id), s)
    requires forall x :: x != id ==> Unseen(open', b', x) == Unseen(open, b, x)
    ensures AheadOn(open', b', p, s)
  {
    SameAhead(open, b, open', b', s, id);
    UntouchedAhead(open, b, open', b', p, s, id);
  }

  lemma UnseenKeepsRoom(
    open: map<string, string>, b: MockBook, open': map<string, string>, b': MockBook, order: OrderRequest)
    requires forall x :: x != order.clientOrderId ==> Unseen(open', b', x) == Unseen(open, b, x)
    requires var r := Unseen(open', b', order.clientOrderId);
      r.Some? ==> r.value.symbol == order.symbol && r.value.side == order.side
    ensures RoomKept(open, b, open', b', order.side, order.symbol)
  {
  }

  /** Nothing touches the symbol that did not before, or no longer does. */
  lemma UntouchedAhead(
    open: map<string, string>, b: MockBook, open': map<string, string>, b': MockBook, p: Portfolio, s: Symbol,
    id: string)
    requires AheadOn(open, b, p, s) && Row(b'.positions, s) == Row(b.positions, s)
    requires forall x :: x != id ==> Unseen(open', b', x) == Unseen(open, b, x)
    requires !Touches(Unseen(open, b, id), s) && !Touches(Unseen(open', b', id), s)
    requires UnitsAhead(open', b', s) == UnitsAhead(open, b, s) && CostAhead(open', b', s) == CostAhead(open, b, s)
    ensures AheadOn(open', b', p, s)
  {
    if x :| OneAhead(open, b, p, s, x) {
      assert OneAhead(open', b', p, s, x);
    }
  }

  lemma AckAheadOnSymbol(
    open: map<string, string>, b: MockBook, p: Portfolio, order: OrderRequest, open': map<string, string>,
    b': MockBook, r: ExecutionReport)
    requires BookInv(b) && AheadOn(open, b, p, order.symbol) && Room(open, b, order.side, order.symbol)
    requires order.clientOrderId !in open && Done(r) && Unseen(open', b', order.clientOrderId) == Some(r)
    requires r.symbol == order.symbol && r.side == order.side
    requires forall x :: x != order.clientOrderId ==> Unseen(open', b', x) == Unseen(open, b, x)
    requires !DividesByZero(Row(b.positions, order.symbol), r.side, r.filledQuantity)
    requires Row(b'.positions, order.symbol) == After(Row(b.positions, order.symbol), r)
    requires open'.Keys == open.Keys + {order.clientOrderId}
    ensures AheadOn(open', b', p, order.symbol)
  {
    var s, id := order.symbol, order.clientOrderId;
    if Quiet(open, b, s) {
      QuietAgrees(open, b, p, s);
      assert OneAhead(open', b', p, s, id);
    } else {
      AmongBuys(open, b, p, s);
      AfterBuys(Row(b.positions, s), r);
      AckedBuy(open, b, p, open', b', s, id);
    }
  }

  lemma AmongBuys(open: map<string, string>, b: MockBook, p: Portfolio, s: Symbol)
    requires AheadOn(open, b, p, s) && OnlyBuys(open, b, s)
    ensures BuysAhead(open, b, p, s)
  {
    if x :| OneAhead(open, b, p, s, x) {
      OneBuyIsBuys(open, b, p, s, x);
    }
  }

  lemma AckedBuy(
    open: map<string, string>, b: MockBook, p: Portfolio, open': map<string, string>, b': MockBook, s: Symbol,
    id: string)
    requires BuysAhead(open, b, p, s) && Touches(Unseen(open', b', id), s) && id !in open
    requires forall x :: x != id ==> Unseen(open', b', x) == Unseen(open, b, x)
    requires open'.Keys == open.Keys + {id}
    requires var r := Unseen(open', b', id).value;
      r.side.Buy? && RowBuys(Row(b.positions, s), r, Row(b'.positions, s))
    ensures BuysAhead(open', b', p, s)
  {
    SameBuys(open, b, open', b', s, id);
    AckedSums(open, b, open', b', s, id);
  }

  lemma AckedSums(
    open: map<string, string>, b: MockBook, open': map<string, string>, b': MockBook, s: Symbol, id: string)
    requires Touches(Unseen(open', b', id), s) && id !in open && open'.Keys == open.Keys + {id}
    requires forall x :: x != id ==> Unseen(open', b', x) == Unseen(open, b, x)
    ensures var r := Unseen(open', b', id).value;
      && UnitsAhead(open', b', s) == UnitsAhead(open, b, s) + r.filledQuantity as real
      && CostAhead(open', b', s) == CostAhead(open, b, s) + r.averageFillPrice.value * r.filledQuantity as real
  {
    SameAhead(open, b, open', b', s, id);
  }

  lemma SameBuys(
    open: map<string, string>, b: MockBook, open': map<string, string>, b': MockBook, s: Symbol, id: string)
    requires OnlyBuys(open, b, s) && forall x :: x != id ==> Unseen(open', b', x) == Unseen(open, b, x)
    requires Touches(Unseen(open', b', id), s) ==> Unseen(open', b', id).value.side.Buy?
    ensures OnlyBuys(open', b', s)
  {
  }

  /** Sending an order to the mock: acknowledged, refused, or not sent at all. */
  lemma SendAtMock(d: Desk, order: Order)
    requires d.exec.venue.MockVenue? && BookInv(d.exec.venue.book) && order.clientOrderId !in d.exec.venue.book.acks
    ensures var id, b, e := order.clientOrderId, d.exec.venue.book, Send(d, order).0;
      && e.portfolio == d.portfolio && e.orderSeq == d.orderSeq && e.booked == d.booked
      && (if !New(d, order) then e == d
          else if order.symbol in b.prices then AckedInto(d, order, e)
          else
            && e.exec.venue == d.exec.venue && e.openLocal == d.openLocal
            && e.exec.machine.statuses == d.exec.machine.statuses[id := Unknown])
  {
    if New(d, order) && order.symbol in d.exec.venue.book.prices {
      SendAcked(d, order);
    }
  }

  lemma SendAcked(d: Desk, order: Order)
    requires d.exec.venue.MockVenue? && BookInv(d.exec.venue.book) && order.clientOrderId !in d.exec.venue.book.acks
    requires New(d, order) && order.symbol in d.exec.venue.book.prices
    ensures var e := Send(d, order).0;
      e.portfolio == d.portfolio && e.orderSeq == d.orderSeq && e.booked == d.booked && AckedInto(d, order, e)
  {
    SubmitKeepsBook(d.exec.venue.book, RequestOf(order));
  }

  ghost predicate AckedInto(d: Desk, order: Order, e: Desk)
    requires d.exec.venue.MockVenue?
  {
    var id, b := order.clientOrderId, d.exec.venue.book;
    && e.exec.venue == MockVenue(MockSubmit(b, RequestOf(order)).0)
    && e.openLocal == d.openLocal[id := MockId(b.nextBrokerId)]
    && e.exec.machine.statuses == d.exec.machine.statuses[id := Submitted]
  }

  ghost predicate FillsAt(b: MockBook, order: Order) {
    order.symbol in b.prices && FillsNow(RequestOf(order), b.prices[order.symbol])
  }

  /** `e` has at most one more unseen fill than `d`: that of a new order which fills at once. */
  ghost predicate SentInto(d: Desk, order: Order, e: Desk)
    requires d.exec.venue.MockVenue?
  {
    var id, b := order.clientOrderId, d.exec.venue.book;
    && Steady(e) && e.portfolio == d.portfolio && e.orderSeq == d.orderSeq
    && e.exec.venue.book.prices == b.prices && e.exec.venue.book.acks.Keys <= b.acks.Keys + {id}
    && e.openLocal.Keys + {id} == d.openLocal.Keys + {id}
    && (forall x :: x != id ==> Unseen(e.openLocal, e.exec.venue.book, x) == Unseen(d.openLocal, b, x))
    && Unseen(e.openLocal, e.exec.venue.book, id)
         == (if New(d, order) && FillsAt(b, order)
             then Some(ReportFor(RequestOf(order), MockId(b.nextBrokerId), b.prices[order.symbol]))
             else Unseen(d.openLocal, b, id))
    && (New(d, order) ==> id !in d.openLocal)
  }

  lemma SendKeepsSteady(d: Desk, order: Order)
    requires Steady(d) && order.clientOrderId !in d.exec.venue.book.acks
    ensures SentInto(d, order, Send(d, order).0)
  {
    SendAtMock(d, order);
    if New(d, order) && order.symbol in d.exec.venue.book.prices {
      AckKeepsSteady(d, order, Send(d, order).0);
    }
  }

  lemma AckKeepsSteady(d: Desk, order: Order, e: Desk)
    requires Steady(d) && order.clientOrderId !in d.exec.venue.book.acks && New(d, order)
    requires order.symbol in d.exec.venue.book.prices && AckedInto(d, order, e)
    requires e.portfolio == d.portfolio && e.orderSeq == d.orderSeq
    ensures SentInto(d, order, e)
  {
    SubmitKeepsBook(d.exec.venue.book, RequestOf(order));
  }

  lemma SendKeepsMid(d: Desk, order: Order)
    requires Mid(d) && order.clientOrderId !in d.exec.venue.book.acks
    requires Room(d.openLocal, d.exec.venue.book, order.side, order.symbol)
    ensures var e := Send(d, order).0;
      && Mid(e) && e.portfolio == d.portfolio && e.orderSeq == d.orderSeq
      && e.exec.venue.book.acks.Keys <= d.exec.venue.book.acks.Keys + {order.clientOrderId}
      && RoomKept(d.openLocal, d.exec.venue.book, e.openLocal, e.exec.venue.book, order.side, order.symbol)
  {
    var e := Send(d, order).0;
    SendAtMock(d, order);
    if New(d, order) && order.symbol in d.exec.venue.book.prices {
      AckKeepsMid(d, order, e);
    }
  }

  lemma AckKeepsMid(d: Desk, order: Order, e: Desk)
    requires Mid(d) && order.clientOrderId !in d.exec.venue.book.acks
    requires order.clientOrderId !in d.exec.machine.statuses && order.symbol in d.exec.venue.book.prices
    requires Room(d.openLocal, d.exec.venue.book, order.side, order.symbol)
    requires AckedInto(d, order, e) && e.portfolio == d.portfolio
    ensures Mid(e)
    ensures e.exec.venue.book.acks.Keys == d.exec.venue.book.acks.Keys + {order.clientOrderId}
    ensures RoomKept(d.openLocal, d.exec.venue.book, e.openLocal, e.exec.venue.book, order.side, order.symbol)
  {
    SubmitKeepsBook(d.exec.venue.book, RequestOf(order));
    AckKeepsAhead(d.openLocal, d.exec.venue.book, d.portfolio, RequestOf(order));
  }

  ghost predicate NoneOn(intents: seq<OrderIntent>, s: Symbol) {
    forall i :: 0 <= i < |intents| ==> intents[i].symbol != s
  }

  ghost predicate BuysOn(intents: seq<OrderIntent>, s: Symbol) {
    forall i :: 0 <= i < |intents| && intents[i].symbol == s ==> intents[i].side.Buy?
  }

  /** Only the intents have used up room. */
  ghost predicate RoomLeft(open: map<string, string>, b: MockBook, intents: seq<OrderIntent>) {
    && (forall s :: NoneOn(intents, s) ==> Quiet(open, b, s))
    && (forall s :: BuysOn(intents, s) ==> OnlyBuys(open, b, s))
  }

  lemma RoomForLast(open: map<string, string>, b: MockBook, intents: seq<OrderIntent>, it: OrderIntent)
    requires RoomLeft(open, b, intents) && Commuting(intents + [it])
    ensures Room(open, b, it.side, it.symbol)
  {
    var n, all := |intents|, intents + [it];
    if !NoneOn(intents, it.symbol) {
      var i :| 0 <= i < n && intents[i].symbol == it.symbol;
      assert all[i] == intents[i] && all[n] == it;
      forall j | 0 <= j < n && intents[j].symbol == it.symbol
        ensures intents[j].side.Buy?
      {
        assert all[j] == intents[j];
      }
      assert BuysOn(intents, it.symbol);
    }
  }

  lemma LessRoomLeft(
    open: map<string, string>, b: MockBook, open': map<string, string>, b': MockBook, intents: seq<OrderIntent>,
    it: OrderIntent)
    requires RoomLeft(open, b, intents) && RoomKept(open, b, open', b', it.side, it.symbol)
    ensures RoomLeft(open', b', intents + [it])
  {
    var n, all := |intents|, intents + [it];
    assert all[n] == it && forall i :: 0 <= i < n ==> all[i] == intents[i];
    forall s | NoneOn(all, s)
      ensures Quiet(open', b', s)
    {
      assert NoneOn(intents, s);
    }
    forall s | BuysOn(all, s)
      ensures OnlyBuys(open', b', s)
    {
      assert BuysOn(intents, s);
      if s == it.symbol {
        assert it.side.Buy?;
      }
    }
  }

  /** A decision cycle of commuting intents, from a boundary. */
  lemma {:induction false} CycleKeepsMid(
    c: Config, d: Desk, intents: seq<OrderIntent>, quotes: map<Symbol, Quote>)
    requires Boundary(c.prefix, d) && Commuting(intents)
    ensures var e := Cycle(c, d, intents, quotes).0;
      && Mid(e) && IdsFresh(c.prefix, e.exec.venue.book, e.orderSeq)
      && RoomLeft(e.openLocal, e.exec.venue.book, intents)
    decreases |intents|
  {
    if intents != [] {
      var n := |intents| - 1;
      var front, last := intents[..n], intents[n];
      assert intents == front + [last];
      CycleKeepsMid(c, d, front, quotes);
      var before := Cycle(c, d, front, quotes).0;
      RoomForLast(before.openLocal, before.exec.venue.book, front, last);
      PlaceKeepsMid(c, before, last, quotes);
      var e := Cycle(c, d, intents, quotes).0;
      LessRoomLeft(before.openLocal, before.exec.venue.book, e.openLocal, e.exec.venue.book, front, last);
    }
  }

  lemma PlaceKeepsMid(c: Config, d: Desk, intent: OrderIntent, quotes: map<Symbol, Quote>)
    requires Mid(d) && IdsFresh(c.prefix, d.exec.venue.book, d.orderSeq)
    requires Room(d.openLocal, d.exec.venue.book, intent.side, intent.symbol)
    ensures var e := Place(c, d, intent, quotes).0;
      && Mid(e)
      && IdsFresh(c.prefix, e.exec.venue.book, e.orderSeq)
      && RoomKept(d.openLocal, d.exec.venue.book, e.openLocal, e.exec.venue.book, intent.side, intent.symbol)
  {
    var next := d.(orderSeq := d.orderSeq + 1);
    assert Mid(next);
    var order := NewOrder(NextId(c, d), intent);
    if order.Ok? {
      NextKeepsMid(c.prefix, d, next, order.value);
    }
  }

  lemma NextKeepsMid(prefix: string, d: Desk, next: Desk, order: Order)
    requires next == d.(orderSeq := d.orderSeq + 1) && Mid(next)
    requires IdsFresh(prefix, d.exec.venue.book, d.orderSeq) && order.clientOrderId == ClientId(prefix, d.orderSeq + 1)
    requires Room(d.openLocal, d.exec.venue.book, order.side, order.symbol)
    ensures var e := Send(next, order).0;
      && Mid(e)
      && IdsFresh(prefix, e.exec.venue.book, e.orderSeq)
      && RoomKept(d.openLocal, d.exec.venue.book, e.openLocal, e.exec.venue.book, order.side, order.symbol)
  {
    SendKeepsMid(next, order);
    NextIdsStayFresh(prefix, d.exec.venue.book, Send(next, order).0.exec.venue.book, d.orderSeq);
  }

  lemma NextIdsStayFresh(prefix: string, b: MockBook, b': MockBook, n: nat)
    requires IdsFresh(prefix, b, n) && b'.acks.Keys <= b.acks.Keys + {ClientId(prefix, n + 1)}
    ensures IdsFresh(prefix, b', n + 1)
  {
    forall k: nat | k > n + 1
      ensures ClientId(prefix, k) !in b'.acks
    {
      if ClientId(prefix, k) == ClientId(prefix, n + 1) {
        ClientIdInjective(prefix, k, prefix, n + 1);
      }
    }
  }

  // ---- Syncing one order ----

  lemma SeenKeepsAhead(open: map<string, string>, b: MockBook, p: Portfolio, id: string, fill: Fill)
    requires BookInv(b) && Long(p) && Ahead(open, b, p) && Unseen(open, b, id).Some?
    requires fill == FillOf(Unseen(open, b, id).value).(clientOrderId := id)
    ensures Ahead(open - {id}, b, Book(p, fill))
  {
    var open', p' := open - {id}, Book(p, fill);
    BooksMoveAlike(p, fill);
    assert LocalRow(p', fill.symbol) == After(LocalRow(p, fill.symbol), Unseen(open, b, id).value);
    assert Unseen(open', b, id) == None;
    assert forall x :: x != id ==> Unseen(open', b, x) == Unseen(open, b, x);
    forall s
      ensures AheadOn(open', b, p', s)
    {
      if s == fill.symbol {
        SeenOnSymbol(open, b, p, open', p', s, id);
      } else {
        SeenElsewhere(open, b, p, open', p', s, id);
      }
    }
  }

  lemma SeenElsewhere(
    open: map<string, string>, b: MockBook, p: Portfolio, open': map<string, string>, p': Portfolio, s: Symbol,
    id: string)
    requires AheadOn(open, b, p, s) && !Touches(Unseen(open, b, id), s) && LocalRow(p', s) == LocalRow(p, s)
    requires open' == open - {id} && Unseen(open', b, id) == None
    requires forall x :: x != id ==> Unseen(open', b, x) == Unseen(open, b, x)
    ensures AheadOn(open', b, p', s)
  {
    SameAhead(open, b, open', b, s, id);
    SameRowSameAhead(open, b, p, p', s);
    UntouchedAhead(open, b, open', b, p', s, id);
  }

  lemma SameRowSameAhead(open: map<string, string>, b: MockBook, p: Portfolio, p': Portfolio, s: Symbol)
    requires AheadOn(open, b, p, s) && LocalRow(p', s) == LocalRow(p, s)
    ensures AheadOn(open, b, p', s)
  {
    if id :| OneAhead(open, b, p, s, id) {
      assert OneAhead(open, b, p', s, id);
    }
  }

  lemma SeenOnSymbol(
    open: map<string, string>, b: MockBook, p: Portfolio, open': map<string, string>, p': Portfolio, s: Symbol,
    id: string)
    requires BookInv(b) && AheadOn(open, b, p, s) && Touches(Unseen(open, b, id), s) && open' == open - {id}
    requires Unseen(open', b, id) == None && forall x :: x != id ==> Unseen(open', b, x) == Unseen(open, b, x)
    requires var r := Unseen(open, b, id).value;
      !DividesByZero(LocalRow(p, s), r.side, r.filledQuantity) && LocalRow(p', s) == After(LocalRow(p, s), r)
    ensures BuysAhead(open', b, p', s)
  {
    if BuysAhead(open, b, p, s) {
      AfterBuys(LocalRow(p, s), Unseen(open, b, id).value);
      SeenBuy(open, b, p, open', p', s, id);
    } else {
      var x :| OneAhead(open, b, p, s, x);
      SeenOnly(open, b, p, open', p', s, id, x);
    }
  }

  lemma SeenOnly(
    open: map<string, string>, b: MockBook, p: Portfolio, open': map<string, string>, p': Portfolio, s: Symbol,
    id: string, x: string)
    requires OneAhead(open, b, p, s, x) && Touches(Unseen(open, b, id), s)
    requires Unseen(open', b, id) == None && forall y :: y != id ==> Unseen(open', b, y) == Unseen(open, b, y)
    requires var r := Unseen(open, b, id).value;
      !DividesByZero(LocalRow(p, s), r.side, r.filledQuantity) && LocalRow(p', s) == After(LocalRow(p, s), r)
    ensures BuysAhead(open', b, p', s)
  {
    assert x == id;
    AgreeingIsAhead(open', b, p', s);
  }

  lemma SeenBuy(
    open: map<string, string>, b: MockBook, p: Portfolio, open': map<string, string>, p': Portfolio, s: Symbol,
    id: string)
    requires BuysAhead(open, b, p, s) && Touches(Unseen(open, b, id), s) && open' == open - {id}
    requires Unseen(open', b, id) == None && forall x :: x != id ==> Unseen(open', b, x) == Unseen(open, b, x)
    requires var r := Unseen(open, b, id).value; RowBuys(LocalRow(p, s), r, LocalRow(p', s))
    ensures BuysAhead(open', b, p', s)
  {
    SameBuys(open, b, open', b, s, id);
    SeenSums(open, b, open', s, id);
  }

  lemma SeenSums(open: map<string, string>, b: MockBook, open': map<string, string>, s: Symbol, id: string)
    requires Touches(Unseen(open, b, id), s) && open' == open - {id} && Unseen(open', b, id) == None
    requires forall x :: x != id ==> Unseen(open', b, x) == Unseen(open, b, x)
    ensures var r := Unseen(open, b, id).value;
      && UnitsAhead(open', b, s) == UnitsAhead(open, b, s) - r.filledQuantity as real
      && CostAhead(open', b, s) == CostAhead(open, b, s) - r.averageFillPrice.value * r.filledQuantity as real
  {
    SameAhead(open, b, open', b, s, id);
  }

  /** A row gains the shares and the cost of a buy. */
  predicate RowBuys(row: Option<Holding>, r: ExecutionReport, after: Option<Holding>)
    requires Done(r)
  {
    && Units(after) == Units(row) + r.filledQuantity as real
    && Cost(after) == Cost(row) + r.averageFillPrice.value * r.filledQuantity as real
  }

  lemma AfterBuys(row: Option<Holding>, r: ExecutionReport)
    requires Done(r) && r.side.Buy? && (row.Some? ==> row.value.quantity > 0)
    ensures RowBuys(row, r, After(row, r))
  {
    BuyAdds(row, r.filledQuantity, r.averageFillPrice.value);
  }

  /** Dropping an order the broker never filled changes nothing else. */
  lemma UnfilledKeepsAhead(open: map<string, string>, b: MockBook, p: Portfolio, id: string)
    requires Ahead(open, b, p) && Unseen(open, b, id).None?
    ensures Ahead(open - {id}, b, p)
  {
    var open' := open - {id};
    assert forall x :: Unseen(open', b, x) == Unseen(open, b, x);
    forall s
      ensures AheadOn(open', b, p, s)
    {
      SameAhead(open, b, open', b, s, id);
      UntouchedAhead(open, b, open', b, p, s, id);
    }
  }

  lemma SyncOpenOrder(d: Desk, id: string)
    requires d.exec.venue.MockVenue? && id in d.openLocal && Status(d.exec.machine, id) == Some(Submitted)
    requires d.openLocal[id] in d.exec.venue.book.reports
    requires var r := d.exec.venue.book.reports[d.openLocal[id]]; Untouched(r) || Done(r)
    ensures var b, e := d.exec.venue.book, Sync(d, id).0;
      var r := b.reports[d.openLocal[id]];
      && e.exec.venue == d.exec.venue && e.orderSeq == d.orderSeq
      && (forall x :: x != id ==> Status(e.exec.machine, x) == Status(d.exec.machine, x))
      && (if r.open then e == d
          else
            && e.openLocal == d.openLocal - {id}
            && (if Done(r) then
                 var fill := FillOf(r).(clientOrderId := id);
                 && e.portfolio == Book(d.portfolio, fill)
                 && e.booked == d.booked + [Booking(id, fill, ApplyFill(d.portfolio, fill).Ok?)]
               else e.portfolio == d.portfolio && e.booked == d.booked))
  {
    var brokerId := d.openLocal[id];
    var r := d.exec.venue.book.reports[brokerId];
    assert ReportOrder(d.exec.venue, brokerId) == (d.exec.venue, Ok(r));
    assert TargetStatus(r) == if r.open then Submitted else if Done(r) then Filled else Cancelled;
  }

  /** `e` has one unseen fill less than `d`, if `id` is among them, and that fill is booked. */
  ghost predicate SyncedInto(d: Desk, id: string, e: Desk)
    requires d.exec.venue.MockVenue?
  {
    var b, r := d.exec.venue.book, Unseen(d.openLocal, d.exec.venue.book, id);
    && Steady(e) && e.exec.venue == d.exec.venue && e.orderSeq == d.orderSeq
    && e.openLocal.Keys <= d.openLocal.Keys <= e.openLocal.Keys + {id}
    && (forall x :: Unseen(e.openLocal, b, x) == if x == id then None else Unseen(d.openLocal, b, x))
    && e.portfolio == (if r.Some? then Book(d.portfolio, FillOf(r.value).(clientOrderId := id)) else d.portfolio)
  }

  lemma SyncKeepsSteady(d: Desk, id: string)
    requires Steady(d)
    ensures SyncedInto(d, id, Sync(d, id).0)
  {
    if id in d.openLocal {
      SyncOpenOrder(d, id);
      var r := d.exec.venue.book.reports[d.openLocal[id]];
      if Done(r) {
        BookKeepsLong(d.portfolio, FillOf(r).(clientOrderId := id));
      }
    }
  }

  lemma SyncKeepsMid(d: Desk, id: string)
    requires Mid(d)
    ensures var b, e := d.exec.venue.book, Sync(d, id).0;
      && Mid(e) && e.exec.venue == d.exec.venue && e.orderSeq == d.orderSeq
      && e.openLocal.Keys <= d.openLocal.Keys
      && (forall x :: Unseen(e.openLocal, b, x) == if x == id then None else Unseen(d.openLocal, b, x))
  {
    SyncKeepsSteady(d, id);
    if id in d.openLocal {
      SyncOpenOrder(d, id);
      var b := d.exec.venue.book;
      var r := b.reports[d.openLocal[id]];
      if Done(r) {
        SeenKeepsAhead(d.openLocal, b, d.portfolio, id, FillOf(r).(clientOrderId := id));
      } else if !r.open {
        UnfilledKeepsAhead(d.openLocal, b, d.portfolio, id);
      }
    }
  }

  lemma {:induction false} SyncAllKeepsMid(d: Desk, order: seq<string>)
    requires Mid(d)
    ensures var b, e := d.exec.venue.book, SyncAll(d, order).0;
      && Mid(e) && e.exec.venue == d.exec.venue && e.orderSeq == d.orderSeq
      && e.openLocal.Keys <= d.openLocal.Keys
      && (forall x :: Unseen(e.openLocal, b, x) == if x in order then None else Unseen(d.openLocal, b, x))
    decreases |order|
  {
    if order != [] {
      var n := |order| - 1;
      SyncAllKeepsMid(d, order[..n]);
      SyncKeepsMid(SyncAll(d, order[..n]).0, order[n]);
      assert order == order[..n] + [order[n]];
    }
  }

  /** Whatever the order of the sync, it leaves nothing unseen, and then the books agree. */
  lemma FullSyncAgrees(prefix: string, d: Desk, order: seq<string>)
    requires Mid(d) && IdsFresh(prefix, d.exec.venue.book, d.orderSeq) && Enumerates(order, d.openLocal.Keys)
    ensures Boundary(prefix, SyncAll(d, order).0)
  {
    SyncAllKeepsMid(d, order);
    var b, e := d.exec.venue.book, SyncAll(d, order).0;
    assert forall x :: Unseen(e.openLocal, b, x) == None;
    forall s
      ensures Row(b.positions, s) == LocalRow(e.portfolio, s)
    {
      assert Quiet(e.openLocal, b, s);
      QuietAgrees(e.openLocal, b, e.portfolio, s);
    }
  }
}
