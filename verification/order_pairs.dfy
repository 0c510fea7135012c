/**
 Two fills of one symbol in one cycle. The broker books them as they are sent, a sync may discover them
 the other way round. When does the portfolio still end where the broker is?
 */
module OrderPairs {
  import opened Types
  import opened Portfolios
  import opened Orders
  import opened StateMachines
  import opened Brokers
  import opened Runtimes
  import opened Agreement

  /** What a fill does to a row. */
  datatype Move = Move(side: OrderSide, quantity: int, price: real)

  predicate Sound(row: Option<Holding>) {
    row.Some? ==> row.value.quantity > 0
  }

  function Moved(row: Option<Holding>, m: Move): (after: Option<Holding>)
    requires Sound(row) && m.quantity > 0
    ensures Sound(after)
  {
    RowAfter(row, m.side, m.quantity, m.price)
  }

  /**
   A buy of `n` at `price` and a sell of `m`: both refused on the sell, or a sell the row covers anyway at an
   unmoved average.
   */
  predicate BuyMeetsSell(row: Option<Holding>, n: int, price: real, m: int) {
    match row
    case None => m > n
    case Some(h) => m > h.quantity + n || (m <= h.quantity && h.averagePrice == price)
  }

  predicate SellMeetsSell(row: Option<Holding>, n: int, m: int) {
    row.None? || n == m || n + m <= row.value.quantity || n > row.value.quantity || m > row.value.quantity
  }

  /** The order of two fills does not matter. */
  predicate CanSwap(row: Option<Holding>, x: Move, y: Move) {
    match (x.side, y.side)
    case (Buy, Buy) => true
    case (Buy, Sell) => BuyMeetsSell(row, x.quantity, x.price, y.quantity)
    case (Sell, Buy) => BuyMeetsSell(row, y.quantity, y.price, x.quantity)
    case (Sell, Sell) => SellMeetsSell(row, x.quantity, y.quantity)
  }

  lemma BuysSwap(row: Option<Holding>, x: Move, y: Move)
    requires Sound(row) && x.side.Buy? && y.side.Buy? && x.quantity > 0 && y.quantity > 0
    ensures Moved(Moved(row, x), y) == Moved(Moved(row, y), x)
  {
    BuyAdds(row, x.quantity, x.price);
    BuyAdds(row, y.quantity, y.price);
    BuyAdds(Moved(row, x), y.quantity, y.price);
    BuyAdds(Moved(row, y), x.quantity, x.price);
    SameRow(Moved(Moved(row, x), y), Moved(Moved(row, y), x));
  }

  /** Blending before or after a sale gives the same average only where the buy pays the average. */
  lemma BlendAroundSale(q: int, a: real, n: int, p: real, m: int)
    requires n > 0 && 0 < m <= q
    ensures BlendedAverage(q, a, n, p) == BlendedAverage(q - m, a, n, p) <==> a == p
  {
    var v, w := BlendedAverage(q, a, n, p), BlendedAverage(q - m, a, n, p);
    BlendConservesCost(q, a, n, p);
    BlendConservesCost(q - m, a, n, p);
    SameAverage(q as real, a, n as real, p, m as real, v, w);
  }

  lemma SameAverage(q: real, a: real, n: real, p: real, m: real, v: real, w: real)
    requires n > 0.0 && 0.0 < m <= q
    requires v * (q + n) == a * q + p * n && w * (q - m + n) == a * (q - m) + p * n
    ensures v == w <==> a == p
  {
    if v == w {
      assert v * (q + n) - v * (q - m + n) == v * m;
      assert a * q - a * (q - m) == a * m;
      Cancel(v, a, m);
      FromSum(v, a, q, n, p);
    }
    if a == p {
      Cancel(v, a, q + n);
      Cancel(w, a, q - m + n);
    }
  }

  lemma FromSum(v: real, a: real, q: real, n: real, p: real)
    requires n > 0.0 && v == a && v * (q + n) == a * q + p * n
    ensures a == p
  {
    assert a * (q + n) == a * q + a * n;
    Cancel(a, p, n);
  }

  lemma Cancel(x: real, y: real, p: real)
    requires p > 0.0 && x * p == y * p
    ensures x == y
  {
    CancelPositive(x, y, p);
    CancelPositive(y, x, p);
  }

  lemma BuyAndSellExactly(row: Option<Holding>, x: Move, y: Move)
    requires Sound(row) && x.side.Buy? && y.side.Sell? && x.quantity > 0 && y.quantity > 0
    ensures Moved(Moved(row, x), y) == Moved(Moved(row, y), x) <==> BuyMeetsSell(row, x.quantity, x.price, y.quantity)
  {
    if row.Some? && y.quantity <= row.value.quantity {
      BlendAroundSale(row.value.quantity, row.value.averagePrice, x.quantity, x.price, y.quantity);
      if y.quantity == row.value.quantity {
        BlendFromZero(row.value.averagePrice, x.quantity, x.price);
      }
    }
  }

  /** Exactly when two fills may be discovered in either order. */
  lemma SwapExactly(row: Option<Holding>, x: Move, y: Move)
    requires Sound(row) && x.quantity > 0 && y.quantity > 0
    ensures Moved(Moved(row, x), y) == Moved(Moved(row, y), x) <==> CanSwap(row, x, y)
  {
    match (x.side, y.side)
    case (Buy, Buy) => BuysSwap(row, x, y);
    case (Buy, Sell) => BuyAndSellExactly(row, x, y);
    case (Sell, Buy) => BuyAndSellExactly(row, y, x);
    case (Sell, Sell) =>
  }

  // ---- The two syncs ----

  function MoveOf(r: ExecutionReport): Move
    requires Done(r)
  {
    Move(r.side, r.filledQuantity, r.averageFillPrice.value)
  }

  /** An open order whose fill the portfolio has not seen. */
  ghost predicate Waits(d: Desk, id: string) {
    && d.exec.venue.MockVenue? && id in d.openLocal && Status(d.exec.machine, id) == Some(Submitted)
    && d.openLocal[id] in d.exec.venue.book.reports && Done(d.exec.venue.book.reports[d.openLocal[id]])
  }

  function Waiting(d: Desk, id: string): ExecutionReport
    requires d.exec.venue.MockVenue? && id in d.openLocal && d.openLocal[id] in d.exec.venue.book.reports
  {
    d.exec.venue.book.reports[d.openLocal[id]]
  }

  lemma SyncOne(d: Desk, id: string)
    requires Waits(d, id) && Long(d.portfolio)
    ensures var e, r := Sync(d, id).0, Waiting(d, id);
      && e.exec.venue == d.exec.venue && Long(e.portfolio) && e.orderSeq == d.orderSeq
      && e.openLocal == d.openLocal - {id} && e.portfolio == Book(d.portfolio, FillOf(r).(clientOrderId := id))
      && e.exec.brokerIds == d.exec.brokerIds && e.exec.machine.statuses.Keys == d.exec.machine.statuses.Keys
      && LocalRow(e.portfolio, r.symbol) == Moved(LocalRow(d.portfolio, r.symbol), MoveOf(r))
      && (forall s :: s != r.symbol ==> LocalRow(e.portfolio, s) == LocalRow(d.portfolio, s))
      && (forall x :: x != id && Waits(d, x) ==> Waits(e, x) && Waiting(e, x) == Waiting(d, x))
  {
    SyncOpenOrder(d, id);
    var fill := FillOf(Waiting(d, id)).(clientOrderId := id);
    BooksMoveAlike(d.portfolio, fill);
    BookKeepsLong(d.portfolio, fill);
  }

  lemma SyncTwo(d: Desk, i: string, j: string)
    requires i != j && Waits(d, i) && Waits(d, j) && Long(d.portfolio) && Waiting(d, i).symbol == Waiting(d, j).symbol
    ensures var e, s := SyncAll(d, [i, j]).0, Waiting(d, i).symbol;
      && LocalRow(e.portfolio, s)
          == Moved(Moved(LocalRow(d.portfolio, s), MoveOf(Waiting(d, i))), MoveOf(Waiting(d, j)))
      && (forall t :: t != s ==> LocalRow(e.portfolio, t) == LocalRow(d.portfolio, t))
  {
    assert [i, j] == [] + [i] + [j];
    SyncOneMore(d, [], i);
    SyncOneMore(d, [i], j);
    SyncOne(d, i);
    SyncOne(Sync(d, i).0, j);
  }

  /** Two fills the broker booked one after the other, on top of what the portfolio knows. */
  ghost predicate TwoAhead(d: Desk, i: string, j: string) {
    && i != j && Waits(d, i) && Waits(d, j) && Long(d.portfolio)
    && Waiting(d, i).symbol == Waiting(d, j).symbol
    && var b, s := d.exec.venue.book, Waiting(d, i).symbol;
    && Row(b.positions, s) == Moved(Moved(LocalRow(d.portfolio, s), MoveOf(Waiting(d, i))), MoveOf(Waiting(d, j)))
    && (forall t :: t != s ==> Row(b.positions, t) == LocalRow(d.portfolio, t))
  }

  /** Discovered as sent, the books agree; discovered the other way round, exactly when the two may swap. */
  lemma SwappedSyncExactly(d: Desk, i: string, j: string)
    requires TwoAhead(d, i, j)
    ensures BooksAgree(d.exec.venue.book, SyncAll(d, [i, j]).0.portfolio)
    ensures BooksAgree(d.exec.venue.book, SyncAll(d, [j, i]).0.portfolio) <==>
      CanSwap(LocalRow(d.portfolio, Waiting(d, i).symbol), MoveOf(Waiting(d, i)), MoveOf(Waiting(d, j)))
  {
    var b, s := d.exec.venue.book, Waiting(d, i).symbol;
    SyncTwo(d, i, j);
    SyncTwo(d, j, i);
    SwapExactly(LocalRow(d.portfolio, s), MoveOf(Waiting(d, i)), MoveOf(Waiting(d, j)));
    var e := SyncAll(d, [j, i]).0;
    assert BooksAgree(b, e.portfolio) ==> Row(b.positions, s) == LocalRow(e.portfolio, s);
  }

  // ---- Two orders of one cycle ----

  /** A sync as sent ends with agreeing books; one the other way round exactly when `swap` holds. */
  ghost predicate AgreesAsSent(e: Desk, i: string, j: string, swap: bool) {
    && e.exec.venue.MockVenue?
    && BooksAgree(e.exec.venue.book, SyncAll(e, [i, j]).0.portfolio)
    && (BooksAgree(e.exec.venue.book, SyncAll(e, [j, i]).0.portfolio) <==> swap)
  }

  function MoveFor(b: MockBook, order: Order): Move
    requires order.symbol in b.prices
  {
    Move(order.side, order.quantity, FillPrice(RequestOf(order), b.prices[order.symbol]))
  }

  /** One filled order. */
  lemma SendOne(d: Desk, order: Order)
    requires d.exec.venue.MockVenue? && BookInv(d.exec.venue.book)
    requires New(d, order) && order.clientOrderId !in d.exec.venue.book.acks && FillsAt(d.exec.venue.book, order)
    requires forall id :: id in d.openLocal ==> d.openLocal[id] in d.exec.venue.book.reports
    ensures var e, id, b := Send(d, order).0, order.clientOrderId, d.exec.venue.book;
      && e.exec.venue.MockVenue? && BookInv(e.exec.venue.book) && e.portfolio == d.portfolio && e.orderSeq == d.orderSeq
      && e.openLocal.Keys == d.openLocal.Keys + {id} && e.booked == d.booked
      && Waits(e, id) && Waiting(e, id).symbol == order.symbol && MoveOf(Waiting(e, id)) == MoveFor(b, order)
      && (forall x :: x != id && Waits(d, x) ==> Waits(e, x) && Waiting(e, x) == Waiting(d, x))
      && (forall x :: x in e.openLocal ==> e.openLocal[x] in e.exec.venue.book.reports)
      && e.exec.venue.book.prices == b.prices && e.exec.venue.book.acks.Keys == b.acks.Keys + {id}
      && e.exec.brokerIds.Keys == d.exec.brokerIds.Keys + {id}
      && e.exec.machine.statuses.Keys == d.exec.machine.statuses.Keys + {id}
      && Row(e.exec.venue.book.positions, order.symbol) == Moved(Row(b.positions, order.symbol), MoveFor(b, order))
      && (forall s :: s != order.symbol ==> Row(e.exec.venue.book.positions, s) == Row(b.positions, s))
  {
    SendAtMock(d, order);
    SubmitKeepsBook(d.exec.venue.book, RequestOf(order));
    SubmitMovesRow(d.exec.venue.book, RequestOf(order));
  }

  /**
   From a tick boundary, two new orders of one symbol that both fill: a sync in the order they were sent
   ends with agreeing books, a sync the other way round exactly when the two fills may swap.
   */
  lemma TwoOrdersExactly(d: Desk, x: Order, y: Order, n: nat)
    requires Mid(d) && BooksAgree(d.exec.venue.book, d.portfolio)
    requires New(d, x) && New(d, y) && x.clientOrderId != y.clientOrderId && x.symbol == y.symbol
    requires x.clientOrderId !in d.exec.venue.book.acks && y.clientOrderId !in d.exec.venue.book.acks
    requires FillsAt(d.exec.venue.book, x) && FillsAt(d.exec.venue.book, y)
    ensures AgreesAsSent(
      Send(Send(d, x).0.(orderSeq := n), y).0, x.clientOrderId, y.clientOrderId,
      CanSwap(LocalRow(d.portfolio, x.symbol), MoveFor(d.exec.venue.book, x), MoveFor(d.exec.venue.book, y)))
  {
    SendOne(d, x);
    var next := Send(d, x).0.(orderSeq := n);
    SendOne(next, y);
    var e, s := Send(next, y).0, x.symbol;
    assert Waits(next, x.clientOrderId) && Waiting(next, x.clientOrderId) == Waiting(Send(d, x).0, x.clientOrderId);
    assert Row(d.exec.venue.book.positions, s) == LocalRow(d.portfolio, s);
    assert TwoAhead(e, x.clientOrderId, y.clientOrderId);
    SwappedSyncExactly(e, x.clientOrderId, y.clientOrderId);
  }

  lemma TwoOrdersOpen(d: Desk, x: Order, y: Order, n: nat)
    requires Mid(d) && New(d, x) && New(d, y) && x.clientOrderId != y.clientOrderId
    requires x.clientOrderId !in d.exec.venue.book.acks && y.clientOrderId !in d.exec.venue.book.acks
    requires FillsAt(d.exec.venue.book, x) && FillsAt(d.exec.venue.book, y)
    ensures Send(Send(d, x).0.(orderSeq := n), y).0.openLocal.Keys
         == d.openLocal.Keys + {x.clientOrderId} + {y.clientOrderId}
  {
    SendOne(d, x);
    SendOne(Send(d, x).0.(orderSeq := n), y);
  }
}
