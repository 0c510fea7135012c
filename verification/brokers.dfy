/**
 The broker boundary. `MockBook` is the value of the in-memory broker, `Venue` is any broker:
 either that mock, or a venue whose answers are an arbitrary script (one answer per call), so a
 statement about every `Venue` is a statement about every behaviour a broker can show.
 */
module Brokers {
  import opened Types
  import opened Portfolios
  import opened Orders

  /** `Panicked` is the model's answer of a call that does not return. */
  datatype BrokerError =
    | UnknownSymbol | NotOpen | InsufficientShares | UnknownOrder | Rejected | Internal | Panicked

  datatype OrderAck = OrderAck(clientOrderId: string, brokerOrderId: string)

  datatype ExecutionReport = ExecutionReport(
    brokerOrderId: string, clientOrderId: string, symbol: Symbol, side: OrderSide, orderType: OrderType,
    orderQuantity: int, filledQuantity: int, averageFillPrice: Option<real>, open: bool)

  datatype Position = Position(symbol: Symbol, quantity: int, averagePrice: real)

  /** A limit order fills when the market crosses it. */
  predicate LimitCrosses(side: OrderSide, market: real, limit: real) {
    if side.Buy? then market <= limit else market >= limit
  }

  // ---- The mock ----

  datatype Holding = Holding(quantity: int, averagePrice: real)

  datatype MockBook = MockBook(
    prices: map<Symbol, real>,
    acks: map<string, OrderAck>,
    reports: map<string, ExecutionReport>,
    positions: map<Symbol, Holding>,
    nextBrokerId: nat)

  const EMPTY_BOOK := MockBook(map[], map[], map[], map[], 1)

  function Row(positions: map<Symbol, Holding>, s: Symbol): Option<Holding> {
    if s in positions then Some(positions[s]) else None
  }

  function WithRow(positions: map<Symbol, Holding>, s: Symbol, row: Option<Holding>): map<Symbol, Holding> {
    match row
    case Some(h) => positions[s := h]
    case None => positions - {s}
  }

  /** A buy that leaves no shares divides by them. */
  predicate DividesByZero(row: Option<Holding>, side: OrderSide, quantity: int) {
    side.Buy? && row.Some? && row.value.quantity + quantity == 0
  }

  /** The mock's position rule on one row: closed positions disappear, oversells change nothing. */
  function RowAfter(row: Option<Holding>, side: OrderSide, quantity: int, price: real): Option<Holding>
    requires !DividesByZero(row, side, quantity)
  {
    match (side, row)
    case (Buy, None) => Some(Holding(quantity, price))
    case (Buy, Some(h)) =>
      Some(Holding(h.quantity + quantity, BlendedAverage(h.quantity, h.averagePrice, quantity, price)))
    case (Sell, None) => None
    case (Sell, Some(h)) =>
      if h.quantity < quantity then row
      else if h.quantity == quantity then None
      else Some(Holding(h.quantity - quantity, h.averagePrice))
  }

  predicate FillsNow(order: OrderRequest, price: real) {
    order.orderType.Market?
    || (order.limitPrice.Some? && LimitCrosses(order.side, price, order.limitPrice.value))
  }

  function FillPrice(order: OrderRequest, price: real): real {
    if order.orderType.Limit? && order.limitPrice.Some? then order.limitPrice.value else price
  }

  function ReportFor(order: OrderRequest, brokerId: string, price: real): ExecutionReport {
    var filled := FillsNow(order, price);
    ExecutionReport(
      brokerId, order.clientOrderId, order.symbol, order.side, order.orderType, order.quantity,
      if filled then order.quantity else 0,
      if filled then Some(FillPrice(order, price)) else None,
      !filled)
  }

  function MockSubmit(b: MockBook, order: OrderRequest): (MockBook, Result<OrderAck, BrokerError>) {
    if order.clientOrderId in b.acks then (b, Ok(b.acks[order.clientOrderId]))
    else if order.symbol !in b.prices then (b, Err(UnknownSymbol))
    else
      var price := b.prices[order.symbol];
      var brokerId := MockId(b.nextBrokerId);
      var ack := OrderAck(order.clientOrderId, brokerId);
      var row := Row(b.positions, order.symbol);
      if FillsNow(order, price) && DividesByZero(row, order.side, order.quantity) then
        (b.(nextBrokerId := b.nextBrokerId + 1), Err(Panicked))
      else
      var positions :=
        if FillsNow(order, price) then
          WithRow(b.positions, order.symbol, RowAfter(row, order.side, order.quantity, FillPrice(order, price)))
        else b.positions;
      (MockBook(b.prices, b.acks[order.clientOrderId := ack], b.reports[brokerId := ReportFor(order, brokerId, price)],
                positions, b.nextBrokerId + 1),
       Ok(ack))
  }

  function MockCancel(b: MockBook, brokerId: string): Result<MockBook, BrokerError> {
    if brokerId !in b.reports then Err(UnknownOrder)
    else if !b.reports[brokerId].open then Err(NotOpen)
    else Ok(b.(reports := b.reports[brokerId := b.reports[brokerId].(open := false)]))
  }

  function MockReport(b: MockBook, brokerId: string): Result<ExecutionReport, BrokerError> {
    if brokerId in b.reports then Ok(b.reports[brokerId]) else Err(UnknownOrder)
  }

  /**
   A market order fills whole at the market. A limit order fills whole at its limit, except a buy below the
   market and a sell above it, which stay open and untouched.
   */
  lemma SubmitFills(b: MockBook, order: OrderRequest)
    requires order.clientOrderId !in b.acks && order.symbol in b.prices
    requires order.orderType.Limit? <==> order.limitPrice.Some?
    requires !DividesByZero(Row(b.positions, order.symbol), order.side, order.quantity)
    ensures var after, key, market := MockSubmit(b, order).0, MockId(b.nextBrokerId), b.prices[order.symbol];
      && key in after.reports
      && var r := after.reports[key];
      && (r.open <==>
           && order.orderType.Limit?
           && (if order.side.Buy? then order.limitPrice.value < market else order.limitPrice.value > market))
      && r.filledQuantity == (if r.open then 0 else order.quantity)
      && r.averageFillPrice
           == if r.open then None else if order.orderType.Market? then Some(market) else order.limitPrice
  {
  }

  /** A cancel closes a known open report, which then counts as it was filled; everything else stays. */
  lemma CancelCloses(b: MockBook, brokerId: string)
    ensures MockCancel(b, brokerId).Ok? <==> brokerId in b.reports && b.reports[brokerId].open
    ensures MockCancel(b, brokerId).Ok? ==>
      var after := MockCancel(b, brokerId).value;
      && after.reports.Keys == b.reports.Keys && !after.reports[brokerId].open
      && after.reports[brokerId].filledQuantity == b.reports[brokerId].filledQuantity
      && (forall k :: k in b.reports && k != brokerId ==> after.reports[k] == b.reports[k])
      && after.positions == b.positions && after.acks == b.acks && after.prices == b.prices
      && MockCancel(after, brokerId) == Err(NotOpen)
  {
  }

  // ---- Positions in symbol order ----

  lemma {:induction false} LeastExists(keys: set<Symbol>)
    requires keys != {}
    ensures exists s :: s in keys && forall t :: t in keys ==> s.ticker <= t.ticker
    decreases keys
  {
    var c :| c in keys;
    if keys - {c} == {} {
      assert keys == {c};
    } else {
      LeastExists(keys - {c});
      var s :| s in keys - {c} && forall t :: t in keys - {c} ==> s.ticker <= t.ticker;
      var least := if c.ticker <= s.ticker then c else s;
      assert forall t :: t in keys ==> t == c || t in keys - {c};
      assert least in keys && forall t :: t in keys ==> least.ticker <= t.ticker;
    }
  }

  function Least(keys: set<Symbol>): (s: Symbol)
    requires keys != {}
    ensures s in keys && forall t :: t in keys ==> s.ticker <= t.ticker
  {
    LeastExists(keys);
    var s :| s in keys && forall t :: t in keys ==> s.ticker <= t.ticker;
    s
  }

  function SortedPositions(positions: map<Symbol, Holding>, keys: set<Symbol>): seq<Position>
    requires keys <= positions.Keys
    decreases keys
  {
    if keys == {} then []
    else
      var s := Least(keys);
      [Position(s, positions[s].quantity, positions[s].averagePrice)] + SortedPositions(positions, keys - {s})
  }

  // ---- Any venue ----

  datatype Answer = Answer(
    ack: Result<OrderAck, BrokerError>,
    report: Result<ExecutionReport, BrokerError>,
    positions: Result<seq<Position>, BrokerError>)

  datatype Venue = MockVenue(book: MockBook) | OpenVenue(answers: nat -> Answer, calls: nat)

  function SubmitOrder(v: Venue, order: OrderRequest): (Venue, Result<OrderAck, BrokerError>) {
    match v
    case MockVenue(book) => var (next, answer) := MockSubmit(book, order); (MockVenue(next), answer)
    case OpenVenue(answers, n) => (OpenVenue(answers, n + 1), answers(n).ack)
  }

  function ReportOrder(v: Venue, brokerId: string): (Venue, Result<ExecutionReport, BrokerError>) {
    match v
    case MockVenue(book) => (v, MockReport(book, brokerId))
    case OpenVenue(answers, n) => (OpenVenue(answers, n + 1), answers(n).report)
  }

  function ListPositions(v: Venue): (Venue, Result<seq<Position>, BrokerError>) {
    match v
    case MockVenue(book) => (v, Ok(SortedPositions(book.positions, book.positions.Keys)))
    case OpenVenue(answers, n) => (OpenVenue(answers, n + 1), answers(n).positions)
  }

  // ---- The objects ----

  class MockBroker {
    var prices: map<Symbol, real>
    var acks: map<string, OrderAck>
    var reports: map<string, ExecutionReport>
    var positions: map<Symbol, Holding>
    var nextBrokerId: nat

    ghost function View(): MockBook
      reads this
    {
      MockBook(prices, acks, reports, positions, nextBrokerId)
    }

    constructor ()
      ensures View() == EMPTY_BOOK
    {
      prices, acks, reports, positions, nextBrokerId := map[], map[], map[], map[], 1;
    }

    method SetPrice(symbol: Symbol, price: real)
      modifies this
      ensures View() == old(View()).(prices := old(prices)[symbol := price])
    {
      prices := prices[symbol := price];
    }

    method Submit(order: OrderRequest) returns (r: Result<OrderAck, BrokerError>)
      modifies this
      ensures (View(), r) == MockSubmit(old(View()), order)
    {
      if order.clientOrderId in acks {
        return Ok(acks[order.clientOrderId]);
      }
      if order.symbol !in prices {
        return Err(UnknownSymbol);
      }
      var price := prices[order.symbol];
      var brokerId := MockId(nextBrokerId);
      nextBrokerId := nextBrokerId + 1;
      var ack := OrderAck(order.clientOrderId, brokerId);
      var fillsNow := order.orderType == Market
        || (order.limitPrice.Some? && LimitCrosses(order.side, price, order.limitPrice.value));
      var report;
      if fillsNow {
        var fillPrice := if order.orderType == Limit && order.limitPrice.Some? then order.limitPrice.value else price;
        var moved := MoveShares(order, fillPrice);
        if !moved {
          return Err(Panicked);
        }
        report := ExecutionReport(brokerId, order.clientOrderId, order.symbol, order.side, order.orderType,
          order.quantity, order.quantity, Some(fillPrice), false);
      } else {
        report := ExecutionReport(brokerId, order.clientOrderId, order.symbol, order.side, order.orderType,
          order.quantity, 0, None, true);
      }
      reports := reports[brokerId := report];
      acks := acks[order.clientOrderId := ack];
      r := Ok(ack);
    }

    /** `apply_fill`; false where the source panics. */
    method MoveShares(order: OrderRequest, price: real) returns (moved: bool)
      modifies this`positions
      ensures moved <==> !DividesByZero(Row(old(positions), order.symbol), order.side, order.quantity)
      ensures moved ==> positions == WithRow(old(positions), order.symbol,
        RowAfter(Row(old(positions), order.symbol), order.side, order.quantity, price))
      ensures !moved ==> positions == old(positions)
    {
      moved := true;
      match order.side
      case Buy =>
        if order.symbol in positions {
          var held := positions[order.symbol];
          if held.quantity + order.quantity == 0 {
            return false;
          }
          positions := positions[order.symbol := Holding(held.quantity + order.quantity,
            BlendedAverage(held.quantity, held.averagePrice, order.quantity, price))];
        } else {
          positions := positions[order.symbol := Holding(order.quantity, price)];
        }
      case Sell =>
        if order.symbol !in positions || positions[order.symbol].quantity < order.quantity {
          assert positions == WithRow(positions, order.symbol, Row(positions, order.symbol));
          return;
        }
        var held := positions[order.symbol];
        if held.quantity == order.quantity {
          positions := positions - {order.symbol};
        } else {
          positions := positions[order.symbol := Holding(held.quantity - order.quantity, held.averagePrice)];
        }
    }

    method Cancel(brokerId: string) returns (r: Result<(), BrokerError>)
      modifies this
      ensures match MockCancel(old(View()), brokerId)
        case Ok(book) => r == Ok(()) && View() == book
        case Err(e) => r == Err(e) && View() == old(View())
    {
      if brokerId !in reports {
        return Err(UnknownOrder);
      }
      if !reports[brokerId].open {
        return Err(NotOpen);
      }
      reports := reports[brokerId := reports[brokerId].(open := false)];
      r := Ok(());
    }

    method Positions() returns (list: seq<Position>)
      ensures list == SortedPositions(positions, positions.Keys)
    {
      list := [];
      var keys := positions.Keys;
      while keys != {}
        invariant keys <= positions.Keys
        invariant list + SortedPositions(positions, keys) == SortedPositions(positions, positions.Keys)
        decreases keys
      {
        var s := Least(keys);
        var h := positions[s];
        list := list + [Position(s, h.quantity, h.averagePrice)];
        keys := keys - {s};
      }
    }
  }

  class ScriptedVenue {
    const answers: nat -> Answer
    var calls: nat

    constructor (answers: nat -> Answer)
      ensures this.answers == answers && calls == 0
    {
      this.answers, this.calls := answers, 0;
    }

    method Next() returns (a: Answer)
      modifies this
      ensures a == answers(old(calls)) && calls == old(calls) + 1
    {
      a := answers(calls);
      calls := calls + 1;
    }
  }

  /** The trait object: a reference to either kind of broker. */
  datatype Broker = Mock(mock: MockBroker) | Scripted(venue: ScriptedVenue) {

    ghost function Footprint(): set<object> {
      match this
      case Mock(b) => {b}
      case Scripted(v) => {v}
    }

    ghost function View(): Venue
      reads Footprint()
    {
      match this
      case Mock(b) => MockVenue(b.View())
      case Scripted(v) => OpenVenue(v.answers, v.calls)
    }

    method Submit(order: OrderRequest) returns (r: Result<OrderAck, BrokerError>)
      modifies Footprint()
      ensures (View(), r) == SubmitOrder(old(View()), order)
    {
      match this
      case Mock(b) => r := b.Submit(order);
      case Scripted(v) => var a := v.Next(); r := a.ack;
    }

    method Report(brokerId: string) returns (r: Result<ExecutionReport, BrokerError>)
      modifies Footprint()
      ensures (View(), r) == ReportOrder(old(View()), brokerId)
    {
      match this
      case Mock(b) => r := if brokerId in b.reports then Ok(b.reports[brokerId]) else Err(UnknownOrder);
      case Scripted(v) => var a := v.Next(); r := a.report;
    }

    method Positions() returns (r: Result<seq<Position>, BrokerError>)
      modifies Footprint()
      ensures (View(), r) == ListPositions(old(View()))
    {
      match this
      case Mock(b) => var list := b.Positions(); r := Ok(list);
      case Scripted(v) => var a := v.Next(); r := a.positions;
    }
  }
}
