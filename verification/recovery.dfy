/**
 Restart against the in-memory broker: a fresh runtime reconciles the pending orders, rebuilds its
 portfolio from the broker's positions, and is back at a tick boundary, provided the broker has not
 yet seen the ids it is going to use.
 */
module Recovery {
  import opened Types
  import opened Portfolios
  import opened Orders
  import opened StateMachines
  import opened Brokers
  import opened Gateways
  import opened Strategies
  import opened Runtimes
  import opened Agreement
  import opened Simulation
  import opened Discoveries
  import opened Sums

  /** What reconciliation makes of a pending order at the mock. */
  function Resolve(b: MockBook, brokerId: string): OrderStatus {
    if brokerId in b.reports then TargetStatus(b.reports[brokerId]) else OrderStatus.Rejected
  }

  /** A status that is already known stays. */
  function ResolvedIn(m: Machine, b: MockBook, id: string, brokerId: string): OrderStatus {
    if id in m.statuses && !m.statuses[id].Unknown? then m.statuses[id] else Resolve(b, brokerId)
  }

  function ResolveAll(m: Machine, b: MockBook, pending: map<string, string>, order: seq<string>)
    : map<string, OrderStatus>
    requires forall id :: id in order ==> id in pending
  {
    map id | id in order :: ResolvedIn(m, b, id, pending[id])
  }

  lemma ResolveOneMore(
    m: Machine, n: Machine, b: MockBook, pending: map<string, string>, front: seq<string>, id: string)
    requires id in pending && id !in front && forall x :: x in front ==> x in pending
    requires n.statuses == m.statuses + ResolveAll(m, b, pending, front)
    ensures var status := ResolvedIn(m, b, id, pending[id]);
      && ResolvedIn(n, b, id, pending[id]) == status
      && ResolveAll(m, b, pending, front + [id]) == ResolveAll(m, b, pending, front)[id := status]
      && n.statuses[id := status] == m.statuses + ResolveAll(m, b, pending, front + [id])
  {
  }

  /** At the mock every lookup succeeds, so a batch names each order's status, and nothing else changes. */
  lemma {:induction false} MockBatch(m: Machine, b: MockBook, pending: map<string, string>, order: seq<string>)
    requires forall id :: id in order ==> id in pending
    requires forall i, j :: 0 <= i < j < |order| ==> order[i] != order[j]
    ensures var batch := ReconcilePending(m, MockVenue(b), pending, order);
      && batch.venue == MockVenue(b)
      && batch.machine.statuses == m.statuses + ResolveAll(m, b, pending, order)
      && batch.result == Ok(ResolveAll(m, b, pending, order))
    decreases |order|
  {
    if order != [] {
      var n := |order| - 1;
      var front, id := order[..n], order[n];
      assert order == front + [id] && id !in front;
      var before := ReconcilePending(m, MockVenue(b), pending, front).machine;
      MockBatch(m, b, pending, front);
      BatchOneMore(m, MockVenue(b), pending, front, id);
      MockResolves(before, b, id, pending[id]);
      ResolveOneMore(m, before, b, pending, front, id);
    }
  }

  lemma MockResolves(m: Machine, b: MockBook, id: string, brokerId: string)
    ensures var step := ReconcileNext(m, MockVenue(b), id, brokerId);
      && step.venue == MockVenue(b)
      && step.machine.statuses == m.statuses[id := ResolvedIn(m, b, id, brokerId)]
      && step.result == Ok(ResolvedIn(m, b, id, brokerId))
  {
  }

  // ---- Rebuilding the portfolio ----

  /** A list of positions that names each held symbol once. */
  ghost predicate Lists(list: seq<Position>, positions: map<Symbol, Holding>, keys: set<Symbol>) {
    && keys <= positions.Keys
    && (forall i, j :: 0 <= i < j < |list| ==> list[i].symbol != list[j].symbol)
    && (forall i :: 0 <= i < |list| ==> list[i].symbol in keys)
    && (forall i :: 0 <= i < |list| ==>
         var h := positions[list[i].symbol]; list[i] == Position(list[i].symbol, h.quantity, h.averagePrice))
    && (forall s :: s in keys ==> exists i :: 0 <= i < |list| && list[i].symbol == s)
  }

  /** The row of a symbol as a position. */
  function RowOf(positions: map<Symbol, Holding>, s: Symbol): Position
    requires s in positions
  {
    Position(s, positions[s].quantity, positions[s].averagePrice)
  }

  lemma ListsWithFirst(rest: seq<Position>, positions: map<Symbol, Holding>, keys: set<Symbol>, s: Symbol)
    requires s in keys && keys <= positions.Keys && Lists(rest, positions, keys - {s})
    ensures Lists([RowOf(positions, s)] + rest, positions, keys)
  {
    var list := [RowOf(positions, s)] + rest;
    forall t | t in keys
      ensures exists i :: 0 <= i < |list| && list[i].symbol == t
    {
      if t == s {
        assert list[0].symbol == t;
      } else {
        assert t in keys - {s};
        var i :| 0 <= i < |rest| && rest[i].symbol == t;
        assert list[i + 1].symbol == t;
      }
    }
  }

  lemma {:induction false} SortedLists(positions: map<Symbol, Holding>, keys: set<Symbol>)
    requires keys <= positions.Keys
    ensures Lists(SortedPositions(positions, keys), positions, keys)
    decreases keys
  {
    if keys != {} {
      var s := Least(keys);
      SortedLists(positions, keys - {s});
      ListsWithFirst(SortedPositions(positions, keys - {s}), positions, keys, s);
    }
  }

  ghost predicate ByTicker(list: seq<Position>) {
    forall i, j :: 0 <= i < j < |list| ==> list[i].symbol.ticker < list[j].symbol.ticker
  }

  lemma TickerFirst(p: Position, rest: seq<Position>)
    requires ByTicker(rest) && forall j :: 0 <= j < |rest| ==> p.symbol.ticker < rest[j].symbol.ticker
    ensures ByTicker([p] + rest)
  {
  }

  lemma LeastIsBelow(keys: set<Symbol>, t: Symbol)
    requires t in keys && t != Least(keys)
    ensures Least(keys).ticker < t.ticker
  {
    assert Least(keys) == Symbol(Least(keys).ticker) && t == Symbol(t.ticker);
  }

  lemma {:induction false} SortedByTicker(positions: map<Symbol, Holding>, keys: set<Symbol>)
    requires keys <= positions.Keys
    ensures ByTicker(SortedPositions(positions, keys))
    decreases keys
  {
    if keys != {} {
      var s := Least(keys);
      var rest := SortedPositions(positions, keys - {s});
      SortedByTicker(positions, keys - {s});
      SortedLists(positions, keys - {s});
      forall j | 0 <= j < |rest|
        ensures s.ticker < rest[j].symbol.ticker
      {
        assert rest[j].symbol in keys - {s};
        LeastIsBelow(keys, rest[j].symbol);
      }
      TickerFirst(RowOf(positions, s), rest);
    }
  }

  lemma ListsFront(list: seq<Position>, positions: map<Symbol, Holding>, keys: set<Symbol>)
    requires Lists(list, positions, keys) && list != []
    ensures Lists(list[..|list| - 1], positions, keys - {list[|list| - 1].symbol})
  {
    var front, last := list[..|list| - 1], list[|list| - 1].symbol;
    forall t | t in keys - {last}
      ensures exists i :: 0 <= i < |front| && front[i].symbol == t
    {
      var i :| 0 <= i < |list| && list[i].symbol == t;
      assert front[i].symbol == t;
    }
  }

  lemma {:induction false} RestoredRows(
    list: seq<Position>, positions: map<Symbol, Holding>, keys: set<Symbol>, s: Symbol)
    requires Lists(list, positions, keys) && forall t :: t in keys ==> positions[t].quantity > 0
    ensures LocalRow(Restored(EMPTY, list), s) == if s in keys then Some(positions[s]) else None
    ensures s !in keys ==> s !in Restored(EMPTY, list).positions
    decreases |list|
  {
    if list != [] {
      var n := |list| - 1;
      var last, front := list[n].symbol, list[..n];
      ListsFront(list, positions, keys);
      RestoredRows(front, positions, keys - {last}, s);
      RestoredRows(front, positions, keys - {last}, last);
      RestoreOne(Restored(EMPTY, front), list[n], s);
    }
  }

  lemma {:induction false} RestoredIsLong(list: seq<Position>)
    requires forall i :: 0 <= i < |list| ==> list[i].quantity >= 0
    ensures Long(Restored(EMPTY, list))
    decreases |list|
  {
    if list != [] {
      var n := |list| - 1;
      RestoredIsLong(list[..n]);
      if list[n].quantity > 0 {
        BookKeepsLong(Restored(EMPTY, list[..n]),
                      Fill("restore", list[n].symbol, Buy, list[n].quantity, list[n].averagePrice));
      }
    }
  }

  lemma RestoreOne(p: Portfolio, position: Position, s: Symbol)
    requires position.symbol !in p.positions && position.quantity > 0
    ensures var next := Book(p, Fill("restore", position.symbol, Buy, position.quantity, position.averagePrice));
      && LocalRow(next, s)
           == (if s == position.symbol then Some(Holding(position.quantity, position.averagePrice)) else LocalRow(p, s))
      && next.positions.Keys == p.positions.Keys + {position.symbol}
  {
    ApplyFillRow(p, Fill("restore", position.symbol, Buy, position.quantity, position.averagePrice));
  }

  /** At any broker: kept if the positions cannot be listed, and otherwise exactly the listed rows. */
  lemma RebuildAnswers(d: Desk)
    ensures var answer, e := ListPositions(d.exec.venue).1, Rebuild(d);
      && e.openLocal == d.openLocal && e.exec.machine == d.exec.machine && e.booked == d.booked
      && (answer.Err? ==> e.portfolio == d.portfolio)
      && (answer.Ok? && EachOnce(answer.value) ==>
           && (forall p :: p in answer.value ==>
                LocalRow(e.portfolio, p.symbol) == Some(Holding(p.quantity, p.averagePrice)))
           && (forall s :: s in e.portfolio.positions ==> exists p :: p in answer.value && p.symbol == s))
  {
    var answer := ListPositions(d.exec.venue).1;
    if answer.Ok? && EachOnce(answer.value) {
      forall p | p in answer.value
        ensures LocalRow(Rebuild(d).portfolio, p.symbol) == Some(Holding(p.quantity, p.averagePrice))
      {
        RestoredRow(answer.value, p.symbol);
      }
      forall s | s in Rebuild(d).portfolio.positions
        ensures exists p :: p in answer.value && p.symbol == s
      {
        RestoredRow(answer.value, s);
      }
    }
  }

  /** Rows of shares, one for each symbol. */
  ghost predicate EachOnce(list: seq<Position>) {
    && (forall i, j :: 0 <= i < j < |list| ==> list[i].symbol != list[j].symbol)
    && (forall i :: 0 <= i < |list| ==> list[i].quantity > 0)
  }

  lemma {:induction false} RestoredRow(list: seq<Position>, s: Symbol)
    requires EachOnce(list)
    ensures s in Restored(EMPTY, list).positions ==> exists p :: p in list && p.symbol == s
    ensures forall p :: p in list && p.symbol == s ==>
      LocalRow(Restored(EMPTY, list), s) == Some(Holding(p.quantity, p.averagePrice))
    decreases |list|
  {
    if list != [] {
      var n := |list| - 1;
      var front, last := list[..n], list[n];
      FrontAndLast(list);
      RestoredRow(front, s);
      RestoredRow(front, last.symbol);
      assert last in list && forall p :: p in front ==> p in list;
      assert last.symbol !in Restored(EMPTY, front).positions;
      RestoreOne(Restored(EMPTY, front), last, s);
    }
  }

  lemma RebuildAgrees(d: Desk)
    requires d.exec.venue.MockVenue? && BookInv(d.exec.venue.book)
    ensures Rebuild(d).exec == d.exec && Rebuild(d).openLocal == d.openLocal
    ensures Rebuild(d).booked == d.booked && Rebuild(d).orderSeq == d.orderSeq
    ensures BooksAgree(d.exec.venue.book, Rebuild(d).portfolio) && Long(Rebuild(d).portfolio)
  {
    var positions := d.exec.venue.book.positions;
    var list := SortedPositions(positions, positions.Keys);
    SortedLists(positions, positions.Keys);
    forall i | 0 <= i < |list|
      ensures list[i].quantity >= 0
    {
      assert list[i].symbol in positions;
    }
    RestoredIsLong(list);
    forall s
      ensures Row(positions, s) == LocalRow(Rebuild(d).portfolio, s)
    {
      RestoredRows(list, positions, positions.Keys, s);
    }
  }

  // ---- Recovery ----

  /** The orders a recovery opens: those that are working, for the machine or for the broker. */
  function Opened(m: Machine, b: MockBook, pending: map<string, string>): map<string, string> {
    map id | id in pending && Working(ResolvedIn(m, b, id, pending[id])) :: pending[id]
  }

  /** A recovery on any desk at the mock. */
  lemma RecoverAtMock(d: Desk, pending: map<string, string>, order: seq<string>)
    requires d.exec.venue.MockVenue? && BookInv(d.exec.venue.book) && Enumerates(order, pending.Keys)
    ensures var m, b, e := d.exec.machine, d.exec.venue.book, Recover(d, pending, order).0;
      && e.exec.venue == d.exec.venue && e.exec.machine.statuses == m.statuses + ResolveAll(m, b, pending, order)
      && e.openLocal == d.openLocal + Opened(m, b, pending)
      && BooksAgree(b, e.portfolio) && Long(e.portfolio)
      && e.exec.brokerIds == d.exec.brokerIds && e.booked == d.booked && e.orderSeq == d.orderSeq
  {
    var m, b := d.exec.machine, d.exec.venue.book;
    MockBatch(m, b, pending, order);
    var batch := ReconcilePending(m, d.exec.venue, pending, order);
    RebuildAgrees(WithMachine(d, batch.machine, batch.venue));
    assert Reopened(pending, ResolveAll(m, b, pending, order)) == Opened(m, b, pending);
  }

  /** Of the orders the runtime works on, `pending` names open ones only, under the ids they have. */
  ghost predicate Names(d: Desk, pending: map<string, string>) {
    forall id :: id in pending ==>
      if id in d.openLocal then pending[id] == d.openLocal[id]
      else id in d.exec.machine.statuses ==> !Working(d.exec.machine.statuses[id])
  }

  /** It keeps the open orders and what is unseen, and the rebuilt portfolio is the broker's. */
  lemma RecoverKeepsSteady(d: Desk, pending: map<string, string>, order: seq<string>)
    requires Steady(d) && Enumerates(order, pending.Keys) && Names(d, pending)
    ensures var b, e := d.exec.venue.book, Recover(d, pending, order).0;
      && Steady(e) && e.exec.venue == d.exec.venue && BooksAgree(b, e.portfolio)
      && (forall id :: Unseen(e.openLocal, b, id) == Unseen(d.openLocal, b, id))
  {
    RecoverAtMock(d, pending, order);
    OpenedIsSteady(d, pending, order, Recover(d, pending, order).0);
  }

  lemma OpenedIsSteady(d: Desk, pending: map<string, string>, order: seq<string>, e: Desk)
    requires Steady(d) && Enumerates(order, pending.Keys) && Names(d, pending)
    requires e.exec.venue == d.exec.venue && Long(e.portfolio)
    requires var m, b := d.exec.machine, d.exec.venue.book;
      && e.exec.machine.statuses == m.statuses + ResolveAll(m, b, pending, order)
      && e.openLocal == d.openLocal + Opened(m, b, pending)
    ensures Steady(e)
    ensures forall id :: Unseen(e.openLocal, d.exec.venue.book, id) == Unseen(d.openLocal, d.exec.venue.book, id)
  {
    forall id
      ensures Unseen(e.openLocal, d.exec.venue.book, id) == Unseen(d.openLocal, d.exec.venue.book, id)
      ensures id in e.openLocal ==>
        Status(e.exec.machine, id) == Some(Submitted) && e.openLocal[id] in d.exec.venue.book.reports
    {
      OpenedIsKnown(d, pending, order, e, id);
    }
  }

  lemma OpenedIsKnown(d: Desk, pending: map<string, string>, order: seq<string>, e: Desk, id: string)
    requires Steady(d) && Enumerates(order, pending.Keys) && Names(d, pending)
    requires var m, b := d.exec.machine, d.exec.venue.book;
      && e.exec.machine.statuses == m.statuses + ResolveAll(m, b, pending, order)
      && e.openLocal == d.openLocal + Opened(m, b, pending)
    ensures Unseen(e.openLocal, d.exec.venue.book, id) == Unseen(d.openLocal, d.exec.venue.book, id)
    ensures id in e.openLocal ==>
      Status(e.exec.machine, id) == Some(Submitted) && e.openLocal[id] in d.exec.venue.book.reports
  {
    var m, b := d.exec.machine, d.exec.venue.book;
    if id in pending && id !in d.openLocal && Working(ResolvedIn(m, b, id, pending[id])) {
      NewlyOpened(m, b, id, pending[id]);
    }
  }

  lemma NewlyOpened(m: Machine, b: MockBook, id: string, brokerId: string)
    requires BookInv(b) && (id in m.statuses ==> !Working(m.statuses[id])) && Working(ResolvedIn(m, b, id, brokerId))
    ensures ResolvedIn(m, b, id, brokerId) == Submitted && brokerId in b.reports && !Done(b.reports[brokerId])
  {
    assert Untouched(b.reports[brokerId]);
  }

  /** The pending orders the broker still works on. */
  function StillOpen(b: MockBook, pending: map<string, string>): map<string, string> {
    map id | id in pending && Working(Resolve(b, pending[id])) :: pending[id]
  }

  /** A fresh runtime after recovery, whatever ids it is going to use. */
  lemma RestartSettles(b: MockBook, pending: map<string, string>, order: seq<string>)
    requires BookInv(b) && Enumerates(order, pending.Keys)
    ensures var d := Recover(FreshDesk(MockVenue(b)), pending, order).0;
      && Mid(d) && NothingUnseen(d.openLocal, b) && BooksAgree(b, d.portfolio)
      && d.exec.venue == MockVenue(b) && d.openLocal == StillOpen(b, pending)
      && d.exec.brokerIds == map[] && d.exec.machine.statuses.Keys == pending.Keys
      && d.booked == [] && d.orderSeq == 0
  {
    var start := FreshDesk(MockVenue(b));
    var d := Recover(start, pending, order).0;
    assert Steady(start) && Names(start, pending);
    RecoverAtMock(start, pending, order);
    RecoverKeepsSteady(start, pending, order);
    FreshOpens(b, pending);
    AgreementIsAhead(d.openLocal, b, d.portfolio);
  }

  lemma FreshOpens(b: MockBook, pending: map<string, string>)
    ensures map[] + Opened(FRESH, b, pending) == StillOpen(b, pending)
  {
  }

  /**
   A start runtime on whatever book the crash left behind, synced or not: it reopens exactly the
   pending orders the broker still works on, its books agree, and it stands at a tick boundary.
   */
  lemma RestartRecovery(prefix: string, b: MockBook, pending: map<string, string>, order: seq<string>)
    requires BookInv(b) && IdsFresh(prefix, b, 0) && Enumerates(order, pending.Keys)
    ensures var d := Recover(FreshDesk(MockVenue(b)), pending, order).0;
      && Boundary(prefix, d) && d.exec.venue == MockVenue(b)
      && d.openLocal == StillOpen(b, pending)
      && d.booked == []
  {
    RestartSettles(b, pending, order);
  }

  /** In any continuation the two books go on agreeing, so no fill is in the portfolio twice. */
  lemma AgreementAfterRestart(
    c: Config, b: MockBook, pending: map<string, string>, order: seq<string>, tape: Tape, evs: seq<SimEvent>)
    requires BookInv(b) && IdsFresh(c.prefix, b, 0) && Enumerates(order, pending.Keys)
    requires CommutingOrders(c.strategy)
    requires FullSyncs(c, Runtime(Recover(FreshDesk(MockVenue(b)), pending, order).0, tape), evs)
    ensures var r := Runtime(Recover(FreshDesk(MockVenue(b)), pending, order).0, tape);
      var d := SimRun(c, r, evs).desk;
      Boundary(c.prefix, d) && BooksAgree(d.exec.venue.book, d.portfolio)
  {
    RestartRecovery(c.prefix, b, pending, order);
    TwoBookAgreement(c, Runtime(Recover(FreshDesk(MockVenue(b)), pending, order).0, tape), evs);
  }

  // ---- Never booking an old order ----

  /** Nothing acknowledged before is booked, unseen or reopened as filled. */
  ghost predicate OldUnbooked(d: Desk, known: set<string>) {
    && d.exec.venue.MockVenue? && known <= d.exec.venue.book.acks.Keys
    && (forall i :: 0 <= i < |d.booked| ==> d.booked[i].id !in known)
    && (forall id :: id in known ==> Unseen(d.openLocal, d.exec.venue.book, id) == None)
  }

  lemma SendLeavesOld(d: Desk, order: Order, known: set<string>)
    requires Mid(d) && OldUnbooked(d, known) && order.clientOrderId !in d.exec.venue.book.acks
    ensures OldUnbooked(Send(d, order).0, known)
  {
    var b, e := d.exec.venue.book, Send(d, order).0;
    SendAtMock(d, order);
    if New(d, order) && order.symbol in b.prices {
      SubmitKeepsBook(b, RequestOf(order));
      assert forall x :: x in known ==> Unseen(e.openLocal, e.exec.venue.book, x) == Unseen(d.openLocal, b, x);
    }
  }

  lemma {:induction false} CycleLeavesOld(
    c: Config, d: Desk, intents: seq<OrderIntent>, quotes: map<Symbol, Quote>, known: set<string>)
    requires Boundary(c.prefix, d) && Commuting(intents) && OldUnbooked(d, known)
    ensures OldUnbooked(Cycle(c, d, intents, quotes).0, known)
    decreases |intents|
  {
    if intents != [] {
      var n := |intents| - 1;
      CycleLeavesOld(c, d, intents[..n], quotes, known);
      CycleKeepsMid(c, d, intents[..n], quotes);
      PlaceLeavesOld(c, Cycle(c, d, intents[..n], quotes).0, intents[n], quotes, known);
    }
  }

  lemma PlaceLeavesOld(
    c: Config, d: Desk, intent: OrderIntent, quotes: map<Symbol, Quote>, known: set<string>)
    requires Mid(d) && IdsFresh(c.prefix, d.exec.venue.book, d.orderSeq) && OldUnbooked(d, known)
    ensures OldUnbooked(Place(c, d, intent, quotes).0, known)
  {
    var next := d.(orderSeq := d.orderSeq + 1);
    assert Mid(next);
    var order := NewOrder(NextId(c, d), intent);
    if order.Ok? {
      SendLeavesOld(next, order.value, known);
    }
  }

  lemma {:induction false} SyncAllLeavesOld(d: Desk, order: seq<string>, known: set<string>)
    requires Mid(d) && OldUnbooked(d, known)
    ensures OldUnbooked(SyncAll(d, order).0, known)
    decreases |order|
  {
    if order != [] {
      var n := |order| - 1;
      var before, id := SyncAll(d, order[..n]).0, order[n];
      SyncAllLeavesOld(d, order[..n], known);
      SyncAllKeepsMid(d, order[..n]);
      SyncKeepsMid(before, id);
      if id in before.openLocal {
        SyncOpenOrder(before, id);
      }
    }
  }

  lemma StepLeavesOld(c: Config, r: Runtime, ev: SimEvent, known: set<string>)
    requires Boundary(c.prefix, r.desk) && CommutingOrders(c.strategy) && OldUnbooked(r.desk, known)
    ensures OldUnbooked(SimStep(c, r, ev).desk, known)
  {
    match ev
    case Ticked(quote, order) =>
      var venue := Priced(r.desk.exec.venue, quote.symbol, quote.lastPrice);
      var desk := WithVenue(r.desk, venue);
      SameReportsKeepBoundary(c.prefix, r.desk, venue.book);
      assert forall id :: Unseen(desk.openLocal, venue.book, id) == Unseen(desk.openLocal, r.desk.exec.venue.book, id);
      var quoted := Runtime(desk, OnQuote(c, r.tape, quote));
      var intents := c.strategy(TakeSnapshot(c, quoted));
      assert Commuting(intents);
      CycleLeavesOld(c, desk, intents, quoted.tape.quotes, known);
      CycleKeepsMid(c, desk, intents, quoted.tape.quotes);
      SyncAllLeavesOld(Decided(c, r, quote).desk, order, known);
    case CancelledAtVenue(id) =>
      CancelKeepsBoundary(c.prefix, r.desk, id);
      assert Simulation.Cancelled(r.desk.exec.venue, id).book.acks == r.desk.exec.venue.book.acks;
  }

  /** No order the broker knew before the restart is ever booked by the new runtime. */
  lemma {:induction false} OldFillsStayBookedOnce(c: Config, r: Runtime, evs: seq<SimEvent>, known: set<string>)
    requires Boundary(c.prefix, r.desk) && CommutingOrders(c.strategy) && FullSyncs(c, r, evs)
    requires r.desk.booked == [] && known <= r.desk.exec.venue.book.acks.Keys
    ensures forall i :: 0 <= i < |SimRun(c, r, evs).desk.booked| ==> SimRun(c, r, evs).desk.booked[i].id !in known
    ensures OldUnbooked(SimRun(c, r, evs).desk, known)
    decreases |evs|
  {
    if evs != [] {
      var n := |evs| - 1;
      OldFillsStayBookedOnce(c, r, evs[..n], known);
      TwoBookAgreement(c, r, evs[..n]);
      StepLeavesOld(c, SimRun(c, r, evs[..n]), evs[n], known);
    }
  }

  // ---- Reused ids ----

  lemma RowMovesUnlessRefused(row: Option<Holding>, side: OrderSide, quantity: int, price: real)
    requires quantity > 0 && !DividesByZero(row, side, quantity)
    ensures RowAfter(row, side, quantity, price) == row <==>
      side.Sell? && (row.None? || row.value.quantity < quantity)
  {
  }

  /**
   Without fresh ids recovery is not enough: the mock answers a reused id with the old
   acknowledgement. The books still agree after that order's sync if and only if the old order was
   never filled, or was a sell the portfolio now refuses.
   */
  lemma ReusedIdBooksTwice(d: Desk, order: Order)
    requires Mid(d) && NothingUnseen(d.openLocal, d.exec.venue.book)
    requires BooksAgree(d.exec.venue.book, d.portfolio)
    requires order.clientOrderId in d.exec.venue.book.acks
    requires order.clientOrderId !in d.exec.brokerIds && order.clientOrderId !in d.exec.machine.statuses
    ensures var b, id := d.exec.venue.book, order.clientOrderId;
      var past := b.reports[b.acks[id].brokerOrderId];
      var e := Sync(Send(d, order).0, id).0;
      && e.exec.venue == d.exec.venue
      && (BooksAgree(b, e.portfolio) <==>
           !Done(past) || (past.side.Sell? && Held(d.portfolio, past.symbol) < past.filledQuantity))
  {
    var b, id := d.exec.venue.book, order.clientOrderId;
    var past := b.reports[b.acks[id].brokerOrderId];
    var sent := Send(d, order).0;
    assert sent.exec.venue == d.exec.venue && sent.portfolio == d.portfolio;
    assert sent.openLocal == d.openLocal[id := b.acks[id].brokerOrderId];
    assert Status(sent.exec.machine, id) == Some(Submitted);
    SyncOpenOrder(sent, id);
    var e := Sync(sent, id).0;
    if Done(past) {
      BookedAgain(b, d.portfolio, FillOf(past).(clientOrderId := id));
    } else {
      assert e.portfolio == d.portfolio;
    }
  }

  /**
   In the restarted runtime: an order whose id was used before the restart and is not pending. Its
   sync leaves the books agreeing exactly when the old order never filled, or was a sell the rebuilt
   portfolio refuses.
   */
  lemma ReusedIdAfterRestart(b: MockBook, pending: map<string, string>, visits: seq<string>, order: Order)
    requires BookInv(b) && Enumerates(visits, pending.Keys)
    requires order.clientOrderId in b.acks && order.clientOrderId !in pending
    ensures var d, id := Recover(FreshDesk(MockVenue(b)), pending, visits).0, order.clientOrderId;
      var past := b.reports[b.acks[id].brokerOrderId];
      var e := Sync(Send(d, order).0, id).0;
      BooksAgree(b, e.portfolio) <==>
        !Done(past) || (past.side.Sell? && Held(d.portfolio, past.symbol) < past.filledQuantity)
  {
    RestartSettles(b, pending, visits);
    ReusedIdBooksTwice(Recover(FreshDesk(MockVenue(b)), pending, visits).0, order);
  }

  // ---- Recovery on a running desk ----

  /** A recovery leaves an open order as it was, named or not, and rebuilds the portfolio. */
  lemma RecoverKeepsOpen(d: Desk, pending: map<string, string>, order: seq<string>, id: string)
    requires Steady(d) && Enumerates(order, pending.Keys)
    requires id in d.openLocal && (id in pending ==> pending[id] == d.openLocal[id])
    ensures var e := Recover(d, pending, order).0;
      && e.exec.venue == d.exec.venue && id in e.openLocal && e.openLocal[id] == d.openLocal[id]
      && Status(e.exec.machine, id) == Some(Submitted)
      && BooksAgree(d.exec.venue.book, e.portfolio) && Long(e.portfolio)
  {
    RecoverAtMock(d, pending, order);
  }

  /**
   A recovery in the middle of a run, with a fill still to be discovered: the rebuilt portfolio already
   contains it. After that order's sync the books agree exactly when the fill is a sell that the rebuilt
   portfolio refuses.
   */
  lemma RecoveryBooksUnseenTwice(d: Desk, pending: map<string, string>, order: seq<string>, id: string)
    requires Steady(d) && Enumerates(order, pending.Keys)
    requires id in d.openLocal && (id in pending ==> pending[id] == d.openLocal[id])
    requires Unseen(d.openLocal, d.exec.venue.book, id).Some?
    ensures var b, e := d.exec.venue.book, Recover(d, pending, order).0;
      var r := Unseen(d.openLocal, b, id).value;
      && BooksAgree(b, e.portfolio)
      && (BooksAgree(b, Sync(e, id).0.portfolio) <==> Refused(Row(b.positions, r.symbol), r))
  {
    var b, e := d.exec.venue.book, Recover(d, pending, order).0;
    var r := Unseen(d.openLocal, b, id).value;
    RecoverKeepsOpen(d, pending, order, id);
    SyncOpenOrder(e, id);
    BookedAgain(b, e.portfolio, FillOf(r).(clientOrderId := id));
  }

  /** A sell that a row of the broker does not cover. */
  predicate Refused(row: Option<Holding>, r: ExecutionReport) {
    r.side.Sell? && (row.None? || row.value.quantity < r.filledQuantity)
  }

  /** One more fill on agreeing books keeps them agreeing exactly when it is refused. */
  lemma BookedAgain(b: MockBook, p: Portfolio, fill: Fill)
    requires BooksAgree(b, p) && Long(p) && fill.quantity > 0
    ensures BooksAgree(b, Book(p, fill)) <==>
      var row := Row(b.positions, fill.symbol); fill.side.Sell? && (row.None? || row.value.quantity < fill.quantity)
  {
    BooksMoveAlike(p, fill);
    RowMovesUnlessRefused(LocalRow(p, fill.symbol), fill.side, fill.quantity, fill.price);
    assert Row(b.positions, fill.symbol) == LocalRow(p, fill.symbol);
  }

  // ---- And a full sync after it ----

  ghost predicate AllRefused(open: map<string, string>, b: MockBook) {
    forall id :: Unseen(open, b, id).Some? ==>
      Refused(Row(b.positions, Unseen(open, b, id).value.symbol), Unseen(open, b, id).value)
  }

  lemma {:induction false} RefusedSyncsKeep(d: Desk, visits: seq<string>)
    requires Steady(d) && BooksAgree(d.exec.venue.book, d.portfolio) && AllRefused(d.openLocal, d.exec.venue.book)
    ensures var b, e := d.exec.venue.book, SyncAll(d, visits).0;
      Steady(e) && e.exec.venue == d.exec.venue && AllRefused(e.openLocal, b) && e.portfolio == d.portfolio
    decreases |visits|
  {
    if visits != [] {
      var n := |visits| - 1;
      var before := SyncAll(d, visits[..n]).0;
      RefusedSyncsKeep(d, visits[..n]);
      SyncKeepsSteady(before, visits[n]);
      RefusedSyncKeeps(before, visits[n], Sync(before, visits[n]).0);
    }
  }

  lemma RefusedSyncKeeps(d: Desk, id: string, e: Desk)
    requires Steady(d) && BooksAgree(d.exec.venue.book, d.portfolio) && AllRefused(d.openLocal, d.exec.venue.book)
    requires SyncedInto(d, id, e)
    ensures e.portfolio == d.portfolio && AllRefused(e.openLocal, d.exec.venue.book)
  {
    var b, r := d.exec.venue.book, Unseen(d.openLocal, d.exec.venue.book, id);
    if r.Some? {
      assert Row(b.positions, r.value.symbol) == LocalRow(d.portfolio, r.value.symbol);
      ApplyFillRow(d.portfolio, FillOf(r.value).(clientOrderId := id));
    }
  }

  /** A fill that is not refused moves the shares of its symbol, and no other unseen fill moves them back. */
  lemma BookedSharesMove(d: Desk, id: string)
    requires Steady(d) && Apart(d.openLocal, d.exec.venue.book) && BooksAgree(d.exec.venue.book, d.portfolio)
    requires var b, r := d.exec.venue.book, Unseen(d.openLocal, d.exec.venue.book, id);
      r.Some? && !Refused(Row(b.positions, r.value.symbol), r.value)
    ensures Waiting(SharesOf(Unseen(d.openLocal, d.exec.venue.book, id).value.symbol), d) != 0.0
  {
    var open, b := d.openLocal, d.exec.venue.book;
    var r := Unseen(open, b, id).value;
    var m := SharesOf(r.symbol);
    assert Touches(Unseen(open, b, id), r.symbol) && Row(b.positions, r.symbol) == LocalRow(d.portfolio, r.symbol);
    if r.side.Buy? {
      forall x
        ensures Part(m, d, x) >= 0.0
      {
        assert Touches(Unseen(open, b, x), r.symbol) ==> x == id || Unseen(open, b, x).value.side.Buy?;
      }
      SumPositive(open.Keys, x => Part(m, d, x), id);
    } else {
      forall x | x != id
        ensures Part(m, d, x) == 0.0
      {
        assert !Touches(Unseen(open, b, x), r.symbol);
      }
      SumRemove(open.Keys, x => Part(m, d, x), id);
      SumOfZeros(open.Keys - {id}, x => Part(m, d, x));
    }
  }

  lemma {:induction false} SumPositive(keys: set<string>, f: string -> real, id: string)
    requires (forall x :: f(x) >= 0.0) && id in keys && f(id) > 0.0
    ensures Sum(keys, f) > 0.0
  {
    SumRemove(keys, f, id);
    SumNonNegative(keys - {id}, f);
  }

  lemma {:induction false} SumNonNegative(keys: set<string>, f: string -> real)
    requires forall x :: f(x) >= 0.0
    ensures Sum(keys, f) >= 0.0
    decreases keys
  {
    if keys != {} {
      var x :| x in keys;
      SumRemove(keys, f, x);
      SumNonNegative(keys - {x}, f);
    }
  }

  /** Agreeing books with unseen fills: a full sync keeps them agreeing exactly when it refuses every one. */
  lemma SyncedAgainExactly(d: Desk, visits: seq<string>)
    requires Steady(d) && Apart(d.openLocal, d.exec.venue.book) && BooksAgree(d.exec.venue.book, d.portfolio)
    requires Enumerates(visits, d.openLocal.Keys)
    ensures BooksAgree(d.exec.venue.book, SyncAll(d, visits).0.portfolio)
        <==> AllRefused(d.openLocal, d.exec.venue.book)
  {
    var b, e := d.exec.venue.book, SyncAll(d, visits).0;
    if AllRefused(d.openLocal, b) {
      RefusedSyncsKeep(d, visits);
    } else {
      var id :| Unseen(d.openLocal, b, id).Some? &&
        !Refused(Row(b.positions, Unseen(d.openLocal, b, id).value.symbol), Unseen(d.openLocal, b, id).value);
      var s := Unseen(d.openLocal, b, id).value.symbol;
      BookedSharesMove(d, id);
      FullSyncDiscovers(SharesOf(s), d, visits);
      assert Row(b.positions, s) == LocalRow(d.portfolio, s);
      assert LocalRow(e.portfolio, s) != LocalRow(d.portfolio, s);
    }
  }

  /**
   A recovery between a cycle and its sync, and then the sync of everything that is open, in any order:
   the books agree exactly when each fill that was still to be discovered is a sell the broker's row, which
   already contains it, does not cover.
   */
  lemma RecoveryThenSyncExactly(d: Desk, pending: map<string, string>, order: seq<string>, visits: seq<string>)
    requires Mid(d) && Enumerates(order, pending.Keys) && Names(d, pending)
    requires Enumerates(visits, Recover(d, pending, order).0.openLocal.Keys)
    ensures var b := d.exec.venue.book;
      BooksAgree(b, SyncAll(Recover(d, pending, order).0, visits).0.portfolio) <==> AllRefused(d.openLocal, b)
  {
    var b, e := d.exec.venue.book, Recover(d, pending, order).0;
    RecoverKeepsSteady(d, pending, order);
    AheadIsApart(d.openLocal, b, d.portfolio);
    assert Apart(e.openLocal, b);
    SyncedAgainExactly(e, visits);
  }
}
