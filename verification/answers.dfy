/**
 What the runtime answers its callers: the result of a submission, the orders of a decision cycle, and the
 statuses of a sync or a recovery. An answer is what the state says afterwards.
 */
module Answers {
  import opened Types
  import opened Portfolios
  import opened Orders
  import opened StateMachines
  import opened Brokers
  import opened Gateways
  import opened Strategies
  import opened Runtimes
  import opened Agreement
  import Simulation
  import Lifecycle

  // ---- Submissions ----

  /** The result of a submission and the status of its order afterwards; a duplicate changes nothing. */
  lemma SubmitAnswers(e: Exec, order: Order)
    ensures var (after, r), id := Submit(e, order), order.clientOrderId;
      && (r == Err(Duplicate) <==> id in e.brokerIds || id in e.machine.statuses)
      && (r == Err(Duplicate) ==> after == e)
      && (r != Err(Duplicate) ==>
           match Status(after.machine, id)
           case Some(Submitted) => r.Ok? && id in after.brokerIds && after.brokerIds[id] == r.value.brokerOrderId
           case Some(Rejected) => r == Err(BrokerFailed(BrokerError.Rejected)) && after.brokerIds == e.brokerIds
           case Some(Unknown) =>
             r.Err? && r.error.Timeout? && !r.error.error.Rejected? && after.brokerIds == e.brokerIds
           case _ => false)
  {
  }

  /** The requests that were acknowledged, in order. */
  function Acknowledged(sent: seq<Sent>): seq<OrderRequest> {
    if sent == [] then []
    else
      var last := sent[|sent| - 1];
      Acknowledged(sent[..|sent| - 1]) + (if last.answer.Acknowledged? then [last.request] else [])
  }

  function RequestsOf(orders: seq<Order>): seq<OrderRequest> {
    seq(|orders|, i requires 0 <= i < |orders| => RequestOf(orders[i]))
  }

  lemma OneAnswer(sent: seq<Sent>, last: Sent)
    ensures sent <= sent + [last] && (sent + [last])[|sent|..] == [last] && sent[|sent|..] == []
    ensures Acknowledged([last]) == if last.answer.Acknowledged? then [last.request] else []
  {
    assert [last][..0] == [];
  }

  /** One intent sends at most one request, and its order is returned if that was acknowledged. */
  lemma PlaceSendsOne(c: Config, d: Desk, it: OrderIntent, quotes: map<Symbol, Quote>)
    ensures var (e, placed) := Place(c, d, it, quotes);
      || (placed.None? && e.exec.sent == d.exec.sent)
      || (|e.exec.sent| == |d.exec.sent| + 1
          && var last := e.exec.sent[|d.exec.sent|];
          && e.exec.sent == d.exec.sent + [last]
          && (placed.Some? <==> last.answer.Acknowledged?)
          && (placed.Some? ==> last.request == RequestOf(placed.value)))
  {
  }

  lemma PlaceReturns(c: Config, d: Desk, it: OrderIntent, quotes: map<Symbol, Quote>)
    ensures var (e, placed) := Place(c, d, it, quotes);
      && d.exec.sent <= e.exec.sent && |e.exec.sent| <= |d.exec.sent| + 1
      && RequestsOf(if placed.Some? then [placed.value] else []) == Acknowledged(e.exec.sent[|d.exec.sent|..])
  {
    var (e, placed) := Place(c, d, it, quotes);
    PlaceSendsOne(c, d, it, quotes);
    if |e.exec.sent| > |d.exec.sent| {
      OneAnswer(d.exec.sent, e.exec.sent[|d.exec.sent|]);
    } else {
      assert e.exec.sent[|d.exec.sent|..] == [];
    }
  }

  lemma {:induction false} AcknowledgedJoins(a: seq<Sent>, b: seq<Sent>)
    ensures Acknowledged(a + b) == Acknowledged(a) + Acknowledged(b)
    decreases |b|
  {
    if b == [] {
      assert a + b == a;
    } else {
      var n := |b| - 1;
      assert (a + b)[..|a + b| - 1] == a + b[..n];
      AcknowledgedJoins(a, b[..n]);
    }
  }

  /** Against every broker: a cycle returns exactly the orders whose submission was acknowledged, in order. */
  lemma {:induction false} CycleReturns(
    c: Config, d: Desk, intents: seq<OrderIntent>, quotes: map<Symbol, Quote>)
    ensures var (e, orders) := Cycle(c, d, intents, quotes);
      d.exec.sent <= e.exec.sent && RequestsOf(orders) == Acknowledged(e.exec.sent[|d.exec.sent|..])
    decreases |intents|
  {
    if intents == [] {
      assert d.exec.sent[|d.exec.sent|..] == [];
    } else {
      var n := |intents| - 1;
      var (before, orders) := Cycle(c, d, intents[..n], quotes);
      var (e, placed) := Place(c, before, intents[n], quotes);
      CycleReturns(c, d, intents[..n], quotes);
      PlaceReturns(c, before, intents[n], quotes);
      ReturnsThen(d.exec.sent, before.exec.sent, e.exec.sent, orders, if placed.Some? then [placed.value] else []);
    }
  }

  lemma ReturnsThen(a: seq<Sent>, b: seq<Sent>, c: seq<Sent>, orders: seq<Order>, more: seq<Order>)
    requires a <= b <= c
    requires RequestsOf(orders) == Acknowledged(b[|a|..]) && RequestsOf(more) == Acknowledged(c[|b|..])
    ensures a <= c && RequestsOf(orders + more) == Acknowledged(c[|a|..])
  {
    assert c[|a|..] == b[|a|..] + c[|b|..];
    AcknowledgedJoins(b[|a|..], c[|b|..]);
    assert RequestsOf(orders + more) == RequestsOf(orders) + RequestsOf(more);
  }

  // ---- One sync ----

  /**
   When a sync has no answer: the order was never registered, a partly filled order is reported as working and
   untouched, or the status of an unknown order cannot be looked up.
   */
  predicate NoAnswer(d: Desk, id: string) {
    || id !in d.exec.machine.statuses
    || (id in d.openLocal &&
         var report := ReportOrder(d.exec.venue, d.openLocal[id]).1;
         match d.exec.machine.statuses[id]
         case PartiallyFilled => report.Ok? && report.value.open && report.value.filledQuantity <= 0
         case Unknown => report.Err? && !report.error.UnknownOrder?
         case _ => false)
  }

  /** Against every broker: the answer is the order's status afterwards, and other orders keep theirs. */
  lemma SyncAnswers(d: Desk, id: string)
    ensures var (e, answer) := Sync(d, id);
      && (answer.Some? ==> Status(e.exec.machine, id) == answer)
      && (answer.None? <==> NoAnswer(d, id))
      && (answer.None? ==> e.exec.machine == d.exec.machine && e.openLocal == d.openLocal && e.booked == d.booked)
      && (forall x :: x != id ==> Status(e.exec.machine, x) == Status(d.exec.machine, x))
  {
    if id in d.openLocal && id in d.exec.machine.statuses {
      var brokerId, status := d.openLocal[id], d.exec.machine.statuses[id];
      if Working(status) {
        WorkingAnswers(d, id, brokerId, status);
      } else if status.Unknown? {
        UnknownAnswers(d, id, brokerId);
      }
    }
  }

  /** The newest report of an order that the venue has given. */
  function LastReport(v: Venue, brokerId: string): Result<ExecutionReport, BrokerError> {
    match v
    case MockVenue(book) => MockReport(book, brokerId)
    case OpenVenue(answers, n) => if n == 0 then Err(UnknownOrder) else answers(n - 1).report
  }

  /** The fill to book of an order: one that is Filled, and whose newest report names shares and a price. */
  function Due(e: Desk, id: string, brokerId: string): Option<Fill> {
    match LastReport(e.exec.venue, brokerId)
    case Err(_) => None
    case Ok(r) =>
      if Status(e.exec.machine, id) == Some(Filled) && r.filledQuantity > 0 && r.averageFillPrice.Some? then
        Some(Fill(id, r.symbol, r.side, r.filledQuantity, r.averageFillPrice.value))
      else None
  }

  /** An order that is done is closed and its fill booked; the portfolio takes the fill unless it refuses it. */
  ghost predicate SettledAs(d: Desk, e: Desk, id: string, brokerId: string, answer: Option<OrderStatus>) {
    if answer.None? || Working(answer.value) then
      e.openLocal == d.openLocal && e.booked == d.booked && e.portfolio == d.portfolio
    else
      && e.openLocal == d.openLocal - {id}
      && match Due(e, id, brokerId)
         case None => e.booked == d.booked && e.portfolio == d.portfolio
         case Some(fill) =>
           && e.booked == d.booked + [Booking(id, fill, ApplyFill(d.portfolio, fill).Ok?)]
           && e.portfolio == match ApplyFill(d.portfolio, fill) case Ok(next) => next case Err(_) => d.portfolio
  }

  /** Against every broker: an order whose answer is no longer working is closed and booked, and no other is. */
  lemma SyncSettles(d: Desk, id: string)
    ensures var (e, answer) := Sync(d, id);
      if id in d.openLocal then SettledAs(d, e, id, d.openLocal[id], answer) else e == d
  {
    if id in d.openLocal && id in d.exec.machine.statuses {
      var brokerId, status := d.openLocal[id], d.exec.machine.statuses[id];
      if Working(status) {
        WorkingSettles(d, id, brokerId, status);
      } else if status.Unknown? {
        UnknownSettles(d, id, brokerId);
      } else {
        SettleBooks(d, id, brokerId, status);
      }
    }
  }

  lemma WorkingSettles(d: Desk, id: string, brokerId: string, status: OrderStatus)
    requires Status(d.exec.machine, id) == Some(status) && Working(status)
    ensures var (e, answer) := SyncWorking(d, id, brokerId, status); SettledAs(d, e, id, brokerId, answer)
  {
    var (venue, answer) := ReportOrder(d.exec.venue, brokerId);
    if answer.Err? || TargetStatus(answer.value) == status {
      SettleBooks(WithMachine(d, d.exec.machine, venue), id, brokerId, status);
    } else {
      var target := TargetStatus(answer.value);
      match Transition(d.exec.machine, id, target)
      case Err(_) =>
      case Ok(machine) => SettleBooks(WithMachine(d, machine, venue), id, brokerId, target);
    }
  }

  lemma UnknownSettles(d: Desk, id: string, brokerId: string)
    requires Status(d.exec.machine, id) == Some(Unknown)
    ensures var (e, answer) := SyncUnknown(d, id, brokerId); SettledAs(d, e, id, brokerId, answer)
  {
    var step := Reconcile(d.exec.machine, d.exec.venue, id, brokerId);
    if step.result.Ok? {
      SettleBooks(WithMachine(d, step.machine, step.venue), id, brokerId, step.result.value);
    }
  }

  lemma SettleBooks(d: Desk, id: string, brokerId: string, status: OrderStatus)
    ensures SettledAs(d, Settle(d, id, brokerId, status), id, brokerId, Some(status))
  {
  }

  lemma WorkingAnswers(d: Desk, id: string, brokerId: string, status: OrderStatus)
    requires Status(d.exec.machine, id) == Some(status) && Working(status)
    ensures var (e, answer), report := SyncWorking(d, id, brokerId, status), ReportOrder(d.exec.venue, brokerId).1;
      && (answer.None? <==>
           status.PartiallyFilled? && report.Ok? && report.value.open && report.value.filledQuantity <= 0)
      && (answer.None? ==> e.exec.machine == d.exec.machine && e.openLocal == d.openLocal && e.booked == d.booked)
      && (answer.Some? ==> answer.value == (if report.Ok? then TargetStatus(report.value) else status))
      && (answer.Some? ==> e.exec.machine.statuses == d.exec.machine.statuses[id := answer.value])
  {
  }

  lemma UnknownAnswers(d: Desk, id: string, brokerId: string)
    requires Status(d.exec.machine, id) == Some(Unknown)
    ensures var (e, answer), report := SyncUnknown(d, id, brokerId), ReportOrder(d.exec.venue, brokerId).1;
      && (answer.None? <==> report.Err? && !report.error.UnknownOrder?)
      && (answer.None? ==> e.exec.machine == d.exec.machine && e.openLocal == d.openLocal && e.booked == d.booked)
      && (answer.Some? ==> answer.value == (if report.Ok? then TargetStatus(report.value) else OrderStatus.Rejected))
      && (answer.Some? ==> e.exec.machine.statuses == d.exec.machine.statuses[id := answer.value])
  {
  }

  // ---- A full sync ----

  /** Each answer is the status after the whole sync. */
  lemma {:induction false} SyncAllAnswers(d: Desk, order: seq<string>)
    requires forall i, j :: 0 <= i < j < |order| ==> order[i] != order[j]
    ensures var (e, results) := SyncAll(d, order);
      && (forall id :: id in results ==> id in order && Status(e.exec.machine, id) == Some(results[id]))
      && (forall x :: x !in order ==> Status(e.exec.machine, x) == Status(d.exec.machine, x))
    decreases |order|
  {
    if order != [] {
      var n := |order| - 1;
      var front, id := order[..n], order[n];
      FrontAndLast(order);
      assert id !in front;
      SyncAllAnswers(d, front);
      SyncAnswers(SyncAll(d, front).0, id);
    }
  }

  // ---- At the mock ----

  /** What the in-memory broker's report makes of an order. */
  function Landed(r: ExecutionReport): OrderStatus {
    if Done(r) then Filled else if r.open then Submitted else Cancelled
  }

  ghost predicate SyncedAt(d: Desk, e: Desk, order: seq<string>, results: map<string, OrderStatus>) {
    && Steady(d) && Steady(e) && e.exec.venue == d.exec.venue
    && (forall x :: x in d.openLocal && x !in order ==> x in e.openLocal && e.openLocal[x] == d.openLocal[x])
    && (forall x :: x in d.openLocal && x in order ==>
         x in results && results[x] == Landed(d.exec.venue.book.reports[d.openLocal[x]]))
  }

  lemma MockSyncAnswers(d: Desk, id: string)
    requires Steady(d) && id in d.openLocal
    ensures Sync(d, id).1 == Some(Landed(d.exec.venue.book.reports[d.openLocal[id]]))
    ensures d.openLocal - {id} == Sync(d, id).0.openLocal - {id}
  {
    SyncOpenOrder(d, id);
    WorkingAnswers(d, id, d.openLocal[id], Submitted);
  }

  /** A full sync answers every open order: Filled where the broker has filled it, whatever the order of the visits. */
  lemma {:induction false} MockSyncAllAnswers(d: Desk, order: seq<string>)
    requires Steady(d) && (forall i, j :: 0 <= i < j < |order| ==> order[i] != order[j])
    requires forall id :: id in order ==> id in d.openLocal
    ensures SyncedAt(d, SyncAll(d, order).0, order, SyncAll(d, order).1)
    decreases |order|
  {
    if order != [] {
      var n := |order| - 1;
      var front, id := order[..n], order[n];
      FrontAndLast(order);
      assert id !in front;
      MockSyncAllAnswers(d, front);
      var (before, results) := SyncAll(d, front);
      SyncKeepsSteady(before, id);
      MockSyncAnswers(before, id);
      SyncedOneMore(d, before, Sync(before, id).0, front, results, id, order);
    }
  }

  lemma SyncedOneMore(
    d: Desk, before: Desk, e: Desk, front: seq<string>, results: map<string, OrderStatus>, id: string,
    order: seq<string>)
    requires SyncedAt(d, before, front, results) && SyncedInto(before, id, e) && id in d.openLocal && id !in front
    requires before.openLocal - {id} == e.openLocal - {id} && order == front + [id]
    ensures SyncedAt(d, e, order, results[id := Landed(before.exec.venue.book.reports[before.openLocal[id]])])
  {
    forall x | x in d.openLocal && x !in order
      ensures x in e.openLocal && e.openLocal[x] == d.openLocal[x]
    {
      assert x in before.openLocal - {id} && (before.openLocal - {id})[x] == before.openLocal[x];
    }
  }

  // ---- Recovery ----

  /** Every recovered status is the one in the machine, and exactly the working ones are reopened. */
  lemma RecoverAnswers(d: Desk, pending: map<string, string>, order: seq<string>)
    requires Enumerates(order, pending.Keys)
    ensures var (e, results) := Recover(d, pending, order);
      && (forall id :: id in results ==> id in pending && Status(e.exec.machine, id) == Some(results[id]))
      && (forall id :: id in e.openLocal <==> id in d.openLocal || (id in results && Working(results[id])))
      && (forall id :: id in results && Working(results[id]) ==> id in e.openLocal && e.openLocal[id] == pending[id])
  {
    Lifecycle.BatchResolves(d.exec.machine, d.exec.venue, pending, order);
  }

  // ---- Partial fills and cancels ----

  /**
   At any broker, a partial fill is answered and kept open without a booking, and the completed order is
   answered, booked once with all of its shares, and closed.
   */
  lemma PartialFillCompletes(d: Desk, id: string, part: ExecutionReport, whole: ExecutionReport)
    requires id in d.openLocal && Status(d.exec.machine, id) == Some(Submitted)
    requires d.exec.venue.OpenVenue? && var answers, n := d.exec.venue.answers, d.exec.venue.calls;
      answers(n).report == Ok(part) && answers(n + 1).report == Ok(whole) && answers(n + 2).report == Ok(whole)
    requires part.open && 0 < part.filledQuantity
    requires !whole.open && 0 < whole.orderQuantity == whole.filledQuantity && whole.averageFillPrice.Some?
    ensures var (e, first) := Sync(d, id);
      var (f, second) := Sync(e, id);
      && first == Some(PartiallyFilled)
      && e.openLocal == d.openLocal && e.booked == d.booked && e.portfolio == d.portfolio
      && second == Some(Filled) && f.openLocal == d.openLocal - {id}
      && |f.booked| == |d.booked| + 1 && d.booked <= f.booked
      && f.booked[|d.booked|].fill
           == Fill(id, whole.symbol, whole.side, whole.orderQuantity, whole.averageFillPrice.value)
  {
  }

  /** A venue-side cancel closes one untouched report; the next sync answers Cancelled, books nothing and lets go. */
  lemma CancelIsSeen(d: Desk, id: string)
    requires Steady(d) && id in d.openLocal && d.exec.venue.book.reports[d.openLocal[id]].open
    ensures var e := Simulation.WithVenue(d, Simulation.Cancelled(d.exec.venue, d.openLocal[id]));
      var (f, answer) := Sync(e, id);
      && answer == Some(Cancelled) && f.openLocal == d.openLocal - {id}
      && f.portfolio == d.portfolio && f.booked == d.booked
      && f.exec.venue.book.positions == d.exec.venue.book.positions
  {
    var e := Simulation.WithVenue(d, Simulation.Cancelled(d.exec.venue, d.openLocal[id]));
    var r := e.exec.venue.book.reports[d.openLocal[id]];
    assert !r.open && Untouched(r);
    SyncOpenOrder(e, id);
    WorkingAnswers(e, id, d.openLocal[id], Submitted);
  }
}
