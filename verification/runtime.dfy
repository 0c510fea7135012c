/**
 The trading runtime as a transition system on values. `Desk` is the order side (state machine,
 gateway, open orders, portfolio), `Tape` the quote side (aggregator, window, live quotes).
 `booked` is a trace: one entry per call of `Portfolio::apply_fill` on a discovered fill.
 */
module Runtimes {
  import opened Types
  import opened Portfolios
  import opened Orders
  import opened StateMachines
  import opened Brokers
  import opened Gateways
  import opened Risk
  import opened Histories
  import opened Aggregators
  import opened Strategies

  /** `clock(n)` and `killed(n)` are what the risk manager's clock and kill switch show at the check of order `n`. */
  datatype Config = Config(
    prefix: string, strategy: Strategy, limits: RiskLimits, clock: nat -> int, killed: nat -> bool, capacity: nat)

  datatype Booking = Booking(id: string, fill: Fill, accepted: bool)

  datatype Desk = Desk(
    exec: Exec, openLocal: map<string, string>, portfolio: Portfolio, booked: seq<Booking>, orderSeq: nat)

  datatype Tape = Tape(partials: Partials, window: Window, quotes: map<Symbol, Quote>)

  datatype Runtime = Runtime(desk: Desk, tape: Tape)

  function FreshDesk(venue: Venue): Desk {
    Desk(Exec(FRESH, map[], [], venue), map[], EMPTY, [], 0)
  }

  const EMPTY_TAPE := Tape(map[], map[], map[])

  // ---- Quotes ----

  function OnQuote(c: Config, m: Tape, q: Quote): Tape {
    var (partials, bar) := PushTick(m.partials, q);
    var window := if bar.Some? then PushClose(m.window, c.capacity, bar.value.symbol, bar.value.close) else m.window;
    Tape(partials, window, m.quotes[q.symbol := q])
  }

  function TakeSnapshot(c: Config, r: Runtime): Snapshot {
    Snapshot(r.tape.quotes, r.desk.portfolio.positions, Session(c.prefix), r.tape.window)
  }

  // ---- Decisions ----

  function NextId(c: Config, d: Desk): string {
    ClientId(c.prefix, d.orderSeq + 1)
  }

  function Send(d: Desk, order: Order): (Desk, Option<Order>) {
    var (exec, r) := Submit(d.exec, order);
    match r
    case Ok(ack) =>
      (d.(exec := exec, openLocal := d.openLocal[order.clientOrderId := ack.brokerOrderId]), Some(order))
    case Err(_) => (d.(exec := exec), None)
  }

  /** The gateway has not seen the order's id. */
  predicate New(d: Desk, order: Order) {
    order.clientOrderId !in d.exec.brokerIds && order.clientOrderId !in d.exec.machine.statuses
  }

  /** One intent: malformed and risk-rejected intents still use up a sequence number. */
  ghost function Place(c: Config, d: Desk, intent: OrderIntent, quotes: map<Symbol, Quote>)
    : (Desk, Option<Order>)
  {
    var next := d.(orderSeq := d.orderSeq + 1);
    match NewOrder(NextId(c, d), intent)
    case Err(_) => (next, None)
    case Ok(order) =>
      var n := d.orderSeq + 1;
      if CheckOrder(c.limits, c.killed(n), c.clock(n), order, d.portfolio, quotes).Err? then (next, None)
      else Send(next, order)
  }

  ghost function Cycle(c: Config, d: Desk, intents: seq<OrderIntent>, quotes: map<Symbol, Quote>)
    : (Desk, seq<Order>)
  {
    if intents == [] then (d, [])
    else
      var n := |intents| - 1;
      var (before, orders) := Cycle(c, d, intents[..n], quotes);
      var (after, order) := Place(c, before, intents[n], quotes);
      (after, if order.Some? then orders + [order.value] else orders)
  }

  lemma CycleOneMore(
    c: Config, d: Desk, intents: seq<OrderIntent>, intent: OrderIntent, quotes: map<Symbol, Quote>)
    ensures var (before, orders) := Cycle(c, d, intents, quotes);
      var (after, order) := Place(c, before, intent, quotes);
      Cycle(c, d, intents + [intent], quotes)
        == (after, if order.Some? then orders + [order.value] else orders)
  {
    assert (intents + [intent])[..|intents|] == intents;
  }

  ghost function Decide(c: Config, r: Runtime): (Runtime, seq<Order>) {
    var (desk, orders) := Cycle(c, r.desk, c.strategy(TakeSnapshot(c, r)), r.tape.quotes);
    (r.(desk := desk), orders)
  }

  // ---- Execution sync ----

  /** `apply_fills`: ask the broker again and book a fill of a Filled order. */
  function ApplyFills(d: Desk, id: string, brokerId: string): Desk {
    var (venue, answer) := ReportOrder(d.exec.venue, brokerId);
    var asked := d.(exec := d.exec.(venue := venue));
    if answer.Err? || Status(d.exec.machine, id) != Some(Filled) || answer.value.filledQuantity <= 0
       || answer.value.averageFillPrice.None? then asked
    else
      var report := answer.value;
      var fill := Fill(id, report.symbol, report.side, report.filledQuantity, report.averageFillPrice.value);
      asked.(portfolio := Book(d.portfolio, fill),
             booked := d.booked + [Booking(id, fill, ApplyFill(d.portfolio, fill).Ok?)])
  }

  /** A status that is no longer working takes the order out of the open set. */
  function Settle(d: Desk, id: string, brokerId: string, status: OrderStatus): Desk {
    if Working(status) then d
    else
      var applied := ApplyFills(d, id, brokerId);
      applied.(openLocal := applied.openLocal - {id})
  }

  function WithMachine(d: Desk, machine: Machine, venue: Venue): Desk {
    d.(exec := d.exec.(machine := machine, venue := venue))
  }

  function SyncWorking(d: Desk, id: string, brokerId: string, status: OrderStatus): (Desk, Option<OrderStatus>) {
    var (venue, answer) := ReportOrder(d.exec.venue, brokerId);
    var asked := WithMachine(d, d.exec.machine, venue);
    if answer.Err? || TargetStatus(answer.value) == status then (Settle(asked, id, brokerId, status), Some(status))
    else
      var target := TargetStatus(answer.value);
      match Transition(d.exec.machine, id, target)
      case Err(_) => (asked, None)
      case Ok(machine) => (Settle(WithMachine(d, machine, venue), id, brokerId, target), Some(target))
  }

  function SyncUnknown(d: Desk, id: string, brokerId: string): (Desk, Option<OrderStatus>) {
    var step := Reconcile(d.exec.machine, d.exec.venue, id, brokerId);
    var resolved := WithMachine(d, step.machine, step.venue);
    match step.result
    case Err(_) => (resolved, None)
    case Ok(status) => (Settle(resolved, id, brokerId, status), Some(status))
  }

  function Sync(d: Desk, id: string): (Desk, Option<OrderStatus>) {
    if id !in d.openLocal then (d, Status(d.exec.machine, id))
    else if id !in d.exec.machine.statuses then (d, None)
    else
      var brokerId, status := d.openLocal[id], d.exec.machine.statuses[id];
      if Working(status) then SyncWorking(d, id, brokerId, status)
      else if status.Unknown? then SyncUnknown(d, id, brokerId)
      else (Settle(d, id, brokerId, status), Some(status))
  }

  /** `sync_all` in one order of the open set. */
  function SyncAll(d: Desk, order: seq<string>): (Desk, map<string, OrderStatus>) {
    if order == [] then (d, map[])
    else
      var n := |order| - 1;
      var (before, results) := SyncAll(d, order[..n]);
      var (after, status) := Sync(before, order[n]);
      (after, if status.Some? then results[order[n] := status.value] else results)
  }

  lemma SyncOneMore(d: Desk, order: seq<string>, id: string)
    ensures var (before, results) := SyncAll(d, order);
      var (after, status) := Sync(before, id);
      SyncAll(d, order + [id]) == (after, if status.Some? then results[id := status.value] else results)
  {
    assert (order + [id])[..|order|] == order;
  }

  // ---- Restart ----

  function Restored(p: Portfolio, positions: seq<Position>): Portfolio {
    if positions == [] then p
    else
      var n := |positions| - 1;
      var before, position := Restored(p, positions[..n]), positions[n];
      if position.quantity == 0 then before
      else Book(before, Fill("restore", position.symbol, Buy, position.quantity, position.averagePrice))
  }

  function Rebuild(d: Desk): Desk {
    var (venue, answer) := ListPositions(d.exec.venue);
    var asked := d.(exec := d.exec.(venue := venue));
    match answer
    case Err(_) => asked
    case Ok(positions) => asked.(portfolio := Restored(EMPTY, positions))
  }

  /** The results of a failed batch are dropped (`unwrap_or_default`). */
  function Recovered(r: Result<map<string, OrderStatus>, ReconcileError>): map<string, OrderStatus> {
    match r
    case Ok(results) => results
    case Err(_) => map[]
  }

  function Reopened(pending: map<string, string>, results: map<string, OrderStatus>): map<string, string> {
    map id | id in results && id in pending && Working(results[id]) :: pending[id]
  }

  function Recover(d: Desk, pending: map<string, string>, order: seq<string>): (Desk, map<string, OrderStatus>)
    requires forall id :: id in order ==> id in pending
  {
    var batch := ReconcilePending(d.exec.machine, d.exec.venue, pending, order);
    var results := Recovered(batch.result);
    var rebuilt := Rebuild(WithMachine(d, batch.machine, batch.venue));
    (rebuilt.(openLocal := rebuilt.openLocal + Reopened(pending, results)), results)
  }
}
