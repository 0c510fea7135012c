/**
 Order submission and reconciliation. `sent` is a trace: one entry per call of the broker's
 `submit_order`, with the request and the kind of answer it got.
 */
module Gateways {
  import opened Types
  import opened Orders
  import opened StateMachines
  import opened Brokers

  datatype SubmitAnswer = Acknowledged | Definitive | Lost

  datatype Sent = Sent(request: OrderRequest, answer: SubmitAnswer) {
    const id := request.clientOrderId
  }

  datatype SubmitError =
    | Duplicate
    | Timeout(error: BrokerError)
    | BrokerFailed(error: BrokerError)
    | MachineError(machineError: TransitionError)

  datatype ReconcileError = MachineFailed(machineError: TransitionError) | LookupFailed(error: BrokerError)

  datatype Exec = Exec(machine: Machine, brokerIds: map<string, string>, sent: seq<Sent>, venue: Venue)

  function Registered(m: Machine, id: string, status: OrderStatus): Machine
    requires id !in m.statuses
  {
    Register(m, id, status).value
  }

  function Moved(m: Machine, id: string, to: OrderStatus): Machine
    requires id in m.statuses && CanTransition(m.statuses[id], to)
  {
    Transition(m, id, to).value
  }

  function Kind(answer: Result<OrderAck, BrokerError>): SubmitAnswer {
    if answer.Ok? then Acknowledged else if answer.error.Rejected? then Definitive else Lost
  }

  /** Where the broker's answer takes an order. */
  function Landing(a: SubmitAnswer): OrderStatus {
    match a
    case Acknowledged => Submitted
    case Definitive => OrderStatus.Rejected
    case Lost => Unknown
  }

  function SubmitResult(answer: Result<OrderAck, BrokerError>): Result<OrderAck, SubmitError> {
    match answer
    case Ok(ack) => Ok(ack)
    case Err(error) => if error.Rejected? then Err(BrokerFailed(error)) else Err(Timeout(error))
  }

  function Submit(e: Exec, order: Order): (Exec, Result<OrderAck, SubmitError>) {
    var id := order.clientOrderId;
    if id in e.brokerIds || id in e.machine.statuses then (e, Err(Duplicate))
    else
      var (venue, answer) := Brokers.SubmitOrder(e.venue, RequestOf(order));
      var brokerIds := if answer.Ok? then e.brokerIds[id := answer.value.brokerOrderId] else e.brokerIds;
      (Exec(Moved(Registered(e.machine, id, Pending), id, Landing(Kind(answer))), brokerIds,
            e.sent + [Sent(RequestOf(order), Kind(answer))], venue),
       SubmitResult(answer))
  }

  /** The status a report stands for. */
  function TargetStatus(r: ExecutionReport): OrderStatus {
    if !r.open && r.filledQuantity >= r.orderQuantity then Filled
    else if r.open then (if r.filledQuantity > 0 then PartiallyFilled else Submitted)
    else Cancelled
  }

  /** A closed report that is not filled whole is a cancel, whatever was filled of it. */
  lemma ReportStatus(r: ExecutionReport)
    ensures TargetStatus(r).Filled? <==> !r.open && r.orderQuantity <= r.filledQuantity
    ensures TargetStatus(r).Cancelled? <==> !r.open && r.filledQuantity < r.orderQuantity
    ensures TargetStatus(r).PartiallyFilled? <==> r.open && 0 < r.filledQuantity
    ensures TargetStatus(r).Submitted? <==> r.open && r.filledQuantity <= 0
  {
  }

  datatype Resolution = Resolution(machine: Machine, venue: Venue, result: Result<OrderStatus, ReconcileError>)

  function Reconcile(m: Machine, v: Venue, id: string, brokerId: string): Resolution {
    if id !in m.statuses then Resolution(m, v, Err(MachineFailed(Unregistered)))
    else if !m.statuses[id].Unknown? then Resolution(m, v, Ok(m.statuses[id]))
    else
      var (venue, answer) := ReportOrder(v, brokerId);
      match answer
      case Ok(report) =>
        Resolution(Moved(m, id, TargetStatus(report)), venue, Ok(TargetStatus(report)))
      case Err(error) =>
        if error.UnknownOrder? then
          Resolution(Moved(m, id, OrderStatus.Rejected), venue, Ok(OrderStatus.Rejected))
        else Resolution(m, venue, Err(LookupFailed(error)))
  }

  datatype Batch = Batch(machine: Machine, venue: Venue, result: Result<map<string, OrderStatus>, ReconcileError>)

  /** One order of a batch; an order the machine has never seen enters it at Unknown. */
  function ReconcileNext(m: Machine, v: Venue, id: string, brokerId: string): Resolution {
    Reconcile(if id in m.statuses then m else Registered(m, id, Unknown), v, id, brokerId)
  }

  function Extended(results: map<string, OrderStatus>, id: string, step: Resolution): Batch {
    match step.result
    case Ok(status) => Batch(step.machine, step.venue, Ok(results[id := status]))
    case Err(e) => Batch(step.machine, step.venue, Err(e))
  }

  /** `reconcile_pending`, visiting the pending map in the given order; the first error stops it. */
  function ReconcilePending(m: Machine, v: Venue, pending: map<string, string>, order: seq<string>): Batch
    requires forall id :: id in order ==> id in pending
  {
    if order == [] then Batch(m, v, Ok(map[]))
    else
      var n := |order| - 1;
      var before := ReconcilePending(m, v, pending, order[..n]);
      if before.result.Err? then before
      else
        var step := ReconcileNext(before.machine, before.venue, order[n], pending[order[n]]);
        Extended(before.result.value, order[n], step)
  }

  /** Once stopped by an error, a batch ignores the rest of the pending map. */
  lemma {:induction false} StoppedBatch(m: Machine, v: Venue, pending: map<string, string>, order: seq<string>, k: nat)
    requires forall id :: id in order ==> id in pending
    requires k <= |order| && ReconcilePending(m, v, pending, order[..k]).result.Err?
    ensures ReconcilePending(m, v, pending, order) == ReconcilePending(m, v, pending, order[..k])
    decreases |order|
  {
    if k < |order| {
      var n := |order| - 1;
      PrefixOfPrefix(order, n, k);
      StoppedBatch(m, v, pending, order[..n], k);
    } else {
      assert order[..k] == order;
    }
  }

  /** `order` visits every key, each once: one possible iteration of a hash map. */
  ghost predicate Enumerates(order: seq<string>, keys: set<string>) {
    && (forall i, j :: 0 <= i < j < |order| ==> order[i] != order[j])
    && (forall id :: id in order <==> id in keys)
  }

  /** Some enumeration of a finite set. */
  ghost function Listing(keys: set<string>): (order: seq<string>)
    ensures Enumerates(order, keys)
  {
    if keys == {} then []
    else
      var id :| id in keys;
      [id] + Listing(keys - {id})
  }

  lemma EnumerationsJoin(a: seq<string>, aKeys: set<string>, b: seq<string>, bKeys: set<string>)
    requires Enumerates(a, aKeys) && Enumerates(b, bKeys) && aKeys !! bKeys
    ensures Enumerates(a + b, aKeys + bKeys)
  {
    var c := a + b;
    forall i, j | 0 <= i < j < |c|
      ensures c[i] != c[j]
    {
      assert c[i] in (if i < |a| then a else b) && c[j] in (if j < |a| then a else b);
    }
  }

  /** Moving one key from the unvisited ones to the end of the visited ones. */
  lemma VisitOne(visited: seq<string>, all: set<string>, rest: set<string>, id: string)
    requires Enumerates(visited, all - rest) && id in rest && rest <= all
    ensures Enumerates(visited + [id], all - (rest - {id}))
  {
    EnumerationsJoin(visited, all - rest, [id], {id});
    assert all - rest + {id} == all - (rest - {id});
  }

  lemma BatchOneMore(m: Machine, v: Venue, pending: map<string, string>, order: seq<string>, id: string)
    requires id in pending && forall x :: x in order ==> x in pending
    requires ReconcilePending(m, v, pending, order).result.Ok?
    ensures var before := ReconcilePending(m, v, pending, order);
      ReconcilePending(m, v, pending, order + [id])
        == Extended(before.result.value, id, ReconcileNext(before.machine, before.venue, id, pending[id]))
  {
    assert (order + [id])[..|order|] == order;
  }

  /** A stopped batch is the same whatever the unvisited keys are. */
  lemma StopBatch(m: Machine, v: Venue, pending: map<string, string>, order: seq<string>, rest: set<string>)
    requires rest <= pending.Keys && Enumerates(order, pending.Keys - rest)
    requires ReconcilePending(m, v, pending, order).result.Err?
    ensures var all := order + Listing(rest);
      Enumerates(all, pending.Keys) && ReconcilePending(m, v, pending, all) == ReconcilePending(m, v, pending, order)
  {
    var all := order + Listing(rest);
    EnumerationsJoin(order, pending.Keys - rest, Listing(rest), rest);
    assert pending.Keys - rest + rest == pending.Keys;
    assert all[..|order|] == order;
    StoppedBatch(m, v, pending, all, |order|);
  }

  class OrderGateway {
    const broker: Broker
    var brokerIds: map<string, string>
    ghost var sent: seq<Sent>

    constructor (broker: Broker)
      ensures this.broker == broker && brokerIds == map[] && sent == []
    {
      this.broker := broker;
      brokerIds := map[];
      sent := [];
    }

    ghost function View(machine: StateMachine): Exec
      reads this, machine, broker.Footprint()
    {
      Exec(machine.View(), brokerIds, sent, broker.View())
    }

    method SubmitOrder(machine: StateMachine, order: Order) returns (r: Result<OrderAck, SubmitError>)
      modifies this, machine, broker.Footprint()
      ensures (View(machine), r) == Submit(old(View(machine)), order)
    {
      var id := order.clientOrderId;
      if id in brokerIds || machine.StatusOf(id).Some? {
        return Err(Duplicate);
      }
      var registered := machine.RegisterOrder(id, Pending);
      assert registered.Ok?;
      ghost var pending := Registered(old(machine.View()), id, Pending);
      assert machine.View() == pending;
      var answer := broker.Submit(RequestOf(order));
      ghost var venue := broker.View();
      assert (venue, answer) == Brokers.SubmitOrder(old(broker.View()), RequestOf(order));
      assert machine.View() == pending;
      sent := sent + [Sent(RequestOf(order), Kind(answer))];
      r := Conclude(machine, id, answer);
      assert broker.View() == venue;
    }

    /** What the broker's answer makes of a pending order. */
    method Conclude(machine: StateMachine, id: string, answer: Result<OrderAck, BrokerError>)
      returns (r: Result<OrderAck, SubmitError>)
      requires Status(machine.View(), id) == Some(Pending)
      modifies this`brokerIds, machine
      ensures machine.View() == Moved(old(machine.View()), id, Landing(Kind(answer)))
      ensures brokerIds == if answer.Ok? then old(brokerIds)[id := answer.value.brokerOrderId] else old(brokerIds)
      ensures r == SubmitResult(answer)
    {
      match answer
      case Err(error) =>
        if error.Rejected? {
          var moved := machine.MoveTo(id, OrderStatus.Rejected);
          assert moved.Ok?;
          r := Err(BrokerFailed(error));
        } else {
          var moved := machine.MoveToUnknown(id);
          assert moved.Ok?;
          r := Err(Timeout(error));
        }
      case Ok(ack) =>
        var moved := machine.MoveTo(id, Submitted);
        assert moved.Ok?;
        brokerIds := brokerIds[id := ack.brokerOrderId];
        r := Ok(ack);
    }
  }

  class Reconciler {
    const broker: Broker

    constructor (broker: Broker)
      ensures this.broker == broker
    {
      this.broker := broker;
    }

    method ReconcileOrder(machine: StateMachine, id: string, brokerId: string)
      returns (r: Result<OrderStatus, ReconcileError>)
      modifies machine, broker.Footprint()
      ensures Resolution(machine.View(), broker.View(), r)
           == Reconcile(old(machine.View()), old(broker.View()), id, brokerId)
    {
      var status := machine.StatusOf(id);
      if status.None? {
        return Err(MachineFailed(Unregistered));
      }
      if status.value != Unknown {
        return Ok(status.value);
      }
      var answer := broker.Report(brokerId);
      match answer
      case Err(error) =>
        if error.UnknownOrder? {
          var moved := machine.MoveTo(id, OrderStatus.Rejected);
          return match moved case Ok(s) => Ok(s) case Err(e) => Err(MachineFailed(e));
        }
        return Err(LookupFailed(error));
      case Ok(report) =>
        var moved := machine.MoveTo(id, TargetStatus(report));
        return match moved case Ok(s) => Ok(s) case Err(e) => Err(MachineFailed(e));
    }

    method ReconcileOne(machine: StateMachine, id: string, brokerId: string)
      returns (r: Result<OrderStatus, ReconcileError>)
      modifies machine, broker.Footprint()
      ensures Resolution(machine.View(), broker.View(), r)
           == ReconcileNext(old(machine.View()), old(broker.View()), id, brokerId)
    {
      if machine.StatusOf(id).None? {
        var registered := machine.RegisterOrder(id, Unknown);
        assert registered.Ok?;
      }
      r := ReconcileOrder(machine, id, brokerId);
    }

    method ReconcileAll(machine: StateMachine, pending: map<string, string>)
      returns (r: Result<map<string, OrderStatus>, ReconcileError>, ghost order: seq<string>)
      modifies machine, broker.Footprint()
      ensures Enumerates(order, pending.Keys)
      ensures Batch(machine.View(), broker.View(), r)
           == ReconcilePending(old(machine.View()), old(broker.View()), pending, order)
    {
      ghost var m0, v0 := machine.View(), broker.View();
      var results: map<string, OrderStatus> := map[];
      var keys := pending.Keys;
      order := [];
      while keys != {}
        invariant keys <= pending.Keys
        invariant Enumerates(order, pending.Keys - keys)
        invariant Batch(machine.View(), broker.View(), Ok(results)) == ReconcilePending(m0, v0, pending, order)
        decreases keys
      {
        var id :| id in keys;
        VisitOne(order, pending.Keys, keys, id);
        BatchOneMore(m0, v0, pending, order, id);
        keys := keys - {id};
        order := order + [id];
        var step := ReconcileOne(machine, id, pending[id]);
        match step
        case Ok(status) =>
          results := results[id := status];
        case Err(e) =>
          r := Err(e);
          StopBatch(m0, v0, pending, order, keys);
          order := order + Listing(keys);
          return;
      }
      r := Ok(results);
    }
  }
}
