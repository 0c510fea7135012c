/** The runtime object: its methods update the parts in place and refine the transition system. */
module TradingRuntimes {
  import opened Types
  import opened Portfolios
  import opened Orders
  import opened StateMachines
  import opened Brokers
  import opened Gateways
  import opened Risk
  import opened Histories
  import opened Aggregators
  import opened Strategies
  import opened Runtimes

  class TradingRuntime {
    const config: Config
    const broker: Broker
    const reconciler: Reconciler
    const risk: RiskManager
    const machine: StateMachine
    const gateway: OrderGateway
    const history: HistoryWindow
    const aggregator: BarAggregator
    var quotes: map<Symbol, Quote>
    var portfolio: Portfolio
    var orderSeq: nat
    var openLocal: map<string, string>
    ghost var booked: seq<Booking>

    /** The parts are wired to one broker and to the configuration. */
    ghost predicate Wired() {
      && gateway.broker == broker && reconciler.broker == broker
      && history.capacity == config.capacity && risk.limits == config.limits
    }

    ghost function Desk(): Desk
      reads `openLocal, `portfolio, `booked, `orderSeq, machine, gateway, broker.Footprint()
    {
      Runtimes.Desk.Desk(
        Exec(machine.View(), gateway.brokerIds, gateway.sent, broker.View()), openLocal, portfolio, booked, orderSeq)
    }

    ghost function Tape(): Tape
      reads `quotes, history, aggregator
    {
      Runtimes.Tape.Tape(aggregator.inner, history.inner, quotes)
    }

    ghost function View(): Runtime
      reads this, machine, gateway, broker.Footprint(), history, aggregator
    {
      Runtime(Desk(), Tape())
    }

    constructor (config: Config, broker: Broker, risk: RiskManager)
      requires config.capacity > 0 && risk.limits == config.limits
      ensures Wired() && this.broker == broker && this.config == config && this.risk == risk
      ensures View() == Runtime(FreshDesk(broker.View()), EMPTY_TAPE)
      ensures fresh(machine) && fresh(gateway) && fresh(history) && fresh(aggregator)
    {
      this.config, this.broker, this.risk := config, broker, risk;
      reconciler := new Reconciler(broker);
      gateway := new OrderGateway(broker);
      machine := new StateMachine();
      history := new HistoryWindow(config.capacity);
      aggregator := new BarAggregator();
      quotes, portfolio, orderSeq, openLocal, booked := map[], EMPTY, 0, map[], [];
    }

    /** If the tick opens another trading day, the bar it ends goes into the window first. */
    method ReceiveQuote(quote: Quote) returns (snapshot: Snapshot)
      requires Wired()
      modifies this, history, aggregator
      ensures Tape() == OnQuote(config, old(Tape()), quote) && Desk() == old(Desk())
      ensures snapshot == TakeSnapshot(config, View())
    {
      var bar := aggregator.Push(quote);
      if bar.Some? {
        history.Push(bar.value.symbol, bar.value.close);
      }
      quotes := quotes[quote.symbol := quote];
      snapshot := CurrentSnapshot();
    }

    method SeedDailyClose(symbol: Symbol, close: real)
      requires Wired()
      modifies history
      ensures history.inner == PushClose(old(history.inner), config.capacity, symbol, close)
    {
      history.Push(symbol, close);
    }

    method CurrentSnapshot() returns (snapshot: Snapshot)
      ensures snapshot == TakeSnapshot(config, View())
    {
      snapshot := Snapshot(quotes, portfolio.positions, Session(config.prefix), history.inner);
    }

    /** Ask the strategy once and place what it wants; the orders that the broker took. */
    method RunDecisionCycle() returns (submitted: seq<Order>)
      requires Wired()
      modifies `orderSeq, `openLocal, machine, gateway, risk, broker.Footprint()
      ensures (View(), submitted) == Decide(config, old(View()))
    {
      ghost var d0, t0 := Desk(), Tape();
      var snapshot := CurrentSnapshot();
      var intents := config.strategy(snapshot);
      submitted := [];
      ghost var placed := [];
      for i := 0 to |intents|
        invariant placed == intents[..i] && Tape() == t0
        invariant (Desk(), submitted) == Cycle(config, d0, placed, quotes)
      {
        PrefixGrows(intents, i);
        submitted := PlaceNext(d0, placed, intents[i], submitted);
        placed := placed + [intents[i]];
      }
      assert placed == intents;
    }

    /** One more intent of a cycle that has come as far as `placed`. */
    method PlaceNext(ghost d0: Desk, ghost placed: seq<OrderIntent>, intent: OrderIntent, submitted0: seq<Order>)
      returns (submitted: seq<Order>)
      requires Wired() && (Desk(), submitted0) == Cycle(config, d0, placed, quotes)
      modifies `orderSeq, `openLocal, machine, gateway, risk, broker.Footprint()
      ensures (Desk(), submitted) == Cycle(config, d0, placed + [intent], quotes)
      ensures Tape() == old(Tape())
    {
      CycleOneMore(config, d0, placed, intent, quotes);
      submitted := submitted0;
      var order := PlaceIntent(intent);
      if order.Some? {
        submitted := submitted + [order.value];
      }
    }

    method PlaceIntent(intent: OrderIntent) returns (placed: Option<Order>)
      requires Wired()
      modifies `orderSeq, `openLocal, machine, gateway, risk, broker.Footprint()
      ensures (Desk(), placed) == Place(config, old(Desk()), intent, quotes)
      ensures Tape() == old(Tape())
    {
      ghost var next, tape := Desk().(orderSeq := orderSeq + 1), Tape();
      orderSeq := orderSeq + 1;
      placed := Vetted(intent);
      assert Desk() == next && Tape() == tape;
      if placed.Some? {
        placed := SendOrder(placed.value);
      }
    }

    /** The order of an intent that is well-shaped and passes the risk checks. */
    method Vetted(intent: OrderIntent) returns (order: Option<Order>)
      requires Wired()
      modifies risk
      ensures var shaped := NewOrder(ClientId(config.prefix, orderSeq), intent);
        if shaped.Ok? && CheckOrder(config.limits, config.killed(orderSeq), config.clock(orderSeq), shaped.value,
                                    portfolio, quotes).Ok?
        then order == Some(shaped.value) else order == None
    {
      var shaped := NewOrder(ClientId(config.prefix, orderSeq), intent);
      if shaped.Err? {
        return None;
      }
      risk.TurnKillSwitch(config.killed(orderSeq));
      var checked := risk.Check(config.clock(orderSeq), shaped.value, portfolio, quotes);
      order := if checked.Ok? then Some(shaped.value) else None;
    }

    method SendOrder(order: Order) returns (placed: Option<Order>)
      requires Wired()
      modifies `openLocal, machine, gateway, broker.Footprint()
      ensures (Desk(), placed) == Send(old(Desk()), order)
      ensures Tape() == old(Tape())
    {
      var answer := gateway.SubmitOrder(machine, order);
      match answer
      case Ok(ack) =>
        openLocal := openLocal[order.clientOrderId := ack.brokerOrderId];
        placed := Some(order);
      case Err(_) =>
        placed := None;
    }

    /** Pull the broker-side state of one open order; terminal statuses book fills and close it. */
    method SyncExecution(id: string) returns (status: Option<OrderStatus>)
      requires Wired()
      modifies `openLocal, `portfolio, `booked, machine, broker.Footprint()
      ensures (Desk(), status) == Sync(old(Desk()), id)
      ensures Tape() == old(Tape())
    {
      if id !in openLocal {
        return machine.StatusOf(id);
      }
      var brokerId := openLocal[id];
      status := machine.StatusOf(id);
      if status.None? {
        return;
      }
      if Working(status.value) {
        status := PollOrder(id, brokerId, status.value);
      } else if status.value == Unknown {
        ghost var d := Desk();
        var resolved := reconciler.ReconcileOrder(machine, id, brokerId);
        assert Desk() == WithMachine(d, Reconcile(d.exec.machine, d.exec.venue, id, brokerId).machine, broker.View());
        if resolved.Err? {
          return None;
        }
        CloseIfSettled(id, brokerId, resolved.value);
        status := Some(resolved.value);
      } else {
        CloseIfSettled(id, brokerId, status.value);
      }
    }

    method PollOrder(id: string, brokerId: string, current: OrderStatus) returns (status: Option<OrderStatus>)
      requires Wired() && Working(current) && machine.StatusOf(id) == Some(current)
      modifies `openLocal, `portfolio, `booked, machine, broker.Footprint()
      ensures (Desk(), status) == SyncWorking(old(Desk()), id, brokerId, current)
      ensures Tape() == old(Tape())
    {
      ghost var d, tape := Desk(), Tape();
      var answer := broker.Report(brokerId);
      ghost var venue := broker.View();
      assert Desk() == WithMachine(d, d.exec.machine, venue) && Tape() == tape;
      var next := current;
      if answer.Ok? && TargetStatus(answer.value) != current {
        var moved := machine.MoveTo(id, TargetStatus(answer.value));
        assert Tape() == tape;
        if moved.Err? {
          assert Desk() == WithMachine(d, d.exec.machine, venue);
          return None;
        }
        next := moved.value;
        assert Desk() == WithMachine(d, Transition(d.exec.machine, id, next).value, venue);
      }
      CloseIfSettled(id, brokerId, next);
      status := Some(next);
    }

    method CloseIfSettled(id: string, brokerId: string, status: OrderStatus)
      requires Wired()
      modifies `openLocal, `portfolio, `booked, broker.Footprint()
      ensures Desk() == Settle(old(Desk()), id, brokerId, status)
      ensures Tape() == old(Tape())
    {
      if !Working(status) {
        DiscoverFill(id, brokerId);
        openLocal := openLocal - {id};
      }
    }

    method DiscoverFill(id: string, brokerId: string)
      requires Wired()
      modifies `openLocal, `portfolio, `booked, broker.Footprint()
      ensures Desk() == ApplyFills(old(Desk()), id, brokerId)
      ensures Tape() == old(Tape())
    {
      var answer := broker.Report(brokerId);
      if answer.Err? {
        return;
      }
      var report := answer.value;
      if machine.StatusOf(id) != Some(Filled) || report.filledQuantity <= 0 {
        return;
      }
      if report.averageFillPrice.None? {
        return;
      }
      var fill := Fill(id, report.symbol, report.side, report.filledQuantity, report.averageFillPrice.value);
      var applied := ApplyFill(portfolio, fill);
      booked := booked + [Booking(id, fill, applied.Ok?)];
      if applied.Ok? {
        portfolio := applied.value;
      }
    }

    /** The open set is a hash map: `order` is the order in which this call happened to visit it. */
    method SyncEverything() returns (results: map<string, OrderStatus>, ghost order: seq<string>)
      requires Wired()
      modifies `openLocal, `portfolio, `booked, machine, broker.Footprint()
      ensures Enumerates(order, old(openLocal).Keys)
      ensures (Desk(), results) == SyncAll(old(Desk()), order)
      ensures Tape() == old(Tape())
    {
      ghost var d0, t0, all := Desk(), Tape(), openLocal.Keys;
      results := map[];
      order := [];
      var ids := openLocal.Keys;
      while ids != {}
        invariant ids <= all && Enumerates(order, all - ids)
        invariant (Desk(), results) == SyncAll(d0, order)
        invariant Tape() == t0
        decreases ids
      {
        var id :| id in ids;
        VisitOne(order, all, ids, id);
        SyncOneMore(d0, order, id);
        ids := ids - {id};
        order := order + [id];
        var status := SyncExecution(id);
        if status.Some? {
          results := results[id := status.value];
        }
      }
    }

    /** Restart recovery: reconcile the pending orders, rebuild the portfolio, reopen what still works. */
    method RecoverPending(pending: map<string, string>)
      returns (results: map<string, OrderStatus>, ghost order: seq<string>)
      requires Wired()
      modifies `openLocal, `portfolio, `booked, machine, broker.Footprint()
      ensures Enumerates(order, pending.Keys)
      ensures (Desk(), results) == Recover(old(Desk()), pending, order)
      ensures Tape() == old(Tape())
    {
      ghost var d, tape := Desk(), Tape();
      var answer;
      answer, order := reconciler.ReconcileAll(machine, pending);
      ghost var batch := ReconcilePending(d.exec.machine, d.exec.venue, pending, order);
      assert Desk() == WithMachine(d, batch.machine, batch.venue) && Tape() == tape;
      results := if answer.Ok? then answer.value else map[];
      RebuildPortfolio();
      ReopenWorking(pending, results);
    }

    method ReopenWorking(pending: map<string, string>, results: map<string, OrderStatus>)
      modifies `openLocal
      ensures openLocal == old(openLocal) + Reopened(pending, results)
      ensures Tape() == old(Tape())
    {
      var ids := results.Keys;
      ghost var done := {};
      while ids != {}
        invariant ids + done == results.Keys && ids !! done
        invariant forall id :: id in openLocal <==>
          id in old(openLocal) || (id in done && id in Reopened(pending, results))
        invariant forall id :: id in openLocal ==>
          openLocal[id] == if id in done && id in Reopened(pending, results) then pending[id] else old(openLocal)[id]
        decreases ids
      {
        var id :| id in ids;
        if Working(results[id]) && id in pending {
          openLocal := openLocal[id := pending[id]];
        }
        ids, done := ids - {id}, done + {id};
      }
    }

    method RebuildPortfolio()
      requires Wired()
      modifies `portfolio, broker.Footprint()
      ensures Desk() == Rebuild(old(Desk()))
      ensures Tape() == old(Tape())
    {
      var answer := broker.Positions();
      if answer.Err? {
        return;
      }
      var positions := answer.value;
      var next := EMPTY;
      for i := 0 to |positions|
        invariant next == Restored(EMPTY, positions[..i])
      {
        assert positions[..i + 1][..i] == positions[..i];
        if positions[i].quantity == 0 {
          continue;
        }
        var fill := Fill("restore", positions[i].symbol, Buy, positions[i].quantity, positions[i].averagePrice);
        var restored := ApplyFill(next, fill);
        if restored.Ok? {
          next := restored.value;
        }
      }
      assert positions[..|positions|] == positions;
      portfolio := next;
    }
  }
}
