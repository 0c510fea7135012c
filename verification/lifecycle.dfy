/**
 What every run of the runtime keeps, whatever the broker answers: each order reaches the broker at
 most once, a lost answer parks the order in Unknown until a recovery names it, open orders are
 working orders, and each order is booked at most once, after it was filled.
 */
module Lifecycle {
  import opened Types
  import opened Orders
  import opened StateMachines
  import opened Brokers
  import opened Gateways
  import opened Runtimes

  datatype Event =
    | Quoted(quote: Quote)
    | Decided
    | Synced(id: string)
    | SyncedAll(order: seq<string>)
    | Recovered(pending: map<string, string>, order: seq<string>)
    | Outside(venue: Venue)

  ghost predicate Legal(ev: Event) {
    ev.Recovered? ==> Enumerates(ev.order, ev.pending.Keys)
  }

  /** `Outside` is everything the runtime does not do: fills, cancels, price moves, outages. */
  ghost function Step(c: Config, r: Runtime, ev: Event): Runtime
    requires Legal(ev)
  {
    match ev
    case Quoted(q) => r.(tape := OnQuote(c, r.tape, q))
    case Decided => Decide(c, r).0
    case Synced(id) => r.(desk := Sync(r.desk, id).0)
    case SyncedAll(order) => r.(desk := SyncAll(r.desk, order).0)
    case Recovered(pending, order) => r.(desk := Recover(r.desk, pending, order).0)
    case Outside(venue) => r.(desk := r.desk.(exec := r.desk.exec.(venue := venue)))
  }

  ghost function Run(c: Config, venue: Venue, evs: seq<Event>): Runtime
    requires forall i :: 0 <= i < |evs| ==> Legal(evs[i])
  {
    if evs == [] then Runtime(FreshDesk(venue), EMPTY_TAPE)
    else Step(c, Run(c, venue, evs[..|evs| - 1]), evs[|evs| - 1])
  }

  /** The ids handed to a recovery so far. */
  ghost function Named(evs: seq<Event>): set<string> {
    if evs == [] then {}
    else
      var ev := evs[|evs| - 1];
      Named(evs[..|evs| - 1]) + (if ev.Recovered? then ev.pending.Keys else {})
  }

  // ---- The invariant ----

  ghost predicate SentOnce(d: Desk) {
    && (forall i, j :: 0 <= i < j < |d.exec.sent| ==> d.exec.sent[i].id != d.exec.sent[j].id)
    && (forall i :: 0 <= i < |d.exec.sent| ==> d.exec.sent[i].id in d.exec.machine.statuses)
    && d.exec.brokerIds.Keys <= d.exec.machine.statuses.Keys
  }

  /** What the broker's answer to the one submission says about the order's status ever after. */
  ghost predicate Answered(s: Sent, status: OrderStatus, named: set<string>) {
    match s.answer
    case Acknowledged => Working(status) || status.Filled? || status.Cancelled?
    case Definitive => status.Rejected?
    case Lost => status.Unknown? || s.id in named
  }

  ghost predicate Explained(d: Desk, named: set<string>) {
    && (forall i :: 0 <= i < |d.exec.sent| && d.exec.sent[i].id in d.exec.machine.statuses ==>
         Answered(d.exec.sent[i], d.exec.machine.statuses[d.exec.sent[i].id], named))
    && (forall id :: id in d.exec.machine.statuses && id !in named ==>
         exists i :: 0 <= i < |d.exec.sent| && d.exec.sent[i].id == id)
  }

  ghost predicate OpenAreWorking(d: Desk) {
    forall id :: id in d.openLocal ==> id in d.exec.machine.statuses && Working(d.exec.machine.statuses[id])
  }

  ghost predicate BookedOnce(d: Desk) {
    && (forall i, j :: 0 <= i < j < |d.booked| ==> d.booked[i].id != d.booked[j].id)
    && (forall i :: 0 <= i < |d.booked| ==> Status(d.exec.machine, d.booked[i].id) == Some(Filled))
  }

  ghost predicate Inv(d: Desk, named: set<string>) {
    SentOnce(d) && Explained(d, named) && OpenAreWorking(d) && BookedOnce(d)
  }

  // ---- Submission ----

  /** `e` is `d` after one call of the broker's `submit_order` for a new id. */
  ghost predicate SentOne(d: Desk, e: Desk, request: OrderRequest, answer: SubmitAnswer) {
    var id := request.clientOrderId;
    && id !in d.exec.machine.statuses
    && e.exec.machine.statuses == d.exec.machine.statuses[id := Landing(answer)]
    && e.exec.sent == d.exec.sent + [Sent(request, answer)]
    && e.exec.brokerIds.Keys <= d.exec.brokerIds.Keys + {id}
    && e.openLocal.Keys == d.openLocal.Keys + (if answer.Acknowledged? then {id} else {})
    && e.booked == d.booked && e.orderSeq == d.orderSeq
  }

  lemma SendEffect(d: Desk, order: Order)
    ensures var e := Send(d, order).0;
      e == d || exists answer :: SentOne(d, e, RequestOf(order), answer)
  {
    var id, e := order.clientOrderId, Send(d, order).0;
    if !(id in d.exec.brokerIds || id in d.exec.machine.statuses) {
      var answer := Kind(SubmitOrder(d.exec.venue, RequestOf(order)).1);
      assert SentOne(d, e, RequestOf(order), answer);
    }
  }

  lemma SentOneKeeps(d: Desk, e: Desk, request: OrderRequest, answer: SubmitAnswer, named: set<string>)
    requires Inv(d, named) && SentOne(d, e, request, answer)
    ensures Inv(e, named)
  {
    var n, id := |d.exec.sent|, request.clientOrderId;
    assert forall i :: 0 <= i < n ==> e.exec.sent[i] == d.exec.sent[i] && d.exec.sent[i].id != id;
    assert e.exec.sent[n] == Sent(request, answer);
    forall x | x in e.exec.machine.statuses && x !in named
      ensures exists i :: 0 <= i < |e.exec.sent| && e.exec.sent[i].id == x
    {
      if x != id {
        var i :| 0 <= i < n && d.exec.sent[i].id == x;
        assert e.exec.sent[i].id == x;
      }
    }
  }

  lemma SendKeeps(d: Desk, order: Order, named: set<string>)
    requires Inv(d, named)
    ensures Inv(Send(d, order).0, named)
  {
    var e := Send(d, order).0;
    SendEffect(d, order);
    if e != d {
      var answer :| SentOne(d, e, RequestOf(order), answer);
      SentOneKeeps(d, e, RequestOf(order), answer, named);
    }
  }

  // ---- Sync ----

  /** The desk may only differ in the venue and, for `id`, in having reached `status`. */
  ghost predicate Reached(d: Desk, e: Desk, id: string, status: OrderStatus) {
    && e.exec.machine.statuses == d.exec.machine.statuses[id := status]
    && e.exec.sent == d.exec.sent && e.exec.brokerIds == d.exec.brokerIds
    && e.openLocal == d.openLocal && e.booked == d.booked
  }

  lemma SettleKeeps(d: Desk, e: Desk, id: string, brokerId: string, status: OrderStatus, named: set<string>)
    requires Inv(d, named) && id in d.openLocal
    requires Reached(d, e, id, status) && (Working(status) || status.Filled? || status.Cancelled?)
    ensures Inv(Settle(e, id, brokerId, status), named)
  {
    assert forall i :: 0 <= i < |d.booked| ==> d.booked[i].id != id;
    ReachedStaysExplained(d, e, id, status, named);
    SettleBooksOnce(d, e, id, brokerId, status, named);
  }

  lemma ReachedStaysExplained(d: Desk, e: Desk, id: string, status: OrderStatus, named: set<string>)
    requires Inv(d, named) && id in d.openLocal
    requires Reached(d, e, id, status) && (Working(status) || status.Filled? || status.Cancelled?)
    ensures SentOnce(e) && Explained(e, named)
  {
    forall i | 0 <= i < |e.exec.sent|
      ensures Answered(e.exec.sent[i], e.exec.machine.statuses[e.exec.sent[i].id], named)
    {
      assert Answered(d.exec.sent[i], d.exec.machine.statuses[d.exec.sent[i].id], named);
    }
  }

  lemma SettleBooksOnce(d: Desk, e: Desk, id: string, brokerId: string, status: OrderStatus, named: set<string>)
    requires Inv(d, named) && id in d.openLocal && Reached(d, e, id, status)
    requires forall i :: 0 <= i < |d.booked| ==> d.booked[i].id != id
    ensures var f := Settle(e, id, brokerId, status);
      && OpenAreWorking(f) && BookedOnce(f)
      && f.exec.sent == e.exec.sent && f.exec.machine == e.exec.machine && f.exec.brokerIds == e.exec.brokerIds
  {
  }

  lemma SyncKeeps(d: Desk, id: string, named: set<string>)
    requires Inv(d, named)
    ensures Inv(Sync(d, id).0, named)
  {
    if id in d.openLocal {
      var brokerId, status := d.openLocal[id], d.exec.machine.statuses[id];
      var (venue, answer) := ReportOrder(d.exec.venue, brokerId);
      var asked := WithMachine(d, d.exec.machine, venue);
      if answer.Err? || TargetStatus(answer.value) == status {
        SettleKeeps(d, asked, id, brokerId, status, named);
      } else {
        var target := TargetStatus(answer.value);
        match Transition(d.exec.machine, id, target)
        case Err(_) =>
        case Ok(machine) =>
          SettleKeeps(d, WithMachine(d, machine, venue), id, brokerId, target, named);
      }
    }
  }

  // ---- Restart ----

  /** A batch only touches the orders it visits, and of those only the unknown ones. */
  ghost predicate Resolved(m: Machine, after: Machine, ids: set<string>) {
    && m.statuses.Keys <= after.statuses.Keys <= m.statuses.Keys + ids
    && (forall id :: id in m.statuses && (id !in ids || !m.statuses[id].Unknown?) ==>
         after.statuses[id] == m.statuses[id])
  }

  lemma NextResolves(m: Machine, v: Venue, id: string, brokerId: string)
    ensures var step := ReconcileNext(m, v, id, brokerId);
      Resolved(m, step.machine, {id}) && (step.result.Ok? ==> Status(step.machine, id) == Some(step.result.value))
  {
    var known := if id in m.statuses then m else Registered(m, id, Unknown);
    var step := Reconcile(known, v, id, brokerId);
    if known.statuses[id].Unknown? && step.result.Ok? {
      assert step.machine.statuses == known.statuses[id := step.result.value];
    } else {
      assert step.machine == known;
    }
  }

  lemma ResolvedThen(m: Machine, n: Machine, o: Machine, ids: set<string>, id: string)
    requires Resolved(m, n, ids) && Resolved(n, o, {id}) && id in ids
    ensures Resolved(m, o, ids)
  {
  }

  lemma {:induction false} BatchResolves(m: Machine, v: Venue, pending: map<string, string>, order: seq<string>)
    requires forall i, j :: 0 <= i < j < |order| ==> order[i] != order[j]
    requires forall id :: id in order ==> id in pending
    ensures var b := ReconcilePending(m, v, pending, order);
      && Resolved(m, b.machine, pending.Keys)
      && (b.result.Ok? ==> forall id :: id in b.result.value ==>
           id in order && Status(b.machine, id) == Some(b.result.value[id]))
    decreases |order|
  {
    if order != [] {
      var n := |order| - 1;
      BatchResolves(m, v, pending, order[..n]);
      var before := ReconcilePending(m, v, pending, order[..n]);
      if before.result.Ok? {
        NextResolves(before.machine, before.venue, order[n], pending[order[n]]);
        var after := ReconcilePending(m, v, pending, order);
        ResolvedThen(m, before.machine, after.machine, pending.Keys, order[n]);
      }
    }
  }

  lemma ResolvedKeeps(d: Desk, e: Desk, ids: set<string>, named: set<string>)
    requires Inv(d, named) && Resolved(d.exec.machine, e.exec.machine, ids) && ids <= named
    requires e.exec.sent == d.exec.sent && e.booked == d.booked && e.exec.brokerIds == d.exec.brokerIds
    requires forall id :: id in e.openLocal && id !in d.openLocal ==>
      id in e.exec.machine.statuses && Working(e.exec.machine.statuses[id])
    ensures Inv(e, named)
  {
    var before, after := d.exec.machine.statuses, e.exec.machine.statuses;
    forall i | 0 <= i < |e.exec.sent|
      ensures Answered(e.exec.sent[i], after[e.exec.sent[i].id], named)
    {
      assert Answered(d.exec.sent[i], before[d.exec.sent[i].id], named);
    }
    assert forall i :: 0 <= i < |d.booked| ==> after[d.booked[i].id] == before[d.booked[i].id];
  }

  lemma RecoverEffect(d: Desk, pending: map<string, string>, order: seq<string>)
    requires Enumerates(order, pending.Keys)
    ensures var e := Recover(d, pending, order).0;
      && Resolved(d.exec.machine, e.exec.machine, pending.Keys)
      && e.exec.sent == d.exec.sent && e.booked == d.booked && e.exec.brokerIds == d.exec.brokerIds
      && (forall id :: id in d.openLocal ==> id in e.openLocal)
      && (forall id :: id in e.openLocal && id !in d.openLocal ==>
           id in e.exec.machine.statuses && Working(e.exec.machine.statuses[id]))
  {
    BatchResolves(d.exec.machine, d.exec.venue, pending, order);
    var batch := ReconcilePending(d.exec.machine, d.exec.venue, pending, order);
    assert Recover(d, pending, order).0.exec.machine == batch.machine;
  }

  lemma RecoverKeeps(d: Desk, pending: map<string, string>, order: seq<string>, named: set<string>)
    requires Inv(d, named) && Enumerates(order, pending.Keys)
    ensures Inv(Recover(d, pending, order).0, named + pending.Keys)
  {
    RecoverEffect(d, pending, order);
    assert Inv(d, named + pending.Keys);
    ResolvedKeeps(d, Recover(d, pending, order).0, pending.Keys, named + pending.Keys);
  }

  // ---- Unknown ----

  ghost predicate Stuck(d: Desk, id: string) {
    Status(d.exec.machine, id) == Some(Unknown)
  }

  lemma {:induction false} CycleStays(
    c: Config, d: Desk, intents: seq<OrderIntent>, quotes: map<Symbol, Quote>, id: string)
    requires Stuck(d, id)
    ensures Stuck(Cycle(c, d, intents, quotes).0, id)
    decreases |intents|
  {
    if intents != [] {
      var n := |intents| - 1;
      CycleStays(c, d, intents[..n], quotes, id);
      PlaceStays(c, Cycle(c, d, intents[..n], quotes).0, intents[n], quotes, id);
    }
  }

  lemma PlaceStays(c: Config, d: Desk, intent: OrderIntent, quotes: map<Symbol, Quote>, id: string)
    requires Stuck(d, id)
    ensures Stuck(Place(c, d, intent, quotes).0, id)
  {
    var order := NewOrder(NextId(c, d), intent);
    if order.Ok? {
      SendEffect(d.(orderSeq := d.orderSeq + 1), order.value);
    }
  }

  lemma SyncStays(d: Desk, other: string, id: string, named: set<string>)
    requires Inv(d, named) && Stuck(d, id)
    ensures Stuck(Sync(d, other).0, id)
  {
  }

  lemma {:induction false} SyncAllStays(d: Desk, order: seq<string>, id: string, named: set<string>)
    requires Inv(d, named) && Stuck(d, id)
    ensures Stuck(SyncAll(d, order).0, id)
    decreases |order|
  {
    if order != [] {
      var n := |order| - 1;
      SyncAllStays(d, order[..n], id, named);
      SyncAllKeeps(d, order[..n], named);
      SyncStays(SyncAll(d, order[..n]).0, order[n], id, named);
    }
  }

  /** In every reachable state, an order leaves Unknown only in a recovery that names it. */
  lemma UnknownNeedsReconcile(c: Config, venue: Venue, evs: seq<Event>, ev: Event, id: string)
    requires (forall i :: 0 <= i < |evs| ==> Legal(evs[i])) && Legal(ev)
    requires Stuck(Run(c, venue, evs).desk, id)
    ensures Stuck(Step(c, Run(c, venue, evs), ev).desk, id) || (ev.Recovered? && id in ev.pending)
  {
    EveryRun(c, venue, evs);
    var r := Run(c, venue, evs);
    match ev
    case Quoted(_) =>
    case Decided => CycleStays(c, r.desk, c.strategy(TakeSnapshot(c, r)), r.tape.quotes, id);
    case Synced(other) => SyncStays(r.desk, other, id, Named(evs));
    case SyncedAll(order) => SyncAllStays(r.desk, order, id, Named(evs));
    case Recovered(pending, order) => RecoverEffect(r.desk, pending, order);
    case Outside(_) =>
  }

  // ---- Whole runs ----

  lemma {:induction false} CycleKeeps(
    c: Config, d: Desk, intents: seq<OrderIntent>, quotes: map<Symbol, Quote>, named: set<string>)
    requires Inv(d, named)
    ensures Inv(Cycle(c, d, intents, quotes).0, named)
    decreases |intents|
  {
    if intents != [] {
      var n := |intents| - 1;
      CycleKeeps(c, d, intents[..n], quotes, named);
      var before := Cycle(c, d, intents[..n], quotes).0;
      var next := before.(orderSeq := before.orderSeq + 1);
      assert Inv(next, named);
      var order := NewOrder(NextId(c, before), intents[n]);
      if order.Ok? {
        SendKeeps(next, order.value, named);
      }
    }
  }

  lemma {:induction false} SyncAllKeeps(d: Desk, order: seq<string>, named: set<string>)
    requires Inv(d, named)
    ensures Inv(SyncAll(d, order).0, named)
    decreases |order|
  {
    if order != [] {
      var n := |order| - 1;
      SyncAllKeeps(d, order[..n], named);
      SyncKeeps(SyncAll(d, order[..n]).0, order[n], named);
    }
  }

  /** Every run keeps the invariant, against every broker. */
  lemma {:induction false} EveryRun(c: Config, venue: Venue, evs: seq<Event>)
    requires forall i :: 0 <= i < |evs| ==> Legal(evs[i])
    ensures Inv(Run(c, venue, evs).desk, Named(evs))
    decreases |evs|
  {
    if evs != [] {
      var front, ev := evs[..|evs| - 1], evs[|evs| - 1];
      EveryRun(c, venue, front);
      StepKeeps(c, Run(c, venue, front), ev, Named(front));
    }
  }

  lemma StepKeeps(c: Config, r: Runtime, ev: Event, named: set<string>)
    requires Inv(r.desk, named) && Legal(ev)
    ensures Inv(Step(c, r, ev).desk, named + if ev.Recovered? then ev.pending.Keys else {})
  {
    assert named + {} == named;
    match ev
    case Quoted(_) =>
    case Decided => CycleKeeps(c, r.desk, c.strategy(TakeSnapshot(c, r)), r.tape.quotes, named);
    case Synced(id) => SyncKeeps(r.desk, id, named);
    case SyncedAll(order) => SyncAllKeeps(r.desk, order, named);
    case Recovered(pending, order) => RecoverKeeps(r.desk, pending, order, named);
    case Outside(venue) => OutsideKeeps(r.desk, venue, named);
  }

  lemma OutsideKeeps(d: Desk, venue: Venue, named: set<string>)
    requires Inv(d, named)
    ensures Inv(d.(exec := d.exec.(venue := venue)), named)
  {
  }

  /** At-most-once submission, and what a lost or definitive answer can lead to. */
  lemma AtMostOnceSubmission(c: Config, venue: Venue, evs: seq<Event>, i: nat)
    requires forall k :: 0 <= k < |evs| ==> Legal(evs[k])
    requires i < |Run(c, venue, evs).desk.exec.sent|
    ensures var exec := Run(c, venue, evs).desk.exec;
      var id := exec.sent[i].id;
      && (forall j :: 0 <= j < |exec.sent| && exec.sent[j].id == id ==> j == i)
      && id in exec.machine.statuses
      && (exec.sent[i].answer.Lost? && id !in Named(evs) ==> exec.machine.statuses[id].Unknown?)
      && (exec.machine.statuses[id].Rejected? ==> exec.sent[i].answer.Definitive? || id in Named(evs))
      && (exec.machine.statuses[id].Unknown? ==> exec.sent[i].answer.Lost?)
  {
    EveryRun(c, venue, evs);
    var exec := Run(c, venue, evs).desk.exec;
    assert Answered(exec.sent[i], exec.machine.statuses[exec.sent[i].id], Named(evs));
  }

  /** Exactly-once booking: open orders are working, and an order is booked once, when Filled, for good. */
  lemma ExactlyOnceBooking(c: Config, venue: Venue, evs: seq<Event>, i: nat)
    requires forall k :: 0 <= k < |evs| ==> Legal(evs[k])
    requires i < |Run(c, venue, evs).desk.booked|
    ensures var d := Run(c, venue, evs).desk;
      var id := d.booked[i].id;
      && (forall j :: 0 <= j < |d.booked| && d.booked[j].id == id ==> j == i)
      && Status(d.exec.machine, id) == Some(Filled)
      && id !in d.openLocal
  {
    EveryRun(c, venue, evs);
  }
}
