/** What stands between a strategy and the broker in a decision cycle. */
module Safeguards {
  import opened Types
  import opened Portfolios
  import opened Orders
  import opened Brokers
  import opened Gateways
  import opened Risk
  import opened Runtimes
  import Lifecycle

  /** While the kill switch is on, a cycle sends nothing: only sequence numbers are used up. */
  lemma {:induction false} KillSwitchBlocksCycles(
    c: Config, d: Desk, intents: seq<OrderIntent>, quotes: map<Symbol, Quote>)
    requires forall n: nat :: d.orderSeq < n <= d.orderSeq + |intents| ==> c.killed(n)
    ensures Cycle(c, d, intents, quotes) == (d.(orderSeq := d.orderSeq + |intents|), [])
    decreases |intents|
  {
    if intents != [] {
      KillSwitchBlocksCycles(c, d, intents[..|intents| - 1], quotes);
    }
  }

  // ---- What the checks let through ----

  /** On a fresh quote and within the notional. */
  ghost predicate Cleared(c: Config, quotes: map<Symbol, Quote>, order: Order, n: nat) {
    && order.symbol in quotes
    && c.clock(n) - quotes[order.symbol].timestamp <= c.limits.staleQuoteMaxAge
    && OrderNotional(order, quotes[order.symbol]) <= c.limits.maxOrderNotional
  }

  /** Within the limits on positions, exposure and losses of the portfolio it is checked against. */
  ghost predicate Affordable(c: Config, quotes: map<Symbol, Quote>, p: Portfolio, order: Order)
    requires order.symbol in quotes
  {
    && TotalRealizedPnl(p) >= -c.limits.dailyLossLimit
    && (order.side.Buy? ==>
         && Held(p, order.symbol) + order.quantity <= c.limits.maxPositionQuantity
         && GrossExposure(p, quotes) + OrderNotional(order, quotes[order.symbol]) <= c.limits.maxGrossExposure)
  }

  /** The ordered checks accept exactly the orders that keep every limit, the kill switch being off. */
  lemma ChecksExactly(c: Config, quotes: map<Symbol, Quote>, p: Portfolio, order: Order, n: nat)
    ensures CheckOrder(c.limits, c.killed(n), c.clock(n), order, p, quotes).Ok?
      <==> !c.killed(n) && Cleared(c, quotes, order, n) && Affordable(c, quotes, p, order)
  {
  }

  /** Order number `n` of a cycle that starts at `d`: well-shaped, within the limits, and new to the gateway. */
  ghost predicate LetThrough(c: Config, d: Desk, quotes: map<Symbol, Quote>, it: OrderIntent, n: nat) {
    var order := NewOrder(ClientId(c.prefix, n), it);
    && order.Ok?
    && CheckOrder(c.limits, c.killed(n), c.clock(n), order.value, d.portfolio, quotes).Ok?
    && New(d, order.value)
  }

  ghost function LetThroughAs(
    c: Config, d: Desk, quotes: map<Symbol, Quote>, it: OrderIntent, n: nat): seq<OrderRequest>
  {
    if LetThrough(c, d, quotes, it, n) then [RequestOf(NewOrder(ClientId(c.prefix, n), it).value)] else []
  }

  /** The requests of the intents that are let through, in order. */
  ghost function LetThroughOf(
    c: Config, d: Desk, intents: seq<OrderIntent>, quotes: map<Symbol, Quote>): seq<OrderRequest>
  {
    if intents == [] then []
    else
      LetThroughOf(c, d, intents[..|intents| - 1], quotes)
      + LetThroughAs(c, d, quotes, intents[|intents| - 1], d.orderSeq + |intents|)
  }

  function Requests(sent: seq<Sent>): seq<OrderRequest> {
    seq(|sent|, i requires 0 <= i < |sent| => sent[i].request)
  }

  /** The gateway has seen the same ids of this prefix as before, as far as they are still to come. */
  ghost predicate SameLaterIds(c: Config, d: Desk, e: Desk) {
    forall n: nat :: n > e.orderSeq ==>
      && (ClientId(c.prefix, n) in e.exec.brokerIds <==> ClientId(c.prefix, n) in d.exec.brokerIds)
      && (ClientId(c.prefix, n) in e.exec.machine.statuses <==> ClientId(c.prefix, n) in d.exec.machine.statuses)
  }

  /** `k` sequence numbers later these requests have been sent, and nothing else that a check looks at has changed. */
  ghost predicate Sends(c: Config, d: Desk, e: Desk, k: nat, requests: seq<OrderRequest>) {
    && e.portfolio == d.portfolio && e.orderSeq == d.orderSeq + k && d.exec.sent <= e.exec.sent
    && SameLaterIds(c, d, e)
    && Requests(e.exec.sent) == Requests(d.exec.sent) + requests
  }

  lemma SendsThen(
    c: Config, d: Desk, e: Desk, f: Desk, k: nat, requests: seq<OrderRequest>, n: nat, more: seq<OrderRequest>)
    requires Sends(c, d, e, k, requests) && Sends(c, e, f, n, more)
    ensures Sends(c, d, f, k + n, requests + more)
  {
  }

  /** One intent, whatever the broker answers: its request is sent exactly if it is let through. */
  lemma PlaceSends(c: Config, d: Desk, it: OrderIntent, quotes: map<Symbol, Quote>)
    ensures Sends(c, d, Place(c, d, it, quotes).0, 1, LetThroughAs(c, d, quotes, it, d.orderSeq + 1))
  {
    var n := d.orderSeq + 1;
    if LetThrough(c, d, quotes, it, n) {
      SendSends(d.(orderSeq := n), NewOrder(ClientId(c.prefix, n), it).value);
      LaterIdsStay(c, d, Place(c, d, it, quotes).0, n);
    }
  }

  lemma SendSends(d: Desk, order: Order)
    requires New(d, order)
    ensures var e, id := Send(d, order).0, order.clientOrderId;
      && e.portfolio == d.portfolio && e.orderSeq == d.orderSeq && d.exec.sent <= e.exec.sent
      && Requests(e.exec.sent) == Requests(d.exec.sent) + [RequestOf(order)]
      && d.exec.brokerIds.Keys <= e.exec.brokerIds.Keys <= d.exec.brokerIds.Keys + {id}
      && d.exec.machine.statuses.Keys <= e.exec.machine.statuses.Keys <= d.exec.machine.statuses.Keys + {id}
  {
  }

  lemma LaterIdsStay(c: Config, d: Desk, e: Desk, n: nat)
    requires e.orderSeq == n
    requires d.exec.brokerIds.Keys <= e.exec.brokerIds.Keys <= d.exec.brokerIds.Keys + {ClientId(c.prefix, n)}
    requires d.exec.machine.statuses.Keys <= e.exec.machine.statuses.Keys
      <= d.exec.machine.statuses.Keys + {ClientId(c.prefix, n)}
    ensures SameLaterIds(c, d, e)
  {
    forall k: nat | k > n
      ensures ClientId(c.prefix, k) != ClientId(c.prefix, n)
    {
      if ClientId(c.prefix, k) == ClientId(c.prefix, n) {
        ClientIdInjective(c.prefix, k, c.prefix, n);
      }
    }
  }

  /**
   What a cycle sends is fixed before it starts, whatever the broker answers on the way: the requests of
   exactly those intents that the shape check, the risk checks on the portfolio as it is, and the gateway
   let through, in order.
   */
  lemma {:induction false} CycleSendsExactly(
    c: Config, d: Desk, intents: seq<OrderIntent>, quotes: map<Symbol, Quote>)
    ensures Sends(c, d, Cycle(c, d, intents, quotes).0, |intents|, LetThroughOf(c, d, intents, quotes))
    decreases |intents|
  {
    if intents != [] {
      var n := |intents| - 1;
      var before := Cycle(c, d, intents[..n], quotes).0;
      CycleSendsExactly(c, d, intents[..n], quotes);
      PlaceSends(c, before, intents[n], quotes);
      SameLetThrough(c, d, before, quotes, intents[n]);
      SendsThen(c, d, before, Cycle(c, d, intents, quotes).0, n, LetThroughOf(c, d, intents[..n], quotes),
                1, LetThroughAs(c, before, quotes, intents[n], before.orderSeq + 1));
    }
  }

  lemma SameLetThrough(c: Config, d: Desk, before: Desk, quotes: map<Symbol, Quote>, it: OrderIntent)
    requires before.portfolio == d.portfolio && SameLaterIds(c, d, before)
    ensures var n := before.orderSeq + 1; LetThroughAs(c, before, quotes, it, n) == LetThroughAs(c, d, quotes, it, n)
  {
  }

  /** The request `s` is that of intent `j`, and its order had passed every check. */
  ghost predicate PassedAs(
    c: Config, d: Desk, intents: seq<OrderIntent>, quotes: map<Symbol, Quote>, request: OrderRequest, j: nat)
    requires j < |intents|
  {
    var n := d.orderSeq + 1 + j;
    var order := NewOrder(ClientId(c.prefix, n), intents[j]);
    && order.Ok? && request == RequestOf(order.value)
    && !c.killed(n) && Cleared(c, quotes, order.value, n) && Affordable(c, quotes, d.portfolio, order.value)
  }

  lemma {:induction false} LetThroughPassed(
    c: Config, d: Desk, intents: seq<OrderIntent>, quotes: map<Symbol, Quote>, request: OrderRequest)
    requires request in LetThroughOf(c, d, intents, quotes)
    ensures exists j :: 0 <= j < |intents| && PassedAs(c, d, intents, quotes, request, j)
    decreases |intents|
  {
    var n := |intents| - 1;
    var front := intents[..n];
    if request in LetThroughOf(c, d, front, quotes) {
      LetThroughPassed(c, d, front, quotes, request);
      var j :| 0 <= j < n && PassedAs(c, d, front, quotes, request, j);
      assert front[j] == intents[j];
      assert PassedAs(c, d, intents, quotes, request, j);
    } else {
      var k := d.orderSeq + 1 + n;
      ChecksExactly(c, quotes, d.portfolio, NewOrder(ClientId(c.prefix, k), intents[n]).value, k);
      assert PassedAs(c, d, intents, quotes, request, n);
    }
  }

  /** Every request that reaches the broker in a cycle is that of an intent whose order had passed every check. */
  lemma CycleSendsOnlyPassed(c: Config, d: Desk, intents: seq<OrderIntent>, quotes: map<Symbol, Quote>, i: nat)
    requires |d.exec.sent| <= i < |Cycle(c, d, intents, quotes).0.exec.sent|
    ensures var s := Cycle(c, d, intents, quotes).0.exec.sent[i];
      exists j :: 0 <= j < |intents| && PassedAs(c, d, intents, quotes, s.request, j)
  {
    CycleSendsExactly(c, d, intents, quotes);
    var sent := Cycle(c, d, intents, quotes).0.exec.sent;
    NewRequest(d.exec.sent, sent, LetThroughOf(c, d, intents, quotes), i);
    LetThroughPassed(c, d, intents, quotes, sent[i].request);
  }

  lemma NewRequest(before: seq<Sent>, sent: seq<Sent>, requests: seq<OrderRequest>, i: nat)
    requires Requests(sent) == Requests(before) + requests && |before| <= i < |sent|
    ensures sent[i].request in requests
  {
    assert Requests(sent)[i] == sent[i].request;
    assert |Requests(before)| == |before|;
    assert Requests(sent)[i] == requests[i - |before|];
  }

  // ---- Whole runs ----

  /** Nothing but a decision cycle sends. */
  lemma StepSends(c: Config, r: Runtime, ev: Lifecycle.Event)
    requires Lifecycle.Legal(ev)
    ensures var e := Lifecycle.Step(c, r, ev);
      r.desk.exec.sent <= e.desk.exec.sent && (!ev.Decided? ==> e.desk.exec.sent == r.desk.exec.sent)
  {
    match ev
    case Decided => CycleSendsExactly(c, r.desk, c.strategy(TakeSnapshot(c, r)), r.tape.quotes);
    case SyncedAll(order) => SyncAllSendsNothing(r.desk, order);
    case Recovered(pending, order) => Lifecycle.RecoverEffect(r.desk, pending, order);
    case _ =>
  }

  lemma {:induction false} SyncAllSendsNothing(d: Desk, order: seq<string>)
    ensures SyncAll(d, order).0.exec.sent == d.exec.sent
    decreases |order|
  {
    if order != [] {
      SyncAllSendsNothing(d, order[..|order| - 1]);
    }
  }

  /** Event `k` is a decision cycle, and the request is that of one of its intents, passed as things stood then. */
  ghost predicate SentBy(c: Config, venue: Venue, evs: seq<Lifecycle.Event>, k: nat, request: OrderRequest)
    requires k < |evs| && forall i :: 0 <= i < |evs| ==> Lifecycle.Legal(evs[i])
  {
    var r := Lifecycle.Run(c, venue, evs[..k]);
    var intents := c.strategy(TakeSnapshot(c, r));
    evs[k].Decided? && exists j :: 0 <= j < |intents| && PassedAs(c, r.desk, intents, r.tape.quotes, request, j)
  }

  /** Against every broker, in every run: whatever was sent had passed every check when its cycle ran. */
  lemma {:induction false} EveryRequestPassed(c: Config, venue: Venue, evs: seq<Lifecycle.Event>, i: nat)
    requires forall i :: 0 <= i < |evs| ==> Lifecycle.Legal(evs[i])
    requires i < |Lifecycle.Run(c, venue, evs).desk.exec.sent|
    ensures var request := Lifecycle.Run(c, venue, evs).desk.exec.sent[i].request;
      exists k :: 0 <= k < |evs| && SentBy(c, venue, evs, k, request)
    decreases |evs|
  {
    if evs != [] {
      var n := |evs| - 1;
      var front, request := evs[..n], Lifecycle.Run(c, venue, evs).desk.exec.sent[i].request;
      var r := Lifecycle.Run(c, venue, front);
      StepSends(c, r, evs[n]);
      if i < |r.desk.exec.sent| {
        EveryRequestPassed(c, venue, front, i);
        var k :| 0 <= k < n && SentBy(c, venue, front, k, request);
        assert front[..k] == evs[..k];
        assert SentBy(c, venue, evs, k, request);
      } else {
        CycleSendsOnlyPassed(c, r.desk, c.strategy(TakeSnapshot(c, r)), r.tape.quotes, i);
        assert SentBy(c, venue, evs, n, request);
      }
    }
  }
}
