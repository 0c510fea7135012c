/**
 The table of order status changes and the machine that applies it: `Machine` is the value of that
 machine, `StateMachine` the object that is updated in place.
 */
module StateMachines {
  import opened Types

  datatype OrderStatus = Pending | Submitted | PartiallyFilled | Filled | Cancelled | Rejected | Unknown

  predicate Terminal(s: OrderStatus) {
    s.Filled? || s.Cancelled? || s.Rejected?
  }

  predicate Working(s: OrderStatus) {
    s.Submitted? || s.PartiallyFilled?
  }

  function Transitions(from: OrderStatus): seq<OrderStatus> {
    match from
    case Pending => [Submitted, Rejected, Cancelled, Unknown]
    case Submitted => [PartiallyFilled, Filled, Cancelled, Rejected, Unknown]
    case PartiallyFilled => [PartiallyFilled, Filled, Cancelled, Unknown]
    case Unknown => [Submitted, PartiallyFilled, Filled, Cancelled, Rejected]
    case Filled => []
    case Cancelled => []
    case Rejected => []
  }

  predicate CanTransition(from: OrderStatus, to: OrderStatus) {
    to in Transitions(from)
  }

  /** Where a lost answer may leave an order. */
  predicate UnknownEntryAllowedFrom(s: OrderStatus) {
    s.Pending? || s.Submitted?
  }

  /**
   The legal moves: nothing leaves a terminal status or goes back to Pending, only an acknowledged order fills,
   a partly filled one is not rejected, Submitted is entered from Pending or Unknown, and only a partial fill
   repeats.
   */
  lemma LegalMoves(from: OrderStatus, to: OrderStatus)
    ensures CanTransition(from, to) <==>
      && !Terminal(from) && !to.Pending?
      && (to.PartiallyFilled? || to.Filled? ==> !from.Pending?)
      && (to.Rejected? ==> !from.PartiallyFilled?)
      && (to.Submitted? ==> from.Pending? || from.Unknown?)
      && (from == to ==> from.PartiallyFilled?)
  {
  }

  datatype TransitionEvent = TransitionEvent(clientOrderId: string, fromStatus: OrderStatus, toStatus: OrderStatus)

  datatype TransitionError =
    | Illegal(from: OrderStatus, to: OrderStatus)
    | UnknownEntryBlocked(from: OrderStatus)
    | Unregistered
    | AlreadyRegistered

  /** `emitted` is the log of the event callback. */
  datatype Machine = Machine(
    statuses: map<string, OrderStatus>,
    history: map<string, seq<TransitionEvent>>,
    emitted: seq<TransitionEvent>)

  const FRESH := Machine(map[], map[], [])

  function Status(m: Machine, id: string): Option<OrderStatus> {
    if id in m.statuses then Some(m.statuses[id]) else None
  }

  function History(m: Machine, id: string): seq<TransitionEvent> {
    if id in m.history then m.history[id] else []
  }

  function Register(m: Machine, id: string, status: OrderStatus): Result<Machine, TransitionError> {
    if id in m.statuses then Err(AlreadyRegistered)
    else Ok(m.(statuses := m.statuses[id := status], history := m.history[id := History(m, id)]))
  }

  function Transition(m: Machine, id: string, to: OrderStatus): Result<Machine, TransitionError> {
    if id !in m.statuses then Err(Unregistered)
    else if !CanTransition(m.statuses[id], to) then Err(Illegal(m.statuses[id], to))
    else
      var event := TransitionEvent(id, m.statuses[id], to);
      Ok(Machine(m.statuses[id := to], m.history[id := History(m, id) + [event]], m.emitted + [event]))
  }

  function MarkUnknown(m: Machine, id: string): Result<Machine, TransitionError> {
    if id !in m.statuses then Err(Unregistered)
    else if !UnknownEntryAllowedFrom(m.statuses[id]) then Err(UnknownEntryBlocked(m.statuses[id]))
    else Transition(m, id, Unknown)
  }

  /** Only an order whose answer may be outstanding is marked unknown. */
  lemma UnknownEntry(m: Machine, id: string)
    ensures MarkUnknown(m, id).Ok? <==> Status(m, id) == Some(Pending) || Status(m, id) == Some(Submitted)
    ensures MarkUnknown(m, id).Ok? ==> MarkUnknown(m, id).value.statuses == m.statuses[id := Unknown]
  {
  }

  class StateMachine {
    var statuses: map<string, OrderStatus>
    var history: map<string, seq<TransitionEvent>>
    var emitted: seq<TransitionEvent>

    ghost function View(): Machine
      reads this
    {
      Machine(statuses, history, emitted)
    }

    constructor ()
      ensures View() == FRESH
    {
      statuses, history, emitted := map[], map[], [];
    }

    function StatusOf(id: string): (r: Option<OrderStatus>)
      reads this
      ensures r == Status(View(), id)
    {
      if id in statuses then Some(statuses[id]) else None
    }

    method RegisterOrder(id: string, status: OrderStatus) returns (r: Result<(), TransitionError>)
      modifies this
      ensures match Register(old(View()), id, status)
        case Ok(m) => r == Ok(()) && View() == m
        case Err(e) => r == Err(e) && View() == old(View())
    {
      if id in statuses {
        return Err(AlreadyRegistered);
      }
      statuses := statuses[id := status];
      if id !in history {
        history := history[id := []];
      }
      assert history == old(history)[id := History(old(View()), id)];
      r := Ok(());
    }

    method MoveTo(id: string, to: OrderStatus) returns (r: Result<OrderStatus, TransitionError>)
      modifies this
      ensures match Transition(old(View()), id, to)
        case Ok(m) => r == Ok(to) && View() == m
        case Err(e) => r == Err(e) && View() == old(View())
    {
      if id !in statuses {
        return Err(Unregistered);
      }
      var current := statuses[id];
      if !CanTransition(current, to) {
        return Err(Illegal(current, to));
      }
      statuses := statuses[id := to];
      var event := TransitionEvent(id, current, to);
      var past := if id in history then history[id] else [];
      history := history[id := past + [event]];
      emitted := emitted + [event];
      r := Ok(to);
    }

    method MoveToUnknown(id: string) returns (r: Result<OrderStatus, TransitionError>)
      modifies this
      ensures match MarkUnknown(old(View()), id)
        case Ok(m) => r == Ok(Unknown) && View() == m
        case Err(e) => r == Err(e) && View() == old(View())
    {
      if id !in statuses {
        return Err(Unregistered);
      }
      if !UnknownEntryAllowedFrom(statuses[id]) {
        return Err(UnknownEntryBlocked(statuses[id]));
      }
      r := MoveTo(id, Unknown);
    }
  }
}

/** What the event history of one order looks like after any sequence of calls. */
module AuditTrail {
  import opened Types
  import opened StateMachines

  datatype Call =
    | DoRegister(id: string, status: OrderStatus)
    | DoTransition(id: string, to: OrderStatus)
    | DoMarkUnknown(id: string)

  function Perform(m: Machine, c: Call): Result<Machine, TransitionError> {
    match c
    case DoRegister(id, status) => Register(m, id, status)
    case DoTransition(id, to) => Transition(m, id, to)
    case DoMarkUnknown(id) => MarkUnknown(m, id)
  }

  /** A refused call leaves the machine alone. */
  function After(m: Machine, c: Call): Machine {
    match Perform(m, c)
    case Ok(next) => next
    case Err(_) => m
  }

  function Run(calls: seq<Call>): Machine {
    if calls == [] then FRESH
    else After(Run(calls[..|calls| - 1]), calls[|calls| - 1])
  }

  /** A connected path in the transition table. */
  ghost predicate Path(events: seq<TransitionEvent>, start: OrderStatus, end: OrderStatus) {
    if events == [] then start == end
    else
      var last := events[|events| - 1];
      && last.toStatus == end
      && CanTransition(last.fromStatus, last.toStatus)
      && Path(events[..|events| - 1], start, last.fromStatus)
  }

  /** The status an order was registered with: the first registration wins. */
  ghost function RegisteredAs(calls: seq<Call>, id: string): Option<OrderStatus> {
    if calls == [] then None
    else
      var before := RegisteredAs(calls[..|calls| - 1], id);
      var c := calls[|calls| - 1];
      if before.None? && c.DoRegister? && c.id == id then Some(c.status) else before
  }

  /** The calls that moved the order, counted on the results they returned. */
  ghost function SuccessfulMoves(calls: seq<Call>, id: string): nat {
    if calls == [] then 0
    else
      var m, c := Run(calls[..|calls| - 1]), calls[|calls| - 1];
      SuccessfulMoves(calls[..|calls| - 1], id) + (if !c.DoRegister? && c.id == id && Perform(m, c).Ok? then 1 else 0)
  }

  ghost function EventsOf(events: seq<TransitionEvent>, id: string): seq<TransitionEvent> {
    if events == [] then []
    else
      var last := events[|events| - 1];
      EventsOf(events[..|events| - 1], id) + (if last.clientOrderId == id then [last] else [])
  }

  /** What the audit trail owes one order that was registered as `start` and then moved `moves` times. */
  ghost predicate Audited(m: Machine, id: string, start: Option<OrderStatus>, moves: nat) {
    && (id in m.statuses <==> start.Some?)
    && (id in m.history <==> id in m.statuses)
    && (id in m.statuses ==> Path(m.history[id], start.value, m.statuses[id]))
    && |History(m, id)| == moves
    && History(m, id) == EventsOf(m.emitted, id)
  }

  lemma PathExtends(events: seq<TransitionEvent>, start: OrderStatus, event: TransitionEvent)
    requires Path(events, start, event.fromStatus) && CanTransition(event.fromStatus, event.toStatus)
    ensures Path(events + [event], start, event.toStatus)
  {
    assert (events + [event])[..|events|] == events;
  }

  lemma EventsOfAppend(events: seq<TransitionEvent>, event: TransitionEvent, id: string)
    ensures EventsOf(events + [event], id) == EventsOf(events, id) + (if event.clientOrderId == id then [event] else [])
  {
    assert (events + [event])[..|events|] == events;
  }

  lemma MoveKeepsAudit(m: Machine, mover: string, to: OrderStatus, id: string, start: Option<OrderStatus>, moves: nat)
    requires Audited(m, id, start, moves) && Transition(m, mover, to).Ok?
    ensures Audited(Transition(m, mover, to).value, id, start, moves + if mover == id then 1 else 0)
  {
    var event := TransitionEvent(mover, m.statuses[mover], to);
    EventsOfAppend(m.emitted, event, id);
    if mover == id {
      PathExtends(m.history[id], start.value, event);
    }
  }

  /**
   Over any sequence of calls: an order is known exactly when it was registered, its history is a
   path from the registered to the current status, it holds one event per successful move and none
   for a refused one, and it is the callback log restricted to that order.
   */
  lemma {:induction false} AuditChain(calls: seq<Call>, id: string)
    ensures Audited(Run(calls), id, RegisteredAs(calls, id), SuccessfulMoves(calls, id))
    decreases |calls|
  {
    if calls != [] {
      var front, c := calls[..|calls| - 1], calls[|calls| - 1];
      AuditChain(front, id);
      var m := Run(front);
      match c
      case DoRegister(_, _) =>
      case DoTransition(mover, to) =>
        if Transition(m, mover, to).Ok? {
          MoveKeepsAudit(m, mover, to, id, RegisteredAs(front, id), SuccessfulMoves(front, id));
        }
      case DoMarkUnknown(mover) =>
        if MarkUnknown(m, mover).Ok? {
          MoveKeepsAudit(m, mover, Unknown, id, RegisteredAs(front, id), SuccessfulMoves(front, id));
        }
    }
  }

  /** On such a path a terminal status can only be the last one reached. */
  lemma {:induction false} TerminalIsLast(events: seq<TransitionEvent>, start: OrderStatus, end: OrderStatus, k: nat)
    requires Path(events, start, end) && k < |events|
    ensures !Terminal(events[k].fromStatus)
    ensures Terminal(events[k].toStatus) ==> k == |events| - 1 && end == events[k].toStatus
    decreases |events|
  {
    var n := |events| - 1;
    if k < n {
      var front := events[..n];
      TerminalIsLast(front, start, events[n].fromStatus, k);
      assert front[k] == events[k];
    }
  }

  /** Events of any run, through `mark_unknown` or not, respect the table; terminal events close the history. */
  lemma TerminalClosesHistory(calls: seq<Call>, id: string, k: nat)
    requires k < |History(Run(calls), id)|
    ensures var h := History(Run(calls), id);
      && CanTransition(h[k].fromStatus, h[k].toStatus)
      && (Terminal(h[k].toStatus) ==> k == |h| - 1 && Status(Run(calls), id) == Some(h[k].toStatus))
  {
    AuditChain(calls, id);
    var m := Run(calls);
    assert id in m.statuses;
    TerminalIsLast(m.history[id], RegisteredAs(calls, id).value, m.statuses[id], k);
    PathSteps(m.history[id], RegisteredAs(calls, id).value, m.statuses[id], k);
  }

  lemma {:induction false} PathSteps(events: seq<TransitionEvent>, start: OrderStatus, end: OrderStatus, k: nat)
    requires Path(events, start, end) && k < |events|
    ensures CanTransition(events[k].fromStatus, events[k].toStatus)
    ensures events[k].fromStatus == if k == 0 then start else events[k - 1].toStatus
    decreases |events|
  {
    var n := |events| - 1;
    var front := events[..n];
    if k < n {
      PathSteps(front, start, events[n].fromStatus, k);
      assert front[k] == events[k];
      if k > 0 {
        assert front[k - 1] == events[k - 1];
      }
    } else if n > 0 {
      assert front[n - 1] == events[n - 1];
    }
  }
}
