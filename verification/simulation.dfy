/**
 The replay loop: price, quote, decide, sync, one bar at a time against the in-memory broker, with
 open orders cancelled at the venue in between. The main theorem is two-book agreement at every tick.
 */
module Simulation {
  import opened Types
  import opened Brokers
  import opened Gateways
  import opened Strategies
  import opened Runtimes
  import opened Agreement

  datatype SimEvent = Ticked(quote: Quote, order: seq<string>) | CancelledAtVenue(brokerId: string)

  function WithVenue(d: Desk, venue: Venue): Desk {
    d.(exec := d.exec.(venue := venue))
  }

  function Priced(v: Venue, symbol: Symbol, price: real): Venue {
    match v
    case MockVenue(b) => MockVenue(b.(prices := b.prices[symbol := price]))
    case OpenVenue(_, _) => v
  }

  function Cancelled(v: Venue, brokerId: string): Venue {
    match v
    case MockVenue(b) => (match MockCancel(b, brokerId) case Ok(next) => MockVenue(next) case Err(_) => v)
    case OpenVenue(_, _) => v
  }

  /** The venue's price and the quote, before the strategy is asked. */
  function Shown(c: Config, r: Runtime, quote: Quote): Runtime {
    Runtime(WithVenue(r.desk, Priced(r.desk.exec.venue, quote.symbol, quote.lastPrice)), OnQuote(c, r.tape, quote))
  }

  /** The first half of a tick: price, quote, and the decision cycle on the new snapshot. */
  ghost function Decided(c: Config, r: Runtime, quote: Quote): Runtime {
    Decide(c, Shown(c, r, quote)).0
  }

  ghost function Tick(c: Config, r: Runtime, quote: Quote, order: seq<string>): Runtime {
    var decided := Decided(c, r, quote);
    decided.(desk := SyncAll(decided.desk, order).0)
  }

  ghost function SimStep(c: Config, r: Runtime, ev: SimEvent): Runtime {
    match ev
    case Ticked(quote, order) => Tick(c, r, quote, order)
    case CancelledAtVenue(id) => r.(desk := WithVenue(r.desk, Cancelled(r.desk.exec.venue, id)))
  }

  ghost function SimRun(c: Config, r: Runtime, evs: seq<SimEvent>): Runtime {
    if evs == [] then r else SimStep(c, SimRun(c, r, evs[..|evs| - 1]), evs[|evs| - 1])
  }

  /** Every sync visits the whole open set, in an order of its own. */
  ghost predicate FullSyncs(c: Config, r: Runtime, evs: seq<SimEvent>) {
    evs == [] ||
    (var n := |evs| - 1;
     var before, ev := SimRun(c, r, evs[..n]), evs[n];
     && FullSyncs(c, r, evs[..n])
     && (ev.Ticked? ==> Enumerates(ev.order, Decided(c, before, ev.quote).desk.openLocal.Keys)))
  }

  // ---- The venue on its own ----

  /** The books agree and nothing is unseen, whatever ids are still to come. */
  ghost predicate Settled(d: Desk) {
    Mid(d) && NothingUnseen(d.openLocal, d.exec.venue.book) && BooksAgree(d.exec.venue.book, d.portfolio)
  }

  lemma SameReportsKeepSettled(d: Desk, b: MockBook)
    requires Settled(d)
    requires b.reports == d.exec.venue.book.reports && b.acks == d.exec.venue.book.acks
    requires b.positions == d.exec.venue.book.positions && b.nextBrokerId == d.exec.venue.book.nextBrokerId
    ensures Settled(WithVenue(d, MockVenue(b)))
  {
    assert forall id :: Unseen(d.openLocal, b, id) == Unseen(d.openLocal, d.exec.venue.book, id);
    assert forall s :: Row(b.positions, s) == Row(d.exec.venue.book.positions, s);
    AgreementIsAhead(d.openLocal, b, d.portfolio);
  }

  lemma SameReportsKeepBoundary(prefix: string, d: Desk, b: MockBook)
    requires Boundary(prefix, d)
    requires b.reports == d.exec.venue.book.reports && b.acks == d.exec.venue.book.acks
    requires b.positions == d.exec.venue.book.positions && b.nextBrokerId == d.exec.venue.book.nextBrokerId
    ensures Boundary(prefix, WithVenue(d, MockVenue(b)))
  {
    SameReportsKeepSettled(d, b);
  }

  lemma CancelKeepsBoundary(prefix: string, d: Desk, brokerId: string)
    requires Boundary(prefix, d)
    ensures Boundary(prefix, WithVenue(d, Cancelled(d.exec.venue, brokerId)))
  {
    var b := d.exec.venue.book;
    if MockCancel(b, brokerId).Ok? {
      var b' := MockCancel(b, brokerId).value;
      assert Untouched(b.reports[brokerId]);
      assert forall id :: Unseen(d.openLocal, b', id) == Unseen(d.openLocal, b, id);
      assert b'.reports.Keys == b.reports.Keys && b'.acks == b.acks;
      assert forall s :: Row(b'.positions, s) == Row(b.positions, s);
      AgreementIsAhead(d.openLocal, b', d.portfolio);
    }
  }

  // ---- Agreement over whole runs ----

  /** In one cycle, a single order on each symbol, or buys alone. */
  ghost predicate CommutingOrders(strategy: Strategy) {
    forall s :: Commuting(strategy(s))
  }

  lemma TickKeepsBoundary(c: Config, r: Runtime, quote: Quote, order: seq<string>)
    requires Boundary(c.prefix, r.desk) && CommutingOrders(c.strategy)
    requires Enumerates(order, Decided(c, r, quote).desk.openLocal.Keys)
    ensures Boundary(c.prefix, Tick(c, r, quote, order).desk)
  {
    var venue := Priced(r.desk.exec.venue, quote.symbol, quote.lastPrice);
    var desk := WithVenue(r.desk, venue);
    SameReportsKeepBoundary(c.prefix, r.desk, venue.book);
    var quoted := Runtime(desk, OnQuote(c, r.tape, quote));
    var intents := c.strategy(TakeSnapshot(c, quoted));
    assert Commuting(intents);
    CycleKeepsMid(c, desk, intents, quoted.tape.quotes);
    FullSyncAgrees(c.prefix, Decided(c, r, quote).desk, order);
  }

  /** Two-book agreement: at every tick boundary of every run, whatever order each sync takes. */
  lemma {:induction false} TwoBookAgreement(c: Config, r: Runtime, evs: seq<SimEvent>)
    requires Boundary(c.prefix, r.desk) && CommutingOrders(c.strategy) && FullSyncs(c, r, evs)
    ensures var d := SimRun(c, r, evs).desk;
      && Boundary(c.prefix, d)
      && BooksAgree(d.exec.venue.book, d.portfolio)
    decreases |evs|
  {
    if evs != [] {
      var n := |evs| - 1;
      TwoBookAgreement(c, r, evs[..n]);
      var before := SimRun(c, r, evs[..n]);
      match evs[n]
      case Ticked(quote, order) => TickKeepsBoundary(c, before, quote, order);
      case CancelledAtVenue(id) => CancelKeepsBoundary(c.prefix, before.desk, id);
    }
  }

  /** A new runtime on an empty mock starts at a boundary. */
  lemma FreshStart(prefix: string)
    ensures Boundary(prefix, FreshDesk(MockVenue(EMPTY_BOOK)))
  {
    var d := FreshDesk(MockVenue(EMPTY_BOOK));
    assert NothingUnseen(d.openLocal, EMPTY_BOOK);
  }
}
