/** From ticks to what strategies see: the runtime's window holds completed daily closes only. */
module QuoteHistory {
  import opened Types
  import opened Histories
  import opened Aggregators
  import opened TickGroups
  import opened Strategies
  import opened Runtimes
  import opened Simulation

  function FeedTape(c: Config, quotes: seq<Quote>): Tape {
    if quotes == [] then EMPTY_TAPE
    else OnQuote(c, FeedTape(c, quotes[..|quotes| - 1]), quotes[|quotes| - 1])
  }

  function BarCloses(bars: seq<Bar>): seq<real> {
    seq(|bars|, i requires 0 <= i < |bars| => bars[i].close)
  }

  /** The last prices of all the symbol's trading days but the current one. */
  function CompletedCloses(quotes: seq<Quote>, s: Symbol): seq<real>
    requires forall i :: 0 <= i < |Groups(Project(quotes, s))| ==> Groups(Project(quotes, s))[i] != []
  {
    var gs := Groups(Project(quotes, s));
    if gs == [] then []
    else seq(|gs| - 1, i requires 0 <= i < |gs| - 1 => gs[i][|gs[i]| - 1].lastPrice)
  }

  lemma {:induction false} WindowFollowsBars(c: Config, quotes: seq<Quote>, s: Symbol)
    requires c.capacity > 0
    ensures FeedTape(c, quotes).partials == Feed(quotes, s).0
    ensures Closes(FeedTape(c, quotes).window, s) == Tail(BarCloses(Feed(quotes, s).1), c.capacity)
    decreases |quotes|
  {
    if quotes != [] {
      var front, q := quotes[..|quotes| - 1], quotes[|quotes| - 1];
      WindowFollowsBars(c, front, s);
      var bars := Feed(front, s).1;
      var emitted := PushTick(Feed(front, s).0, q).1;
      if emitted.Some? && emitted.value.symbol == s {
        assert BarCloses(bars + [emitted.value]) == BarCloses(bars) + [emitted.value.close];
        TailAppend(BarCloses(bars), c.capacity, emitted.value.close);
      }
    }
  }

  /** For any interleaving: the newest `capacity` closes of completed trading days, never the open one. */
  lemma RuntimeHistory(c: Config, quotes: seq<Quote>, s: Symbol)
    requires c.capacity > 0
    ensures forall i :: 0 <= i < |Groups(Project(quotes, s))| ==> Groups(Project(quotes, s))[i] != []
    ensures Closes(FeedTape(c, quotes).window, s) == Tail(CompletedCloses(quotes, s), c.capacity)
  {
    WindowFollowsBars(c, quotes, s);
    OpenGroup(quotes, s);
    assert BarCloses(Feed(quotes, s).1) == CompletedCloses(quotes, s);
  }

  // ---- What the live strategy is shown ----

  lemma {:induction false} OwnTicks(quotes: seq<Quote>, q: Quote)
    requires q in quotes
    ensures Project(quotes, q.symbol) != []
    decreases |quotes|
  {
    var n := |quotes| - 1;
    if quotes[n].symbol != q.symbol {
      OwnTicks(quotes[..n], q);
    }
  }

  function LastTick(quotes: seq<Quote>, q: Quote): Quote
    requires q in quotes
  {
    OwnTicks(quotes, q);
    Project(quotes, q.symbol)[|Project(quotes, q.symbol)| - 1]
  }

  /** The newest tick of every symbol. */
  function ShownQuotes(quotes: seq<Quote>): map<Symbol, Quote> {
    map q | q in quotes :: q.symbol := LastTick(quotes, q)
  }

  predicate HasCompleted(quotes: seq<Quote>, s: Symbol) {
    |Groups(Project(quotes, s))| >= 2
  }

  /** The last closes of the completed trading days of a symbol. */
  function LastCloses(quotes: seq<Quote>, s: Symbol, capacity: nat): seq<real> {
    GroupsAreMaximalRuns(Project(quotes, s));
    var closes := CompletedCloses(quotes, s);
    closes[if |closes| <= capacity then 0 else |closes| - capacity..]
  }

  function ShownHistory(quotes: seq<Quote>, capacity: nat): Window {
    map q | q in quotes && HasCompleted(quotes, q.symbol) :: q.symbol := LastCloses(quotes, q.symbol, capacity)
  }

  lemma {:induction false} TapeShowsQuotes(c: Config, quotes: seq<Quote>)
    ensures FeedTape(c, quotes).quotes == ShownQuotes(quotes)
    decreases |quotes|
  {
    if quotes != [] {
      var front, q := quotes[..|quotes| - 1], quotes[|quotes| - 1];
      TapeShowsQuotes(c, front);
      assert quotes == front + [q];
      QuotesOneMore(front, q);
    }
  }

  lemma QuotesOneMore(front: seq<Quote>, q: Quote)
    ensures ShownQuotes(front)[q.symbol := q] == ShownQuotes(front + [q])
  {
    var next, after := ShownQuotes(front)[q.symbol := q], ShownQuotes(front + [q]);
    forall s
      ensures s in next <==> s in after
      ensures s in next ==> next[s] == after[s]
    {
      QuotedOneMore(front, q, s);
    }
  }

  predicate Quoted(quotes: seq<Quote>, s: Symbol) {
    exists q :: q in quotes && q.symbol == s
  }

  lemma QuotedOneMore(front: seq<Quote>, q: Quote, s: Symbol)
    ensures Quoted(front + [q], s) <==> Quoted(front, s) || s == q.symbol
    ensures Project(front + [q], s) == Project(front, s) + (if s == q.symbol then [q] else [])
  {
    var all := front + [q];
    assert q in all && all[..|front|] == front;
    if Quoted(front, s) {
      var x :| x in front && x.symbol == s;
      assert x in all;
    }
  }

  lemma {:induction false} WindowHolds(c: Config, quotes: seq<Quote>, s: Symbol)
    ensures s in FeedTape(c, quotes).window <==> Feed(quotes, s).1 != []
    ensures FeedTape(c, quotes).partials == Feed(quotes, s).0
    decreases |quotes|
  {
    if quotes != [] {
      WindowHolds(c, quotes[..|quotes| - 1], s);
    }
  }

  lemma {:induction false} ProjectOfNone(quotes: seq<Quote>, s: Symbol)
    requires !Quoted(quotes, s)
    ensures Project(quotes, s) == []
    decreases |quotes|
  {
    if quotes != [] {
      var n := |quotes| - 1;
      assert quotes == quotes[..n] + [quotes[n]];
      QuotedOneMore(quotes[..n], quotes[n], s);
      ProjectOfNone(quotes[..n], s);
    }
  }

  lemma TapeShowsHistory(c: Config, quotes: seq<Quote>)
    requires c.capacity > 0
    ensures FeedTape(c, quotes).window == ShownHistory(quotes, c.capacity)
  {
    forall s
      ensures s in FeedTape(c, quotes).window <==> s in ShownHistory(quotes, c.capacity)
      ensures s in FeedTape(c, quotes).window ==> FeedTape(c, quotes).window[s] == ShownHistory(quotes, c.capacity)[s]
    {
      WindowHolds(c, quotes, s);
      OpenGroup(quotes, s);
      RuntimeHistory(c, quotes, s);
      if !Quoted(quotes, s) {
        ProjectOfNone(quotes, s);
      }
    }
  }

  /** After any ticks: the newest tick of each symbol, the last closes of its completed days, never the open one. */
  lemma LiveShows(c: Config, quotes: seq<Quote>, desk: Desk)
    requires c.capacity > 0
    ensures TakeSnapshot(c, Runtime(desk, FeedTape(c, quotes)))
         == Snapshot(ShownQuotes(quotes), desk.portfolio.positions, Session(c.prefix), ShownHistory(quotes, c.capacity))
  {
    TapeShowsQuotes(c, quotes);
    TapeShowsHistory(c, quotes);
  }

  // ---- In the replay ----

  function Ticks(evs: seq<SimEvent>): seq<Quote> {
    if evs == [] then []
    else
      var ev := evs[|evs| - 1];
      Ticks(evs[..|evs| - 1]) + (if ev.Ticked? then [ev.quote] else [])
  }

  lemma {:induction false} ReplayTape(c: Config, desk: Desk, evs: seq<SimEvent>)
    ensures SimRun(c, Runtime(desk, EMPTY_TAPE), evs).tape == FeedTape(c, Ticks(evs))
    decreases |evs|
  {
    if evs != [] {
      ReplayTape(c, desk, evs[..|evs| - 1]);
      assert Ticks(evs[..|evs| - 1]) + [] == Ticks(evs[..|evs| - 1]);
    }
  }

  /** At every tick of every replay the strategy is asked on the ticks so far, this one included. */
  lemma ReplayShows(c: Config, desk: Desk, evs: seq<SimEvent>, quote: Quote)
    requires c.capacity > 0
    ensures var r, all := SimRun(c, Runtime(desk, EMPTY_TAPE), evs), Ticks(evs) + [quote];
      var snap := Snapshot(
        ShownQuotes(all), r.desk.portfolio.positions, Session(c.prefix), ShownHistory(all, c.capacity));
      Decided(c, r, quote).desk == Cycle(c, Shown(c, r, quote).desk, c.strategy(snap), ShownQuotes(all)).0
  {
    var r, all := SimRun(c, Runtime(desk, EMPTY_TAPE), evs), Ticks(evs) + [quote];
    ReplayTape(c, desk, evs);
    assert all[..|all| - 1] == Ticks(evs);
    LiveShows(c, all, Shown(c, r, quote).desk);
    TapeShowsQuotes(c, all);
  }
}
