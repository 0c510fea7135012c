/**
 What a strategy is shown in the engine, read off the bars alone: at each bar the newest quote of every
 symbol, that of the bar included, and the newest completed closes, that of the bar excluded.
 */
module EngineViews {
  import opened Types
  import opened Orders
  import opened Brokers
  import opened Histories
  import opened Strategies
  import opened Backtests

  /** The bars of one symbol, in order. */
  function OfSymbol(bars: seq<PriceBar>, s: Symbol): seq<PriceBar> {
    if bars == [] then []
    else
      var last := bars[|bars| - 1];
      OfSymbol(bars[..|bars| - 1], s) + (if last.symbol == s then [last] else [])
  }

  /** Their closes. */
  function ClosesOf(mine: seq<PriceBar>): seq<real> {
    seq(|mine|, i requires 0 <= i < |mine| => mine[i].close)
  }

  /** The last `capacity` closes of one symbol. */
  function LastCloses(bars: seq<PriceBar>, s: Symbol, capacity: nat): seq<real> {
    var closes := ClosesOf(OfSymbol(bars, s));
    closes[if |closes| <= capacity then 0 else |closes| - capacity..]
  }

  function ShownHistory(bars: seq<PriceBar>, capacity: nat): Window {
    map b | b in bars :: b.symbol := LastCloses(bars, b.symbol, capacity)
  }

  lemma {:induction false} OwnBars(bars: seq<PriceBar>, b: PriceBar)
    requires b in bars
    ensures OfSymbol(bars, b.symbol) != []
    decreases |bars|
  {
    var n := |bars| - 1;
    if bars[n].symbol != b.symbol {
      OwnBars(bars[..n], b);
    }
  }

  /** The newest close and its time. */
  function LastQuote(bars: seq<PriceBar>, b: PriceBar): Quote
    requires b in bars
  {
    OwnBars(bars, b);
    var mine := OfSymbol(bars, b.symbol);
    Quote(b.symbol, mine[|mine| - 1].close, mine[|mine| - 1].timestamp)
  }

  function ShownQuotes(bars: seq<PriceBar>): map<Symbol, Quote> {
    map b | b in bars :: b.symbol := LastQuote(bars, b)
  }

  // ---- One more bar ----

  lemma OneMoreClose(closes: seq<real>, close: real, capacity: nat)
    ensures var all := closes + [close];
      all[if |all| <= capacity then 0 else |all| - capacity..]
        == Tail(closes[if |closes| <= capacity then 0 else |closes| - capacity..] + [close], capacity)
  {
  }

  lemma LastClosesOneMore(bars: seq<PriceBar>, bar: PriceBar, capacity: nat)
    ensures LastCloses(bars + [bar], bar.symbol, capacity)
         == Tail(LastCloses(bars, bar.symbol, capacity) + [bar.close], capacity)
  {
    var mine := OfSymbol(bars, bar.symbol);
    assert (bars + [bar])[..|bars|] == bars;
    assert ClosesOf(mine + [bar]) == ClosesOf(mine) + [bar.close];
    OneMoreClose(ClosesOf(mine), bar.close, capacity);
  }

  lemma {:induction false} NoBars(bars: seq<PriceBar>, s: Symbol)
    requires forall b :: b in bars ==> b.symbol != s
    ensures OfSymbol(bars, s) == []
    decreases |bars|
  {
    if bars != [] {
      NoBars(bars[..|bars| - 1], s);
    }
  }

  lemma OthersStay(bars: seq<PriceBar>, bar: PriceBar, s: Symbol)
    requires s != bar.symbol
    ensures OfSymbol(bars + [bar], s) == OfSymbol(bars, s)
  {
    assert (bars + [bar])[..|bars|] == bars;
  }

  lemma HistoryOneMore(bars: seq<PriceBar>, bar: PriceBar, capacity: nat)
    ensures PushClose(ShownHistory(bars, capacity), capacity, bar.symbol, bar.close)
         == ShownHistory(bars + [bar], capacity)
  {
    var next := PushClose(ShownHistory(bars, capacity), capacity, bar.symbol, bar.close);
    var after := ShownHistory(bars + [bar], capacity);
    forall s
      ensures s in next <==> s in after
      ensures s in next ==> next[s] == after[s]
    {
      HistoryOneMoreAt(bars, bar, capacity, s);
    }
  }

  lemma HistoryOneMoreAt(bars: seq<PriceBar>, bar: PriceBar, capacity: nat, s: Symbol)
    ensures var next := PushClose(ShownHistory(bars, capacity), capacity, bar.symbol, bar.close);
      var after := ShownHistory(bars + [bar], capacity);
      (s in next <==> s in after) && Closes(next, s) == Closes(after, s)
  {
    ListedOneMore(bars, bar, s);
    HistoryAt(bars, capacity, s);
    HistoryAt(bars + [bar], capacity, s);
    if s == bar.symbol {
      LastClosesOneMore(bars, bar, capacity);
    } else {
      OthersStay(bars, bar, s);
    }
  }

  lemma HistoryAt(bars: seq<PriceBar>, capacity: nat, s: Symbol)
    ensures s in ShownHistory(bars, capacity) <==> Listed(bars, s)
    ensures Closes(ShownHistory(bars, capacity), s) == LastCloses(bars, s, capacity)
  {
    if !Listed(bars, s) {
      NoBars(bars, s);
    }
  }

  predicate Listed(bars: seq<PriceBar>, s: Symbol) {
    exists b :: b in bars && b.symbol == s
  }

  lemma ListedOneMore(bars: seq<PriceBar>, bar: PriceBar, s: Symbol)
    ensures Listed(bars + [bar], s) <==> Listed(bars, s) || s == bar.symbol
  {
    var all := bars + [bar];
    assert bar in all;
    if Listed(bars, s) {
      var b :| b in bars && b.symbol == s;
      assert b in all;
    }
  }

  lemma QuotesOneMore(bars: seq<PriceBar>, bar: PriceBar)
    ensures ShownQuotes(bars)[bar.symbol := Quote(bar.symbol, bar.close, bar.timestamp)] == ShownQuotes(bars + [bar])
  {
    var next := ShownQuotes(bars)[bar.symbol := Quote(bar.symbol, bar.close, bar.timestamp)];
    var after := ShownQuotes(bars + [bar]);
    assert (bars + [bar])[..|bars|] == bars;
    forall s
      ensures s in next <==> s in after
      ensures s in next ==> next[s] == after[s]
    {
      ListedOneMore(bars, bar, s);
      if s != bar.symbol {
        OthersStay(bars, bar, s);
      }
    }
  }

  /** Intents change neither history nor quotes, and each uses up one order number. */
  lemma {:induction false} IntentsKeepViews(setup: Setup, e: Engine, bar: PriceBar, intents: seq<OrderIntent>)
    ensures var after := OnIntents(setup, e, bar, intents);
      && after.history == e.history && after.quotes == e.quotes
      && (!after.crashed ==> after.orderSeq == e.orderSeq + |intents|)
      && (e.crashed ==> after.crashed)
    decreases |intents|
  {
    if intents != [] {
      var n := |intents| - 1;
      IntentsKeepViews(setup, e, bar, intents[..n]);
      IntentKeepsViews(setup, OnIntents(setup, e, bar, intents[..n]), bar, intents[n]);
    }
  }

  lemma IntentKeepsViews(setup: Setup, e: Engine, bar: PriceBar, it: OrderIntent)
    ensures var after := OnIntent(setup, e, bar, it);
      && after.history == e.history && after.quotes == e.quotes
      && (!after.crashed ==> after.orderSeq == e.orderSeq + 1)
      && (e.crashed ==> after.crashed)
  {
  }

  // ---- Whole runs ----

  ghost predicate Shows(setup: Setup, e: Engine, bars: seq<PriceBar>) {
    e.history == ShownHistory(bars, setup.config.historyCapacity) && e.quotes == ShownQuotes(bars)
  }

  lemma {:induction false} RunShows(setup: Setup, venue: Venue, bars: seq<PriceBar>)
    ensures !Run(setup, venue, bars).crashed ==> Shows(setup, Run(setup, venue, bars), bars)
    decreases |bars|
  {
    if bars != [] {
      var n := |bars| - 1;
      RunShows(setup, venue, bars[..n]);
      FrontAndLast(bars);
      BarShows(setup, Run(setup, venue, bars[..n]), bars[..n], bars[n], bars);
    }
  }

  lemma BarShows(setup: Setup, e: Engine, bars: seq<PriceBar>, bar: PriceBar, all: seq<PriceBar>)
    requires (!e.crashed ==> Shows(setup, e, bars)) && all == bars + [bar]
    ensures !OnBar(setup, e, bar).crashed ==> Shows(setup, OnBar(setup, e, bar), all)
  {
    IntentsKeepViews(setup, Quoted(setup, e, bar), bar, Intents(setup, e, bar));
    HistoryOneMore(bars, bar, setup.config.historyCapacity);
    QuotesOneMore(bars, bar);
  }

  /** The snapshot of bar `i`. */
  ghost function ShownAt(setup: Setup, venue: Venue, bars: seq<PriceBar>, i: nat): Snapshot
    requires i < |bars|
  {
    Snapshot(ShownQuotes(bars[..i + 1]), Run(setup, venue, bars[..i]).portfolio.positions, At(bars[i].timestamp),
             ShownHistory(bars[..i], setup.config.historyCapacity))
  }

  /** The engine at bar `i` before its orders: the state after the bar before, and the quotes with this bar's. */
  ghost function OpenAt(setup: Setup, venue: Venue, bars: seq<PriceBar>, i: nat): Engine
    requires i < |bars|
  {
    var e := Run(setup, venue, bars[..i]);
    e.(venue := if setup.hooked then Hooked(e.venue, bars[i]) else e.venue, quotes := ShownQuotes(bars[..i + 1]))
  }

  /**
   At every bar of every run that gets there, the strategy is asked on the last closes among the bars before
   it and on the newest quotes up to and with it, and the engine tries its intents, all of them.
   */
  lemma EngineShows(setup: Setup, venue: Venue, bars: seq<PriceBar>, i: nat)
    requires i < |bars| && !Run(setup, venue, bars[..i]).crashed
    ensures var intents := setup.strategy(ShownAt(setup, venue, bars, i));
      var traded := OnIntents(setup, OpenAt(setup, venue, bars, i), bars[i], intents);
      var after := Run(setup, venue, bars[..i + 1]);
      && after.portfolio == traded.portfolio && after.cash == traded.cash && after.fills == traded.fills
      && after.venue == traded.venue && after.crashed == traded.crashed
      && (!after.crashed ==> after.orderSeq == Run(setup, venue, bars[..i]).orderSeq + |intents|)
  {
    var e, bar := Run(setup, venue, bars[..i]), bars[i];
    RunShows(setup, venue, bars[..i]);
    QuotesOneMore(bars[..i], bar);
    PrefixGrows(bars, i);
    OneMoreBar(setup, venue, bars, i);
    assert Quoted(setup, e, bar) == OpenAt(setup, venue, bars, i);
    assert View(Quoted(setup, e, bar), bar) == ShownAt(setup, venue, bars, i);
    TradedInto(setup, e, bar);
  }

  lemma TradedInto(setup: Setup, e: Engine, bar: PriceBar)
    requires !e.crashed
    ensures var traded := OnIntents(setup, Quoted(setup, e, bar), bar, Intents(setup, e, bar));
      var after := OnBar(setup, e, bar);
      && after.portfolio == traded.portfolio && after.cash == traded.cash && after.fills == traded.fills
      && after.venue == traded.venue && after.crashed == traded.crashed
      && (!after.crashed ==> after.orderSeq == e.orderSeq + |Intents(setup, e, bar)|)
  {
    IntentsKeepViews(setup, Quoted(setup, e, bar), bar, Intents(setup, e, bar));
  }
}
