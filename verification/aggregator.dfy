/**
 Tick-to-daily-bar aggregation. A bar is emitted only when a tick of another trading date arrives
 for its symbol, earlier or later, or on a flush; the open bar is never visible.
 */
module Aggregators {
  import opened Types

  const DAY := 86400
  const KST_OFFSET := 9 * 3600
  const CLOSE_OFFSET := 6 * 3600 + 1800

  /** The KST calendar date of an instant (seconds since the epoch), as a day number. */
  function KstDate(timestamp: int): int {
    (timestamp + KST_OFFSET) / DAY
  }

  /** 15:30 KST, which is 06:30 UTC, of a date. */
  function CloseInstant(date: int): int {
    date * DAY + CLOSE_OFFSET
  }

  datatype Bar = Bar(
    symbol: Symbol, timestamp: int, open: real, high: real, low: real, close: real, volume: int)

  datatype PartialBar = PartialBar(date: int, open: real, high: real, low: real, close: real)

  type Partials = map<Symbol, PartialBar>

  function Completed(s: Symbol, p: PartialBar): Bar {
    Bar(s, CloseInstant(p.date), p.open, p.high, p.low, p.close, 0)
  }

  function Opened(q: Quote): PartialBar {
    PartialBar(KstDate(q.timestamp), q.lastPrice, q.lastPrice, q.lastPrice, q.lastPrice)
  }

  function Extended(p: PartialBar, price: real): PartialBar {
    PartialBar(p.date, p.open, if price > p.high then price else p.high, if price < p.low then price else p.low, price)
  }

  function PushTick(m: Partials, q: Quote): (Partials, Option<Bar>) {
    if q.symbol !in m then (m[q.symbol := Opened(q)], None)
    else if m[q.symbol].date == KstDate(q.timestamp) then (m[q.symbol := Extended(m[q.symbol], q.lastPrice)], None)
    else (m[q.symbol := Opened(q)], Some(Completed(q.symbol, m[q.symbol])))
  }

  class BarAggregator {
    var inner: map<Symbol, PartialBar>

    constructor ()
      ensures inner == map[]
    {
      inner := map[];
    }

    method Push(quote: Quote) returns (r: Option<Bar>)
      modifies this
      ensures (inner, r) == PushTick(old(inner), quote)
    {
      var date := KstDate(quote.timestamp);
      var price := quote.lastPrice;
      if quote.symbol in inner && inner[quote.symbol].date == date {
        var partial := inner[quote.symbol];
        if price > partial.high {
          partial := partial.(high := price);
        }
        if price < partial.low {
          partial := partial.(low := price);
        }
        partial := partial.(close := price);
        inner := inner[quote.symbol := partial];
        r := None;
      } else if quote.symbol in inner {
        var partial := inner[quote.symbol];
        var completed := Bar(
          quote.symbol, CloseInstant(partial.date), partial.open, partial.high, partial.low, partial.close, 0);
        inner := inner[quote.symbol := PartialBar(date, price, price, price, price)];
        r := Some(completed);
      } else {
        inner := inner[quote.symbol := PartialBar(date, price, price, price, price)];
        r := None;
      }
    }

    /** One bar for each open symbol, in any order; the aggregator is empty afterwards. */
    method Flush() returns (bars: seq<Bar>)
      modifies this
      ensures inner == map[]
      ensures forall i, j :: 0 <= i < j < |bars| ==> bars[i].symbol != bars[j].symbol
      ensures forall b :: b in bars <==> b.symbol in old(inner) && b == Completed(b.symbol, old(inner)[b.symbol])
    {
      bars := [];
      ghost var start := inner;
      while inner != map[]
        invariant inner.Keys <= start.Keys && forall s :: s in inner ==> inner[s] == start[s]
        invariant forall i, j :: 0 <= i < j < |bars| ==> bars[i].symbol != bars[j].symbol
        invariant forall b :: b in bars <==>
          b.symbol in start && b.symbol !in inner && b == Completed(b.symbol, start[b.symbol])
        decreases |inner.Keys|
      {
        var s :| s in inner.Keys;
        bars := bars + [Completed(s, inner[s])];
        inner := inner - {s};
      }
    }
  }
}

/** Bars as maximal same-date runs of a symbol's ticks. */
module TickGroups {
  import opened Types
  import opened Aggregators

  /** Length of the longest same-date prefix. */
  function RunLength(ticks: seq<Quote>): (n: nat)
    requires ticks != []
    ensures 1 <= n <= |ticks|
  {
    if |ticks| > 1 && KstDate(ticks[1].timestamp) == KstDate(ticks[0].timestamp) then 1 + RunLength(ticks[1..])
    else 1
  }

  /** The ticks cut into maximal same-date runs. */
  function Groups(ticks: seq<Quote>): seq<seq<Quote>> {
    if ticks == [] then []
    else
      var n := RunLength(ticks);
      [ticks[..n]] + Groups(ticks[n..])
  }

  function High(g: seq<Quote>): real
    requires g != []
  {
    if |g| == 1 then g[0].lastPrice
    else
      var before := High(g[..|g| - 1]);
      if g[|g| - 1].lastPrice > before then g[|g| - 1].lastPrice else before
  }

  function Low(g: seq<Quote>): real
    requires g != []
  {
    if |g| == 1 then g[0].lastPrice
    else
      var before := Low(g[..|g| - 1]);
      if g[|g| - 1].lastPrice < before then g[|g| - 1].lastPrice else before
  }

  /** `High` and `Low` are the attained extremes of a group. */
  lemma {:induction false} Extremes(g: seq<Quote>)
    requires g != []
    ensures forall i :: 0 <= i < |g| ==> Low(g) <= g[i].lastPrice <= High(g)
    ensures exists i :: 0 <= i < |g| && g[i].lastPrice == High(g)
    ensures exists i :: 0 <= i < |g| && g[i].lastPrice == Low(g)
    decreases |g|
  {
    var n := |g| - 1;
    if n == 0 {
      assert g[0].lastPrice == High(g) == Low(g);
    } else {
      var front := g[..n];
      Extremes(front);
      var h :| 0 <= h < n && front[h].lastPrice == High(front);
      var l :| 0 <= l < n && front[l].lastPrice == Low(front);
      assert g[if g[n].lastPrice > High(front) then n else h].lastPrice == High(g);
      assert g[if g[n].lastPrice < Low(front) then n else l].lastPrice == Low(g);
      forall i | 0 <= i < |g|
        ensures Low(g) <= g[i].lastPrice <= High(g)
      {
        if i < n {
          assert g[i] == front[i];
        }
      }
    }
  }

  /** First, max, min and last price of a group. */
  function PartialOf(g: seq<Quote>): PartialBar
    requires g != []
  {
    PartialBar(KstDate(g[0].timestamp), g[0].lastPrice, High(g), Low(g), g[|g| - 1].lastPrice)
  }

  predicate SameDate(g: seq<Quote>) {
    forall i :: 0 <= i < |g| ==> KstDate(g[i].timestamp) == KstDate(g[0].timestamp)
  }

  function Flatten(groups: seq<seq<Quote>>): seq<Quote> {
    if groups == [] then [] else groups[0] + Flatten(groups[1..])
  }

  lemma {:induction false} RunIsMaximal(ticks: seq<Quote>)
    requires ticks != []
    ensures var n := RunLength(ticks);
      SameDate(ticks[..n]) && (n < |ticks| ==> KstDate(ticks[n].timestamp) != KstDate(ticks[0].timestamp))
    decreases |ticks|
  {
    var n := RunLength(ticks);
    if n > 1 {
      RunIsMaximal(ticks[1..]);
      forall i | 0 <= i < n
        ensures KstDate(ticks[i].timestamp) == KstDate(ticks[0].timestamp)
      {
        if i > 0 {
          assert ticks[i] == ticks[1..][..n - 1][i - 1];
        }
      }
    }
  }

  lemma OneMoreRun(head: seq<Quote>, rest: seq<seq<Quote>>)
    requires head != [] && SameDate(head) && forall i :: 0 <= i < |rest| ==> rest[i] != [] && SameDate(rest[i])
    requires forall i :: 0 < i < |rest| ==> KstDate(rest[i][0].timestamp) != KstDate(rest[i - 1][0].timestamp)
    requires rest != [] ==> KstDate(rest[0][0].timestamp) != KstDate(head[0].timestamp)
    ensures var gs := [head] + rest;
      && Flatten(gs) == head + Flatten(rest)
      && (forall i :: 0 <= i < |gs| ==> gs[i] != [] && SameDate(gs[i]))
      && (forall i :: 0 < i < |gs| ==> KstDate(gs[i][0].timestamp) != KstDate(gs[i - 1][0].timestamp))
  {
    var gs := [head] + rest;
    assert gs[1..] == rest;
    assert forall i :: 0 < i < |gs| ==> gs[i] == rest[i - 1];
  }

  /** The groups are exactly the maximal same-date runs: nothing lost, one date each, neighbours differ. */
  lemma {:induction false} GroupsAreMaximalRuns(ticks: seq<Quote>)
    ensures var gs := Groups(ticks);
      && Flatten(gs) == ticks
      && (forall i :: 0 <= i < |gs| ==> gs[i] != [] && SameDate(gs[i]))
      && (forall i :: 0 < i < |gs| ==> KstDate(gs[i][0].timestamp) != KstDate(gs[i - 1][0].timestamp))
    decreases |ticks|
  {
    if ticks != [] {
      var n := RunLength(ticks);
      var rest := Groups(ticks[n..]);
      RunIsMaximal(ticks);
      GroupsAreMaximalRuns(ticks[n..]);
      if n < |ticks| {
        assert rest[0][0] == ticks[n];
      }
      OneMoreRun(ticks[..n], rest);
      assert ticks[..n] + ticks[n..] == ticks;
    }
  }

  /** The groups after one more tick: it joins the last group, or opens a new one. */
  function Appended(gs: seq<seq<Quote>>, q: Quote, joins: bool): seq<seq<Quote>> {
    if joins && gs != [] then gs[..|gs| - 1] + [gs[|gs| - 1] + [q]] else gs + [[q]]
  }

  predicate Joins(ticks: seq<Quote>, q: Quote) {
    ticks != [] && KstDate(ticks[|ticks| - 1].timestamp) == KstDate(q.timestamp)
  }

  lemma AppendedBehind(head: seq<Quote>, rest: seq<seq<Quote>>, q: Quote, joins: bool)
    requires rest != []
    ensures Appended([head] + rest, q, joins) == [head] + Appended(rest, q, joins)
  {
    var gs := [head] + rest;
    assert gs[|gs| - 1] == rest[|rest| - 1];
    assert gs[..|gs| - 1] == [head] + rest[..|rest| - 1];
  }

  /** A stream that is one run, or one run and a tick of another date. */
  lemma ShortGroups(run: seq<Quote>, q: Quote)
    requires run != [] && RunLength(run) == |run|
    ensures Groups(run) == [run]
    ensures RunLength(run + [q]) == |run| ==> Groups(run + [q]) == [run, [q]]
  {
    var all, n := run + [q], |run|;
    assert run[..n] == run && run[n..] == [];
    if RunLength(all) == n {
      assert all[..n] == run && all[n..] == [q];
      assert [q][1..] == [] && [q][..1] == [q];
      assert Groups([q]) == [[q]];
    }
  }

  lemma {:induction false} AppendTick(ticks: seq<Quote>, q: Quote)
    ensures Groups(ticks + [q]) == Appended(Groups(ticks), q, Joins(ticks, q))
    ensures ticks != [] ==> Groups(ticks) != []
    decreases |ticks|
  {
    var all := ticks + [q];
    if ticks == [] {
      assert all == [q] && [q][1..] == [] && [q][..1] == [q];
    } else {
      var n := RunLength(ticks);
      AppendRun(ticks, q);
      if n < |ticks| {
        AppendTick(ticks[n..], q);
        assert all[..n] == ticks[..n] && all[n..] == ticks[n..] + [q];
        AppendedBehind(ticks[..n], Groups(ticks[n..]), q, Joins(ticks, q));
      } else {
        ShortGroups(ticks, q);
        if Joins(ticks, q) {
          ShortGroups(all, q);
        }
      }
    }
  }

  lemma {:induction false} AppendRun(ticks: seq<Quote>, q: Quote)
    requires ticks != []
    ensures RunLength(ticks + [q]) == if RunLength(ticks) == |ticks|
              && KstDate(ticks[|ticks| - 1].timestamp) == KstDate(q.timestamp)
            then |ticks| + 1 else RunLength(ticks)
    decreases |ticks|
  {
    var all := ticks + [q];
    if |ticks| > 1 {
      assert all[1..] == ticks[1..] + [q];
      AppendRun(ticks[1..], q);
    } else {
      assert all[1..] == [q];
    }
  }

  /** The ticks of one symbol in an interleaved stream. */
  function Project(quotes: seq<Quote>, s: Symbol): seq<Quote> {
    if quotes == [] then []
    else
      var last := quotes[|quotes| - 1];
      Project(quotes[..|quotes| - 1], s) + (if last.symbol == s then [last] else [])
  }

  /** The aggregator after a stream, and the bars it has emitted for one symbol. */
  function Feed(quotes: seq<Quote>, s: Symbol): (Partials, seq<Bar>) {
    if quotes == [] then (map[], [])
    else
      var (m, bars) := Feed(quotes[..|quotes| - 1], s);
      var (next, emitted) := PushTick(m, quotes[|quotes| - 1]);
      (next, if emitted.Some? && emitted.value.symbol == s then bars + [emitted.value] else bars)
  }

  function BarsOf(groups: seq<seq<Quote>>, s: Symbol): seq<Bar>
    requires forall i :: 0 <= i < |groups| ==> groups[i] != []
  {
    seq(|groups|, i requires 0 <= i < |groups| => Completed(s, PartialOf(groups[i])))
  }

  /** What a flush adds for one symbol. */
  function Flushed(m: Partials, s: Symbol): seq<Bar> {
    if s in m then [Completed(s, m[s])] else []
  }

  lemma ExtendPartial(g: seq<Quote>, q: Quote)
    requires g != []
    ensures PartialOf(g + [q]) == Extended(PartialOf(g), q.lastPrice)
  {
    assert (g + [q])[..|g|] == g;
  }

  function OpenBar(m: Partials, s: Symbol): Option<PartialBar> {
    if s in m then Some(m[s]) else None
  }

  /** What the aggregator knows about one symbol: its last group is open, the others were emitted. */
  ghost predicate Grouped(open: Option<PartialBar>, bars: seq<Bar>, ticks: seq<Quote>, s: Symbol) {
    var gs, n := Groups(ticks), |Groups(ticks)| - 1;
    && (forall i :: 0 <= i < |gs| ==> gs[i] != [])
    && (open.Some? <==> ticks != [])
    && (ticks == [] ==> bars == [])
    && (ticks != [] ==>
         && n >= 0
         && KstDate(ticks[|ticks| - 1].timestamp) == open.value.date
         && open.value == PartialOf(gs[n])
         && bars == BarsOf(gs[..n], s))
  }

  lemma JoinGroup(open: PartialBar, bars: seq<Bar>, ticks: seq<Quote>, q: Quote)
    requires Grouped(Some(open), bars, ticks, q.symbol) && open.date == KstDate(q.timestamp)
    ensures Grouped(Some(Extended(open, q.lastPrice)), bars, ticks + [q], q.symbol)
  {
    var gs, n := Groups(ticks), |Groups(ticks)| - 1;
    AppendTick(ticks, q);
    ExtendPartial(gs[n], q);
    assert Groups(ticks + [q])[..n] == gs[..n];
  }

  lemma OpenNewGroup(open: Option<PartialBar>, bars: seq<Bar>, ticks: seq<Quote>, q: Quote)
    requires Grouped(open, bars, ticks, q.symbol) && (open.Some? ==> open.value.date != KstDate(q.timestamp))
    ensures Grouped(Some(Opened(q)), bars + (if open.Some? then [Completed(q.symbol, open.value)] else []),
                    ticks + [q], q.symbol)
  {
    var gs, n, s := Groups(ticks), |Groups(ticks)| - 1, q.symbol;
    AppendTick(ticks, q);
    assert Groups(ticks + [q])[..n + 1] == gs;
    if ticks != [] {
      assert gs == gs[..n] + [gs[n]];
      assert BarsOf(gs, s) == BarsOf(gs[..n], s) + [Completed(s, PartialOf(gs[n]))];
    }
  }

  lemma {:induction false} OpenGroup(quotes: seq<Quote>, s: Symbol)
    ensures Grouped(OpenBar(Feed(quotes, s).0, s), Feed(quotes, s).1, Project(quotes, s), s)
    decreases |quotes|
  {
    if quotes == [] {
      assert Groups(Project(quotes, s)) == [];
    } else {
      var front, q := quotes[..|quotes| - 1], quotes[|quotes| - 1];
      OpenGroup(front, s);
      var (m, bars) := Feed(front, s);
      var ticks, open := Project(front, s), OpenBar(m, s);
      var (next, emitted) := PushTick(m, q);
      if q.symbol != s {
        assert OpenBar(next, s) == open;
        assert Feed(quotes, s) == (next, bars);
        assert Project(quotes, s) == ticks;
      } else if open.Some? && open.value.date == KstDate(q.timestamp) {
        JoinGroup(open.value, bars, ticks, q);
      } else {
        OpenNewGroup(open, bars, ticks, q);
        assert bars + [] == bars;
      }
    }
  }

  /**
   For any interleaving of symbols, the bars emitted for one symbol followed by a flush are its ticks
   grouped into maximal same-date runs.
   */
  lemma TickGrouping(quotes: seq<Quote>, s: Symbol)
    ensures var (m, bars) := Feed(quotes, s);
      var gs := Groups(Project(quotes, s));
      && (forall i :: 0 <= i < |gs| ==> gs[i] != [])
      && bars + Flushed(m, s) == BarsOf(gs, s)
  {
    OpenGroup(quotes, s);
    var gs := Groups(Project(quotes, s));
    if gs != [] {
      assert gs == gs[..|gs| - 1] + [gs[|gs| - 1]];
    }
  }

  // ---- The bars themselves ----

  /** 15:30 in Seoul, nine hours ahead, on the day of the instant `t`. */
  predicate AtClose(stamp: int, t: int) {
    && (stamp + 9 * 3600) / (24 * 3600) == (t + 9 * 3600) / (24 * 3600)
    && (stamp + 9 * 3600) % (24 * 3600) == 15 * 3600 + 30 * 60
  }

  /** First, highest, lowest and last price of the ticks of a day, stamped at its close. */
  ghost predicate IsBarOf(b: Bar, g: seq<Quote>, s: Symbol) {
    && g != [] && b.symbol == s && b.volume == 0
    && b.open == g[0].lastPrice && b.close == g[|g| - 1].lastPrice
    && (forall k :: 0 <= k < |g| ==> b.low <= g[k].lastPrice <= b.high)
    && (exists k :: 0 <= k < |g| && g[k].lastPrice == b.high)
    && (exists k :: 0 <= k < |g| && g[k].lastPrice == b.low)
    && AtClose(b.timestamp, g[0].timestamp)
  }

  lemma CloseIsAtClose(t: int)
    ensures AtClose(CloseInstant(KstDate(t)), t)
  {
  }

  /** Whatever the interleaving: the bars of a symbol, the flushed one last, are those of its same-day runs. */
  lemma EmittedBars(quotes: seq<Quote>, s: Symbol)
    ensures var (m, bars) := Feed(quotes, s);
      var all, gs := bars + Flushed(m, s), Groups(Project(quotes, s));
      |all| == |gs| && forall i :: 0 <= i < |gs| ==> IsBarOf(all[i], gs[i], s)
  {
    var gs := Groups(Project(quotes, s));
    TickGrouping(quotes, s);
    forall i | 0 <= i < |gs|
      ensures IsBarOf(BarsOf(gs, s)[i], gs[i], s)
    {
      Extremes(gs[i]);
      CloseIsAtClose(gs[i][0].timestamp);
    }
  }

  // ---- Bars in order ----

  ghost predicate Chronological(ticks: seq<Quote>) {
    forall i, j :: 0 <= i < j < |ticks| ==> KstDate(ticks[i].timestamp) <= KstDate(ticks[j].timestamp)
  }

  function DateOf(g: seq<Quote>): int
    requires g != []
  {
    KstDate(g[0].timestamp)
  }

  ghost predicate DatesIncrease(gs: seq<seq<Quote>>) {
    && (forall i :: 0 <= i < |gs| ==> gs[i] != [])
    && (forall i, j :: 0 <= i < j < |gs| ==> DateOf(gs[i]) < DateOf(gs[j]))
  }

  /** A run in front of ticks of other dates. */
  lemma RunInFront(ticks: seq<Quote>, n: nat)
    requires 0 < n <= |ticks| && SameDate(ticks[..n])
    requires n < |ticks| ==> KstDate(ticks[n].timestamp) != KstDate(ticks[0].timestamp)
    ensures Chronological(ticks) <==>
      && Chronological(ticks[n..])
      && (n < |ticks| ==> KstDate(ticks[0].timestamp) < KstDate(ticks[n].timestamp))
  {
    var run, rest := ticks[..n], ticks[n..];
    assert forall i :: 0 <= i < n ==> ticks[i] == run[i] && KstDate(ticks[i].timestamp) == KstDate(ticks[0].timestamp);
    assert forall i :: n <= i < |ticks| ==> ticks[i] == rest[i - n];
    if Chronological(ticks) {
      assert forall i, j :: 0 <= i < j < |rest| ==> rest[i] == ticks[i + n] && rest[j] == ticks[j + n];
    }
  }

  lemma {:induction false} GroupsInOrder(ticks: seq<Quote>)
    ensures DatesIncrease(Groups(ticks)) <==> Chronological(ticks)
    decreases |ticks|
  {
    if ticks != [] {
      var n := RunLength(ticks);
      var gs, rest := Groups(ticks), Groups(ticks[n..]);
      RunIsMaximal(ticks);
      RunInFront(ticks, n);
      GroupsInOrder(ticks[n..]);
      GroupsAreMaximalRuns(ticks);
      assert gs[0] == ticks[..n] && forall i :: 0 < i < |gs| ==> gs[i] == rest[i - 1];
      if n < |ticks| {
        assert rest[0] == ticks[n..][..RunLength(ticks[n..])];
        assert DateOf(rest[0]) == KstDate(ticks[n].timestamp) && gs[1] == rest[0];
      }
      FrontIncreases(gs, rest);
    }
  }

  lemma FrontIncreases(gs: seq<seq<Quote>>, rest: seq<seq<Quote>>)
    requires |gs| == |rest| + 1 && (forall i :: 0 < i < |gs| ==> gs[i] == rest[i - 1]) && gs[0] != []
    requires forall i :: 0 <= i < |rest| ==> rest[i] != []
    ensures DatesIncrease(gs) <==> DatesIncrease(rest) && (rest != [] ==> DateOf(gs[0]) < DateOf(rest[0]))
  {
    if DatesIncrease(gs) {
      assert forall i :: 0 <= i < |rest| ==> rest[i] == gs[i + 1];
    }
  }

  ghost predicate StampsIncrease(bars: seq<Bar>) {
    forall i, j :: 0 <= i < j < |bars| ==> bars[i].timestamp < bars[j].timestamp
  }

  /**
   A tick of an earlier date closes a bar too. The bars of a symbol, the flushed one included, have
   strictly increasing timestamps exactly when its ticks never go back to an earlier date.
   */
  lemma BarsInOrderExactly(quotes: seq<Quote>, s: Symbol)
    ensures var (m, bars) := Feed(quotes, s);
      StampsIncrease(bars + Flushed(m, s)) <==> Chronological(Project(quotes, s))
  {
    var gs := Groups(Project(quotes, s));
    TickGrouping(quotes, s);
    GroupsInOrder(Project(quotes, s));
    var bars := BarsOf(gs, s);
    assert forall i :: 0 <= i < |gs| ==> bars[i].timestamp == CloseInstant(DateOf(gs[i]));
    if StampsIncrease(bars) {
      forall i, j | 0 <= i < j < |gs|
        ensures DateOf(gs[i]) < DateOf(gs[j])
      {
        assert bars[i].timestamp < bars[j].timestamp;
      }
    }
  }
}
