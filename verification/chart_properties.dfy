/** When the splitter brings in every bar of an honest venue, and when it cannot. */
module ChartProperties {
  import opened Types
  import opened Sorting
  import opened Aggregators
  import opened Charts

  // ---- An honest venue ----

  /** At most one bar per day, stamped with the day's close. */
  type Ledger = map<int, DailyBar>

  ghost predicate WellStamped(book: Ledger) {
    forall d :: d in book ==> book[d].timestamp == CloseInstant(d)
  }

  function DaysIn(book: Ledger, start: int, end: int): set<int> {
    set d | d in book && start <= d <= end
  }

  /** The rows of a page: the newest `limit` of the days in range, in any order, repetitions allowed. */
  ghost predicate Shows(list: seq<DailyBar>, book: Ledger, shown: set<int>) {
    && shown <= book.Keys
    && forall b :: b in list <==> exists d :: d in shown && b == book[d]
  }

  ghost predicate NewestDays(book: Ledger, start: int, end: int, limit: nat, shown: set<int>) {
    var days := DaysIn(book, start, end);
    && shown <= days
    && |shown| == Min(limit, |days|)
    && (forall d, x :: d in shown && x in days - shown ==> x < d)
  }

  ghost predicate HonestPage(list: seq<DailyBar>, book: Ledger, start: int, end: int, limit: nat) {
    exists shown :: NewestDays(book, start, end, limit, shown) && Shows(list, book, shown)
  }

  ghost predicate Honest(rows: Rows, book: Ledger, limit: nat) {
    && WellStamped(book)
    && forall start, end :: rows(start, end).Ok? && HonestPage(rows(start, end).value, book, start, end, limit)
  }

  // ---- Sorting and deduplicating ----

  ghost predicate Increasing(bars: seq<DailyBar>) {
    forall i, j :: 0 <= i < j < |bars| ==> bars[i].timestamp < bars[j].timestamp
  }

  /** Bars of one ledger: equal stamps mean equal bars. */
  ghost predicate FromLedger(bars: seq<DailyBar>, book: Ledger) {
    forall b :: b in bars ==> exists d :: d in book && b == book[d]
  }

  lemma SameStampSameBar(bars: seq<DailyBar>, book: Ledger, i: nat, j: nat)
    requires WellStamped(book) && FromLedger(bars, book)
    requires i < |bars| && j < |bars| && bars[i].timestamp == bars[j].timestamp
    ensures bars[i] == bars[j]
  {
    assert bars[i] in bars && bars[j] in bars;
    var d :| d in book && bars[i] == book[d];
    var e :| e in book && bars[j] == book[e];
    assert CloseInstant(d) == CloseInstant(e);
  }

  lemma AppendIncreasing(kept: seq<DailyBar>, last: DailyBar)
    requires Increasing(kept) && (kept != [] ==> kept[|kept| - 1].timestamp < last.timestamp)
    ensures Increasing(kept + [last])
  {
  }

  /** Dropping repeated stamps keeps every bar, and the last one last. */
  lemma {:induction false} DedupKeeps(bars: seq<DailyBar>, book: Ledger)
    requires WellStamped(book) && FromLedger(bars, book)
    ensures forall b :: b in Dedup(bars) <==> b in bars
    ensures bars != [] ==> Dedup(bars) != [] && Dedup(bars)[|Dedup(bars)| - 1] == bars[|bars| - 1]
    decreases |bars|
  {
    if bars != [] {
      var n := |bars| - 1;
      var front := bars[..n];
      assert bars == front + [bars[n]];
      FrontFromLedger(bars, book);
      DedupKeeps(front, book);
      if n > 0 && bars[n - 1].timestamp == bars[n].timestamp {
        SameStampSameBar(bars, book, n - 1, n);
      }
    }
  }

  lemma FrontFromLedger(bars: seq<DailyBar>, book: Ledger)
    requires bars != [] && FromLedger(bars, book)
    ensures FromLedger(bars[..|bars| - 1], book)
  {
    var front := bars[..|bars| - 1];
    assert bars == front + [bars[|bars| - 1]];
    assert forall b :: b in front ==> b in bars;
  }

  lemma {:induction false} DedupIncreases(bars: seq<DailyBar>, book: Ledger)
    requires Ascending(bars, BarTime) && WellStamped(book) && FromLedger(bars, book)
    ensures Increasing(Dedup(bars))
    decreases |bars|
  {
    if bars != [] {
      var n := |bars| - 1;
      FrontFromLedger(bars, book);
      DedupKeeps(bars[..n], book);
      DedupIncreases(bars[..n], book);
      if n > 0 && bars[n - 1].timestamp != bars[n].timestamp {
        assert BarTime(bars[n - 1]) <= BarTime(bars[n]);
        AppendIncreasing(Dedup(bars[..n]), bars[n]);
      }
    }
  }

  /** Sorted and deduplicated: strictly increasing, with the same bars. */
  lemma Tidied(bars: seq<DailyBar>, book: Ledger)
    requires WellStamped(book) && FromLedger(bars, book)
    ensures var tidy := Dedup(SortBy(bars, BarTime));
      Increasing(tidy) && (forall b :: b in tidy <==> b in bars)
  {
    SortFacts(bars, BarTime);
    var sorted := SortBy(bars, BarTime);
    assert forall b :: b in sorted <==> b in multiset(sorted);
    assert forall b :: b in bars <==> b in multiset(bars);
    DedupKeeps(sorted, book);
    DedupIncreases(sorted, book);
  }

  lemma {:induction false} RetainFacts(bars: seq<DailyBar>, from: int, to: int)
    requires Increasing(bars)
    ensures Increasing(Retain(bars, from, to))
    ensures forall b :: b in Retain(bars, from, to) <==> b in bars && from <= b.timestamp <= to
    decreases |bars|
  {
    if bars != [] {
      var n := |bars| - 1;
      RetainFacts(bars[..n], from, to);
      assert bars == bars[..n] + [bars[n]];
      var kept := Retain(bars[..n], from, to);
      forall b | b in kept
        ensures b.timestamp < bars[n].timestamp
      {
        assert b in bars[..n];
      }
    }
  }

  // ---- Pages ----

  lemma {:induction false} CountDays(tidy: seq<DailyBar>, book: Ledger, shown: set<int>)
    requires WellStamped(book) && Increasing(tidy) && Shows(tidy, book, shown)
    ensures |tidy| == |shown|
    decreases |tidy|
  {
    if tidy == [] {
      assert forall d :: d in shown ==> book[d] in tidy;
      assert shown == {};
    } else {
      var n := |tidy| - 1;
      assert tidy[n] in tidy;
      var last :| last in shown && tidy[n] == book[last];
      var front := tidy[..n];
      assert tidy == front + [tidy[n]];
      forall b
        ensures b in front <==> exists d :: d in shown - {last} && b == book[d]
      {
        if b in front {
          assert b in tidy && b.timestamp < tidy[n].timestamp;
          var d :| d in shown && b == book[d];
          assert d in shown - {last};
        }
        if d :| d in shown - {last} && b == book[d] {
          assert b in tidy && b.timestamp != tidy[n].timestamp;
        }
      }
      CountDays(front, book, shown - {last});
    }
  }

  /** A fetched page lists the newest days of its window, one bar each. */
  lemma PageFacts(rows: Rows, book: Ledger, limit: nat, start: int, end: int) returns (shown: set<int>)
    requires Honest(rows, book, limit)
    ensures FetchPage(rows, start, end).Ok?
    ensures NewestDays(book, start, end, limit, shown)
    ensures Shows(FetchPage(rows, start, end).value, book, shown)
    ensures |FetchPage(rows, start, end).value| == |shown|
  {
    var list := rows(start, end).value;
    assert HonestPage(list, book, start, end, limit);
    shown :| NewestDays(book, start, end, limit, shown) && Shows(list, book, shown);
    forall b | b in list
      ensures exists d :: d in book && b == book[d]
    {
      var d :| d in shown && b == book[d];
      assert d in book;
    }
    Tidied(list, book);
    CountDays(FetchPage(rows, start, end).value, book, shown);
  }

  lemma {:induction false} DaysFit(book: Ledger, start: int, end: int)
    ensures |DaysIn(book, start, end)| <= if start <= end then end - start + 1 else 0
    decreases end - start
  {
    if start > end {
      assert DaysIn(book, start, end) == {};
    } else {
      DaysFit(book, start, end - 1);
      assert DaysIn(book, start, end) <= DaysIn(book, start, end - 1) + {end};
      SubsetSize(DaysIn(book, start, end), DaysIn(book, start, end - 1) + {end});
    }
  }

  lemma SubsetSize(a: set<int>, b: set<int>)
    requires a <= b
    ensures |b| == |a| + |b - a|
  {
    var rest := b - a;
    assert b == a + rest;
  }

  lemma SameSizeSubset(a: set<int>, b: set<int>)
    requires a <= b && |a| == |b|
    ensures a == b
  {
    SubsetSize(a, b);
    assert b - a == {};
  }

  // ---- Completeness ----

  ghost function Pow2(n: nat): nat {
    if n == 0 then 1 else 2 * Pow2(n - 1)
  }

  predicate Covers(pending: seq<Span>, d: int) {
    exists k :: 0 <= k < |pending| && pending[k].start <= d <= pending[k].end
  }

  /** Windows short enough for the splits they have left. */
  ghost predicate Fits(c: Splitter, w: Span) {
    w.start <= w.end && w.depth <= c.maxDepth && w.end - w.start + 1 <= c.pageLimit * Pow2(c.maxDepth - w.depth)
  }

  lemma HalvesFit(c: Splitter, w: Span)
    requires Fits(c, w) && w.depth < c.maxDepth && w.start < w.end
    ensures Fits(c, LowerHalf(w)) && Fits(c, UpperHalf(w))
  {
    var p := Pow2(c.maxDepth - w.depth - 1);
    assert Pow2(c.maxDepth - w.depth) == 2 * p;
    assert c.pageLimit * (2 * p) == 2 * (c.pageLimit * p);
  }

  lemma SplitCovers(rest: seq<Span>, w: Span, d: int)
    requires w.start < w.end
    ensures Covers(rest + [LowerHalf(w), UpperHalf(w)], d) <==> Covers(rest + [w], d)
  {
    var split, whole, n := rest + [LowerHalf(w), UpperHalf(w)], rest + [w], |rest|;
    if Covers(split, d) {
      var k :| 0 <= k < |split| && split[k].start <= d <= split[k].end;
      assert whole[if k < n then k else n].start <= d <= whole[if k < n then k else n].end;
    }
    if Covers(whole, d) {
      var k :| 0 <= k < |whole| && whole[k].start <= d <= whole[k].end;
      var m := if k < n then k else if d <= Middle(w) then n else n + 1;
      assert split[m].start <= d <= split[m].end;
    }
  }

  lemma PopCovers(rest: seq<Span>, w: Span, d: int)
    ensures Covers(rest + [w], d) <==> Covers(rest, d) || w.start <= d <= w.end
  {
    var whole, n := rest + [w], |rest|;
    if Covers(rest, d) {
      var k :| 0 <= k < n && rest[k].start <= d <= rest[k].end;
      assert whole[k].start <= d <= whole[k].end;
    }
    if w.start <= d <= w.end {
      assert whole[n].start <= d <= whole[n].end;
    }
  }

  /** A drained stack holds exactly the venue's bars of the covered days. */
  ghost predicate Collects(all: seq<DailyBar>, book: Ledger, pending: seq<Span>) {
    forall b :: b in all <==> exists d :: d in book && Covers(pending, d) && b == book[d]
  }

  /** A page that was kept is the whole window. */
  lemma KeptPageIsWhole(c: Splitter, rows: Rows, book: Ledger, w: Span)
    requires Honest(rows, book, c.pageLimit) && Fits(c, w)
    requires FetchPage(rows, w.start, w.end).Ok? && !Splits(c, w, FetchPage(rows, w.start, w.end).value)
    requires c.pageLimit >= 1
    ensures Shows(FetchPage(rows, w.start, w.end).value, book, DaysIn(book, w.start, w.end))
  {
    var shown := PageFacts(rows, book, c.pageLimit, w.start, w.end);
    var days := DaysIn(book, w.start, w.end);
    DaysFit(book, w.start, w.end);
    if |shown| >= c.pageLimit {
      assert w.depth == c.maxDepth || w.start == w.end;
      assert Pow2(0) == 1;
    }
    assert |shown| == |days|;
    SameSizeSubset(shown, days);
  }

  lemma CollectPage(page: seq<DailyBar>, more: seq<DailyBar>, book: Ledger, rest: seq<Span>, w: Span)
    requires Shows(page, book, DaysIn(book, w.start, w.end)) && Collects(more, book, rest)
    ensures Collects(page + more, book, rest + [w])
  {
    forall b
      ensures b in page + more <==> exists d :: d in book && Covers(rest + [w], d) && b == book[d]
    {
      if b in page {
        var d :| d in DaysIn(book, w.start, w.end) && b == book[d];
        PopCovers(rest, w, d);
      }
      if b in more {
        var d :| d in book && Covers(rest, d) && b == book[d];
        PopCovers(rest, w, d);
      }
      if d :| d in book && Covers(rest + [w], d) && b == book[d] {
        PopCovers(rest, w, d);
        assert w.start <= d <= w.end ==> d in DaysIn(book, w.start, w.end);
      }
    }
  }

  lemma {:induction false} DrainCollects(c: Splitter, rows: Rows, book: Ledger, pending: seq<Span>)
    requires Honest(rows, book, c.pageLimit) && c.pageLimit >= 1
    requires forall k :: 0 <= k < |pending| ==> Fits(c, pending[k])
    ensures Drain(c, rows, pending).Ok? && Collects(Drain(c, rows, pending).value, book, pending)
    decreases Measure(pending)
  {
    if pending != [] {
      var rest, w := pending[..|pending| - 1], pending[|pending| - 1];
      assert pending == rest + [w];
      MeasurePop(rest, w);
      var shown := PageFacts(rows, book, c.pageLimit, w.start, w.end);
      var page := FetchPage(rows, w.start, w.end).value;
      if Splits(c, w, page) {
        MeasureSplit(rest, w);
        HalvesFit(c, w);
        var split := rest + [LowerHalf(w), UpperHalf(w)];
        DrainCollects(c, rows, book, split);
        forall d
          ensures Covers(split, d) <==> Covers(pending, d)
        {
          SplitCovers(rest, w, d);
        }
      } else {
        DrainCollects(c, rows, book, rest);
        KeptPageIsWhole(c, rows, book, w);
        CollectPage(page, Drain(c, rows, rest).value, book, rest, w);
      }
    }
  }

  lemma {:induction false} TilesCover(c: Splitter, start: int, end: int)
    requires c.windowDays >= 1
    ensures forall k :: 0 <= k < |Tiles(c, start, end)| ==>
      var w := Tiles(c, start, end)[k];
      start <= w.start <= w.end <= end && w.depth == 0 && w.end - w.start + 1 <= c.windowDays
    ensures forall d :: Covers(Tiles(c, start, end), d) <==> start <= d <= end
    decreases end - start
  {
    if start <= end {
      var last := Min(start + c.windowDays - 1, end);
      var first, rest := Span(start, last, 0), Tiles(c, last + 1, end);
      TilesCover(c, last + 1, end);
      var all := Tiles(c, start, end);
      forall d
        ensures Covers(all, d) <==> start <= d <= end
      {
        if Covers(all, d) {
          var k :| 0 <= k < |all| && all[k].start <= d <= all[k].end;
          assert k > 0 ==> all[k] == rest[k - 1];
        }
        if start <= d <= last {
          assert all[0].start <= d <= all[0].end;
        } else if last < d <= end {
          assert Covers(rest, d);
          var k :| 0 <= k < |rest| && rest[k].start <= d <= rest[k].end;
          assert all[k + 1] == rest[k];
        }
      }
    }
  }

  lemma CloseIsOnItsDate(d: int)
    ensures UtcDate(CloseInstant(d)) == d
  {
  }

  lemma DatesInRange(d: int, from: int, to: int)
    requires from <= CloseInstant(d) <= to
    ensures UtcDate(from) <= d <= UtcDate(to)
  {
    CloseIsOnItsDate(d);
  }

  /**
   Chart completeness: whenever the splits left can bring every window under the page limit, the
   result is strictly increasing and holds exactly the venue's bars with close in the range.
   */
  lemma ChartComplete(c: Splitter, rows: Rows, book: Ledger, from: int, to: int)
    requires c.windowDays >= 1 && c.pageLimit >= 1
    requires c.windowDays <= c.pageLimit * Pow2(c.maxDepth)
    requires Honest(rows, book, c.pageLimit)
    ensures var r := DailyBars(c, rows, from, to);
      && r.Ok?
      && Increasing(r.value)
      && forall b :: b in r.value <==> exists d :: d in book && b == book[d] && from <= CloseInstant(d) <= to
  {
    var start, end := UtcDate(from), UtcDate(to);
    if start <= end {
      TilesCover(c, start, end);
      DrainCollects(c, rows, book, Tiles(c, start, end));
      var all := Drain(c, rows, Tiles(c, start, end)).value;
      Tidied(all, book);
      RetainFacts(Dedup(SortBy(all, BarTime)), from, to);
      forall b
        ensures b in DailyBars(c, rows, from, to).value
            <==> exists d :: d in book && b == book[d] && from <= CloseInstant(d) <= to
      {
        if d :| d in book && b == book[d] && from <= CloseInstant(d) <= to {
          DatesInRange(d, from, to);
        }
      }
    } else {
      forall d | d in book && from <= CloseInstant(d) <= to
        ensures false
      {
        DatesInRange(d, from, to);
      }
    }
  }

  /** The source's constants: 100-day windows, 100 rows a page, six splits. */
  lemma KisChartComplete(rows: Rows, book: Ledger, from: int, to: int)
    requires Honest(rows, book, PAGE_LIMIT)
    ensures var r := DailyBars(KIS, rows, from, to);
      && r.Ok?
      && Increasing(r.value)
      && forall b :: b in r.value <==> exists d :: d in book && b == book[d] && from <= CloseInstant(d) <= to
  {
    assert Pow2(MAX_SPLIT_DEPTH) >= 1;
    ChartComplete(KIS, rows, book, from, to);
  }

  // ---- Too few splits ----

  /** A window longer than the splits it has left can bring under the page limit. */
  ghost predicate Big(c: Splitter, w: Span) {
    w.depth <= c.maxDepth && w.end - w.start + 1 > c.pageLimit * Pow2(c.maxDepth - w.depth)
  }

  ghost predicate Apart(v: Span, w: Span) {
    v.end < w.start || w.end < v.start
  }

  /** Non-empty windows that do not overlap and hold a bar every day. */
  ghost predicate DenseStack(pending: seq<Span>, book: Ledger) {
    && (forall k :: 0 <= k < |pending| ==> pending[k].start <= pending[k].end)
    && (forall i, j :: 0 <= i < j < |pending| ==> Apart(pending[i], pending[j]))
    && (forall d :: Covers(pending, d) ==> d in book)
  }

  lemma LowerHalfIsBig(c: Splitter, w: Span)
    requires Big(c, w) && w.depth < c.maxDepth && c.pageLimit >= 1
    ensures w.start < w.end && Big(c, LowerHalf(w))
  {
    var p := Pow2(c.maxDepth - w.depth - 1);
    PowerAtLeastOne(c.maxDepth - w.depth - 1);
    assert Pow2(c.maxDepth - w.depth) == 2 * p && p >= 1;
    assert c.pageLimit * (2 * p) == 2 * (c.pageLimit * p);
    assert c.pageLimit * p >= 1;
  }

  lemma {:induction false} DenseDays(book: Ledger, start: int, end: int)
    requires start <= end + 1 && forall d :: start <= d <= end ==> d in book
    ensures |DaysIn(book, start, end)| == end - start + 1
    decreases end - start
  {
    if start > end {
      assert DaysIn(book, start, end) == {};
    } else {
      DenseDays(book, start, end - 1);
      assert DaysIn(book, start, end) == DaysIn(book, start, end - 1) + {end};
    }
  }

  lemma PopDense(rest: seq<Span>, w: Span, book: Ledger)
    requires DenseStack(rest + [w], book)
    ensures DenseStack(rest, book) && forall d :: w.start <= d <= w.end ==> d in book && !Covers(rest, d)
  {
    var all := rest + [w];
    forall d | w.start <= d <= w.end
      ensures d in book && !Covers(rest, d)
    {
      PopCovers(rest, w, d);
      assert forall k :: 0 <= k < |rest| ==> Apart(all[k], all[|rest|]) && all[k] == rest[k];
    }
    forall d | Covers(rest, d)
      ensures d in book
    {
      PopCovers(rest, w, d);
    }
    assert forall i, j :: 0 <= i < j < |rest| ==> Apart(all[i], all[j]);
    assert forall k :: 0 <= k < |rest| ==> all[k] == rest[k];
  }

  lemma SplitDense(rest: seq<Span>, w: Span, book: Ledger)
    requires DenseStack(rest + [w], book) && w.start < w.end
    ensures DenseStack(rest + [LowerHalf(w), UpperHalf(w)], book)
  {
    var split, whole, n := rest + [LowerHalf(w), UpperHalf(w)], rest + [w], |rest|;
    forall d | Covers(split, d)
      ensures d in book
    {
      SplitCovers(rest, w, d);
    }
    forall i, j | 0 <= i < j < |split|
      ensures Apart(split[i], split[j])
    {
      if j < n {
        assert Apart(whole[i], whole[j]);
      } else if i < n {
        assert Apart(whole[i], whole[n]);
      }
    }
    assert forall k :: 0 <= k < n ==> split[k] == whole[k];
  }

  lemma {:induction false} DrainIsSound(c: Splitter, rows: Rows, book: Ledger, pending: seq<Span>)
    requires Honest(rows, book, c.pageLimit)
    ensures Drain(c, rows, pending).Ok?
    ensures forall b :: b in Drain(c, rows, pending).value ==>
      exists d :: d in book && Covers(pending, d) && b == book[d]
    decreases Measure(pending)
  {
    if pending != [] {
      var rest, w := pending[..|pending| - 1], pending[|pending| - 1];
      assert pending == rest + [w];
      MeasurePop(rest, w);
      var shown := PageFacts(rows, book, c.pageLimit, w.start, w.end);
      var page := FetchPage(rows, w.start, w.end).value;
      if Splits(c, w, page) {
        MeasureSplit(rest, w);
        DrainIsSound(c, rows, book, rest + [LowerHalf(w), UpperHalf(w)]);
        forall d
          ensures Covers(rest + [LowerHalf(w), UpperHalf(w)], d) <==> Covers(pending, d)
        {
          SplitCovers(rest, w, d);
        }
      } else {
        DrainIsSound(c, rows, book, rest);
        forall d
          ensures Covers(pending, d) <==> Covers(rest, d) || w.start <= d <= w.end
        {
          PopCovers(rest, w, d);
        }
        forall b | b in page
          ensures exists d :: d in book && Covers(pending, d) && b == book[d]
        {
          var d :| d in shown && b == book[d];
          assert d in DaysIn(book, w.start, w.end);
        }
      }
    }
  }

  ghost predicate Loses(all: seq<DailyBar>, book: Ledger, pending: seq<Span>, d: int) {
    d in book && Covers(pending, d) && book[d] !in all
  }

  /** At the last depth a big window's page is cut, and no other window asks for the day again. */
  lemma CutPageLoses(c: Splitter, rows: Rows, book: Ledger, rest: seq<Span>, w: Span) returns (lost: int)
    requires Honest(rows, book, c.pageLimit) && DenseStack(rest + [w], book)
    requires Big(c, w) && w.depth == c.maxDepth
    ensures FetchPage(rows, w.start, w.end).Ok? && Drain(c, rows, rest).Ok?
    ensures Loses(FetchPage(rows, w.start, w.end).value + Drain(c, rows, rest).value, book, rest + [w], lost)
  {
    PopDense(rest, w, book);
    DenseDays(book, w.start, w.end);
    DrainIsSound(c, rows, book, rest);
    var shown := PageFacts(rows, book, c.pageLimit, w.start, w.end);
    var days := DaysIn(book, w.start, w.end);
    assert Pow2(0) == 1;
    if days <= shown {
      SubsetSize(days, shown);
    }
    lost :| lost in days && lost !in shown;
    PopCovers(rest, w, lost);
    StampsDiffer(book, lost);
  }

  lemma StampsDiffer(book: Ledger, d: int)
    requires WellStamped(book) && d in book
    ensures forall x :: x in book && x != d ==> book[x] != book[d]
  {
  }

  lemma {:induction false} DrainLoses(
    c: Splitter, rows: Rows, book: Ledger, pending: seq<Span>, big: nat)
    returns (lost: int)
    requires Honest(rows, book, c.pageLimit) && c.pageLimit >= 1 && DenseStack(pending, book)
    requires big < |pending| && Big(c, pending[big])
    ensures Drain(c, rows, pending).Ok? && Loses(Drain(c, rows, pending).value, book, pending, lost)
    decreases Measure(pending)
  {
    var rest, w, n := pending[..|pending| - 1], pending[|pending| - 1], |pending| - 1;
    assert pending == rest + [w];
    MeasurePop(rest, w);
    DrainIsSound(c, rows, book, pending);
    var shown := PageFacts(rows, book, c.pageLimit, w.start, w.end);
    var page := FetchPage(rows, w.start, w.end).value;
    if Splits(c, w, page) {
      MeasureSplit(rest, w);
      SplitDense(rest, w, book);
      if big == n {
        LowerHalfIsBig(c, w);
      }
      lost := DrainLoses(c, rows, book, rest + [LowerHalf(w), UpperHalf(w)], big);
      SplitCovers(rest, w, lost);
    } else if big == n {
      BigPageIsFull(c, rows, book, rest, w);
      lost := CutPageLoses(c, rows, book, rest, w);
    } else {
      PopDense(rest, w, book);
      lost := DrainLoses(c, rows, book, rest, big);
      PopCovers(rest, w, lost);
      StampsDiffer(book, lost);
      assert !(w.start <= lost <= w.end);
      assert lost !in shown;
    }
  }

  /** A big window's page is full, so it is only kept at the last depth. */
  lemma BigPageIsFull(c: Splitter, rows: Rows, book: Ledger, rest: seq<Span>, w: Span)
    requires Honest(rows, book, c.pageLimit) && c.pageLimit >= 1 && DenseStack(rest + [w], book) && Big(c, w)
    requires FetchPage(rows, w.start, w.end).Ok? && !Splits(c, w, FetchPage(rows, w.start, w.end).value)
    ensures w.depth == c.maxDepth
  {
    if w.depth < c.maxDepth {
      LowerHalfIsBig(c, w);
      PopDense(rest, w, book);
      DenseDays(book, w.start, w.end);
      var shown := PageFacts(rows, book, c.pageLimit, w.start, w.end);
      BigIsOverAPage(c, w);
    }
  }

  lemma BigIsOverAPage(c: Splitter, w: Span)
    requires Big(c, w) && c.pageLimit >= 1
    ensures w.end - w.start + 1 > c.pageLimit
  {
    PowerAtLeastOne(c.maxDepth - w.depth);
    AtLeastItself(c.pageLimit, Pow2(c.maxDepth - w.depth));
  }

  lemma AtLeastItself(x: int, p: int)
    requires x >= 0 && p >= 1
    ensures x * p >= x
  {
    assert x * (p - 1) >= 0;
  }

  lemma {:induction false} PowerAtLeastOne(n: nat)
    ensures Pow2(n) >= 1
  {
    if n > 0 {
      PowerAtLeastOne(n - 1);
    }
  }

  /**
   The condition is sharp: with fewer splits, any range of at least one window with a bar every day
   loses a bar, against every honest venue.
   */
  lemma TooFewSplitsLoseABar(c: Splitter, rows: Rows, book: Ledger, from: int, to: int)
    requires c.pageLimit >= 1 && c.windowDays > c.pageLimit * Pow2(c.maxDepth)
    requires Honest(rows, book, c.pageLimit)
    requires UtcDate(from) + c.windowDays - 1 <= UtcDate(to)
    requires forall d :: UtcDate(from) <= d <= UtcDate(to) ==> d in book && from <= CloseInstant(d) <= to
    ensures DailyBars(c, rows, from, to).Ok?
    ensures exists d :: d in book && from <= CloseInstant(d) <= to && book[d] !in DailyBars(c, rows, from, to).value
  {
    var start, end := UtcDate(from), UtcDate(to);
    var tiles := Tiles(c, start, end);
    TilesCover(c, start, end);
    TilesApart(c, start, end);
    assert tiles[0] == Span(start, start + c.windowDays - 1, 0);
    assert Big(c, tiles[0]);
    var lost := DrainLoses(c, rows, book, tiles, 0);
    DrainIsSound(c, rows, book, tiles);
    var all := Drain(c, rows, tiles).value;
    assert FromLedger(all, book);
    Tidied(all, book);
    RetainFacts(Dedup(SortBy(all, BarTime)), from, to);
    assert lost in book && book[lost] !in DailyBars(c, rows, from, to).value;
  }

  lemma {:induction false} TilesApart(c: Splitter, start: int, end: int)
    requires c.windowDays >= 1
    ensures forall i, j :: 0 <= i < j < |Tiles(c, start, end)| ==>
      Apart(Tiles(c, start, end)[i], Tiles(c, start, end)[j])
    decreases end - start
  {
    if start <= end {
      var last := Min(start + c.windowDays - 1, end);
      TilesApart(c, last + 1, end);
      TilesCover(c, last + 1, end);
    }
  }
}
