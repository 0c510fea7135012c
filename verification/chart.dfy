/**
 Historical daily bars from a venue that cuts every answer to its newest rows: windows are tiled over
 the range, and a full page sends its window back to the work stack as two halves.
 */
module Charts {
  import opened Types
  import opened Sorting
  import opened Aggregators

  const WINDOW_DAYS := 100
  const MAX_SPLIT_DEPTH := 6
  const PAGE_LIMIT := 100

  datatype DailyBar = DailyBar(timestamp: int, open: real, high: real, low: real, close: real, volume: int)

  /** The venue's raw rows for a range of days, in any order, or a failure. */
  type Rows = (int, int) -> Result<seq<DailyBar>, string>

  datatype Splitter = Splitter(windowDays: nat, pageLimit: nat, maxDepth: nat)

  const KIS := Splitter(WINDOW_DAYS, PAGE_LIMIT, MAX_SPLIT_DEPTH)

  datatype Span = Span(start: int, end: int, depth: nat)

  function BarTime(b: DailyBar): int {
    b.timestamp
  }

  /** The UTC date of an instant, as a day number. */
  function UtcDate(instant: int): int {
    instant / DAY
  }

  /** Drop every element whose timestamp equals that of the one kept before it. */
  function Dedup(bars: seq<DailyBar>): seq<DailyBar> {
    if bars == [] then []
    else
      var kept, last := Dedup(bars[..|bars| - 1]), bars[|bars| - 1];
      if kept != [] && kept[|kept| - 1].timestamp == last.timestamp then kept else kept + [last]
  }

  function Retain(bars: seq<DailyBar>, from: int, to: int): seq<DailyBar> {
    if bars == [] then []
    else
      var kept, last := Retain(bars[..|bars| - 1], from, to), bars[|bars| - 1];
      if from <= last.timestamp <= to then kept + [last] else kept
  }

  function FetchPage(rows: Rows, start: int, end: int): Result<seq<DailyBar>, string> {
    match rows(start, end)
    case Err(e) => Err(e)
    case Ok(list) => Ok(Dedup(SortBy(list, BarTime)))
  }

  /** Non-overlapping windows from `start` on. */
  function Tiles(c: Splitter, start: int, end: int): seq<Span>
    requires c.windowDays >= 1
    decreases end - start
  {
    if start > end then []
    else
      var last := Min(start + c.windowDays - 1, end);
      [Span(start, last, 0)] + Tiles(c, last + 1, end)
  }

  predicate Splits(c: Splitter, w: Span, page: seq<DailyBar>) {
    |page| >= c.pageLimit && w.depth < c.maxDepth && w.start < w.end
  }

  function Middle(w: Span): int {
    w.start + (w.end - w.start) / 2
  }

  function LowerHalf(w: Span): Span {
    Span(w.start, Middle(w), w.depth + 1)
  }

  function UpperHalf(w: Span): Span {
    Span(Middle(w) + 1, w.end, w.depth + 1)
  }

  /**
   The day measure of the stack: splitting keeps the days and adds a window, so twice the days minus the
   windows falls.
   */
  function Measure(pending: seq<Span>): nat {
    if pending == [] then 0
    else
      var w := pending[|pending| - 1];
      Measure(pending[..|pending| - 1]) + (if w.start <= w.end then 2 * (w.end - w.start) + 1 else 1)
  }

  lemma MeasurePop(rest: seq<Span>, w: Span)
    ensures Measure(rest + [w]) == Measure(rest) + (if w.start <= w.end then 2 * (w.end - w.start) + 1 else 1)
  {
    assert (rest + [w])[..|rest|] == rest;
  }

  lemma MeasureSplit(rest: seq<Span>, w: Span)
    requires w.start < w.end
    ensures Measure(rest + [LowerHalf(w), UpperHalf(w)]) < Measure(rest + [w])
  {
    MeasurePop(rest, w);
    MeasurePop(rest, LowerHalf(w));
    MeasurePop(rest + [LowerHalf(w)], UpperHalf(w));
    assert rest + [LowerHalf(w), UpperHalf(w)] == rest + [LowerHalf(w)] + [UpperHalf(w)];
  }

  /** Everything the work stack brings in, newest window first. */
  function Drain(c: Splitter, rows: Rows, pending: seq<Span>): Result<seq<DailyBar>, string>
    decreases Measure(pending)
  {
    if pending == [] then Ok([])
    else
      var rest, w := pending[..|pending| - 1], pending[|pending| - 1];
      match FetchPage(rows, w.start, w.end)
      case Err(e) => Err(e)
      case Ok(page) =>
        assert pending == rest + [w];
        MeasurePop(rest, w);
        if Splits(c, w, page) then
          MeasureSplit(rest, w);
          Drain(c, rows, rest + [LowerHalf(w), UpperHalf(w)])
        else
          Joined(page, Drain(c, rows, rest))
  }

  function DailyBars(c: Splitter, rows: Rows, from: int, to: int): Result<seq<DailyBar>, string>
    requires c.windowDays >= 1
  {
    if UtcDate(from) > UtcDate(to) then Ok([])
    else
      match Drain(c, rows, Tiles(c, UtcDate(from), UtcDate(to)))
      case Err(e) => Err(e)
      case Ok(all) => Ok(Retain(Dedup(SortBy(all, BarTime)), from, to))
  }

  // ---- The loops ----

  function Joined(all: seq<DailyBar>, r: Result<seq<DailyBar>, string>): Result<seq<DailyBar>, string> {
    match r
    case Err(e) => Err(e)
    case Ok(more) => Ok(all + more)
  }

  lemma JoinPage(all: seq<DailyBar>, page: seq<DailyBar>, r: Result<seq<DailyBar>, string>)
    ensures Joined(all, Joined(page, r)) == Joined(all + page, r)
  {
    if r.Ok? {
      assert all + (page + r.value) == all + page + r.value;
    }
  }

  method TileRange(c: Splitter, start0: int, end: int) returns (pending: seq<Span>)
    requires c.windowDays >= 1
    ensures pending == Tiles(c, start0, end)
  {
    pending := [];
    var start := start0;
    while start <= end
      invariant pending + Tiles(c, start, end) == Tiles(c, start0, end)
      decreases end - start
    {
      var windowEnd := Min(start + c.windowDays - 1, end);
      pending := pending + [Span(start, windowEnd, 0)];
      start := windowEnd + 1;
    }
  }

  method FetchDailyBars(c: Splitter, rows: Rows, from: int, to: int) returns (r: Result<seq<DailyBar>, string>)
    requires c.windowDays >= 1
    ensures r == DailyBars(c, rows, from, to)
  {
    var fromDate, endDate := UtcDate(from), UtcDate(to);
    if fromDate > endDate {
      return Ok([]);
    }
    var pending := TileRange(c, fromDate, endDate);
    ghost var total := Drain(c, rows, pending);
    var all := [];
    assert total.Ok? ==> [] + total.value == total.value;
    while pending != []
      invariant total == Joined(all, Drain(c, rows, pending))
      decreases Measure(pending)
    {
      var w := pending[|pending| - 1];
      ghost var before := pending;
      pending := pending[..|pending| - 1];
      assert before == pending + [w];
      MeasurePop(pending, w);
      var page := FetchPage(rows, w.start, w.end);
      if page.Err? {
        return Err(page.error);
      }
      if |page.value| >= c.pageLimit && w.depth < c.maxDepth && w.start < w.end {
        MeasureSplit(pending, w);
        var mid := w.start + (w.end - w.start) / 2;
        pending := pending + [Span(w.start, mid, w.depth + 1), Span(mid + 1, w.end, w.depth + 1)];
        assert Drain(c, rows, before) == Drain(c, rows, pending);
        continue;
      }
      JoinPage(all, page.value, Drain(c, rows, pending));
      all := all + page.value;
    }
    assert all + [] == all;
    r := Ok(Retain(Dedup(SortBy(all, BarTime)), from, to));
  }
}
