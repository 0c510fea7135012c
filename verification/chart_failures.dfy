/** When the venue fails a page: which errors come through, and that none is swallowed. */
module ChartFailures {
  import opened Types
  import opened Charts
  import ChartProperties

  /** Every window on the stack is asked for, and answered. */
  lemma {:induction false} DrainAsksAll(c: Splitter, rows: Rows, pending: seq<Span>, k: nat)
    requires k < |pending| && Drain(c, rows, pending).Ok?
    ensures rows(pending[k].start, pending[k].end).Ok?
    decreases Measure(pending)
  {
    var n := |pending| - 1;
    var rest, w := pending[..n], pending[n];
    FrontAndLast(pending);
    if k < n {
      MeasurePop(rest, w);
      var page := FetchPage(rows, w.start, w.end);
      if Splits(c, w, page.value) {
        MeasureSplit(rest, w);
        DrainAsksAll(c, rows, rest + [LowerHalf(w), UpperHalf(w)], k);
      } else {
        DrainAsksAll(c, rows, rest, k);
      }
    }
  }

  /** A page inside one of the windows failed with this error. */
  ghost predicate FailsWithin(rows: Rows, pending: seq<Span>, error: string) {
    exists k, start, end :: FailsAt(rows, pending, k, start, end, error)
  }

  predicate FailsAt(rows: Rows, pending: seq<Span>, k: int, start: int, end: int, error: string) {
    0 <= k < |pending| && pending[k].start <= start && end <= pending[k].end && rows(start, end) == Err(error)
  }

  lemma {:induction false} DrainFails(c: Splitter, rows: Rows, pending: seq<Span>)
    requires Drain(c, rows, pending).Err?
    ensures FailsWithin(rows, pending, Drain(c, rows, pending).error)
    decreases Measure(pending)
  {
    var n := |pending| - 1;
    var rest, w := pending[..n], pending[n];
    var error := Drain(c, rows, pending).error;
    FrontAndLast(pending);
    MeasurePop(rest, w);
    match FetchPage(rows, w.start, w.end)
    case Err(_) =>
      assert FailsAt(rows, pending, n, w.start, w.end, error);
    case Ok(page) =>
      if Splits(c, w, page) {
        var halves := rest + [LowerHalf(w), UpperHalf(w)];
        MeasureSplit(rest, w);
        DrainFails(c, rows, halves);
        var k, start, end :| FailsAt(rows, halves, k, start, end, error);
        assert FailsAt(rows, pending, if k < n then k else n, start, end, error);
      } else {
        DrainFails(c, rows, rest);
        var k, start, end :| FailsAt(rows, rest, k, start, end, error);
        assert FailsAt(rows, pending, k, start, end, error);
      }
  }

  /**
   At any venue: a fetch fails only with the error of a page inside the range, and it does fail if one of the
   windows that tile the range cannot be read.
   */
  lemma PageErrorsComeThrough(c: Splitter, rows: Rows, from: int, to: int)
    requires c.windowDays >= 1
    ensures var r := DailyBars(c, rows, from, to);
      && (r.Err? ==>
           exists start, end :: UtcDate(from) <= start && end <= UtcDate(to) && rows(start, end) == Err(r.error))
      && (r.Ok? && UtcDate(from) <= UtcDate(to) ==>
           var tiles := Tiles(c, UtcDate(from), UtcDate(to));
           forall k :: 0 <= k < |tiles| ==> rows(tiles[k].start, tiles[k].end).Ok?)
  {
    var r := DailyBars(c, rows, from, to);
    if UtcDate(from) <= UtcDate(to) {
      var tiles := Tiles(c, UtcDate(from), UtcDate(to));
      if r.Err? {
        DrainFails(c, rows, tiles);
        var k, start, end :| FailsAt(rows, tiles, k, start, end, r.error);
        ChartProperties.TilesCover(c, UtcDate(from), UtcDate(to));
      } else {
        forall k | 0 <= k < |tiles|
          ensures rows(tiles[k].start, tiles[k].end).Ok?
        {
          DrainAsksAll(c, rows, tiles, k);
        }
      }
    }
  }
}
