/** No look-ahead: what happens up to an instant does not depend on any later bar. */
module LookAhead {
  import opened Brokers
  import opened Orders
  import opened Backtests
  import opened Sorting

  // ---- Each step only appends ----

  /** Only fills are added, all with one timestamp. */
  ghost predicate AddsFills(e: Engine, after: Engine, timestamp: int) {
    && after.curve == e.curve && e.fills <= after.fills
    && (forall i :: |e.fills| <= i < |after.fills| ==> after.fills[i].timestamp == timestamp)
  }

  lemma AddsThrough(a: Engine, b: Engine, c: Engine, timestamp: int)
    requires AddsFills(a, b, timestamp) && AddsFills(b, c, timestamp)
    ensures AddsFills(a, c, timestamp)
  {
    forall i | |a.fills| <= i < |c.fills|
      ensures c.fills[i].timestamp == timestamp
    {
      assert i < |b.fills| ==> c.fills[i] == b.fills[i];
    }
  }

  lemma IntentAdds(setup: Setup, e: Engine, bar: PriceBar, it: OrderIntent)
    ensures AddsFills(e, OnIntent(setup, e, bar, it), bar.timestamp)
  {
  }

  lemma {:induction false} IntentsAdd(setup: Setup, e: Engine, bar: PriceBar, intents: seq<OrderIntent>)
    ensures AddsFills(e, OnIntents(setup, e, bar, intents), bar.timestamp)
    decreases |intents|
  {
    if intents != [] {
      var n := |intents| - 1;
      var before := OnIntents(setup, e, bar, intents[..n]);
      IntentsAdd(setup, e, bar, intents[..n]);
      IntentAdds(setup, before, bar, intents[n]);
      AddsThrough(e, before, OnIntent(setup, before, bar, intents[n]), bar.timestamp);
    }
  }

  lemma BarAppends(setup: Setup, e: Engine, bar: PriceBar)
    ensures var after := OnBar(setup, e, bar);
      && (e.crashed ==> after == e)
      && (after.crashed ==> after.curve == e.curve)
      && (!after.crashed ==>
           && |after.curve| == |e.curve| + 1 && e.curve <= after.curve
           && after.curve[|e.curve|].timestamp == bar.timestamp)
      && e.fills <= after.fills
      && (forall i :: |e.fills| <= i < |after.fills| ==> after.fills[i].timestamp == bar.timestamp)
  {
    if !e.crashed {
      IntentsAdd(setup, Quoted(setup, e, bar), bar, Intents(setup, e, bar));
    }
  }

  lemma {:induction false} OnePointPerBar(setup: Setup, venue: Venue, bars: seq<PriceBar>)
    ensures !Run(setup, venue, bars).crashed ==> |Run(setup, venue, bars).curve| == |bars|
    decreases |bars|
  {
    if bars != [] {
      BarAppends(setup, Run(setup, venue, bars[..|bars| - 1]), bars[|bars| - 1]);
      OnePointPerBar(setup, venue, bars[..|bars| - 1]);
    }
  }

  ghost predicate Extends(past: Engine, full: Engine) {
    past.curve <= full.curve && past.fills <= full.fills && (past.crashed ==> full.crashed)
  }

  /** `full` continues `past`, with points and fills later than `t` only. */
  ghost predicate ContinuesAfter(past: Engine, full: Engine, t: int) {
    && Extends(past, full)
    && (forall i :: |past.curve| <= i < |full.curve| ==> full.curve[i].timestamp > t)
    && (forall i :: |past.fills| <= i < |full.fills| ==> full.fills[i].timestamp > t)
  }

  lemma ContinuesThrough(a: Engine, b: Engine, c: Engine, t: int)
    requires ContinuesAfter(a, b, t) && ContinuesAfter(b, c, t)
    ensures ContinuesAfter(a, c, t)
  {
    forall i | |a.fills| <= i < |c.fills|
      ensures c.fills[i].timestamp > t
    {
      assert i < |b.fills| ==> c.fills[i] == b.fills[i];
    }
    forall i | |a.curve| <= i < |c.curve|
      ensures c.curve[i].timestamp > t
    {
      assert i < |b.curve| ==> c.curve[i] == b.curve[i];
    }
  }

  lemma {:induction false} RunAppends(setup: Setup, venue: Venue, past: seq<PriceBar>, later: seq<PriceBar>, t: int)
    requires forall i :: 0 <= i < |later| ==> later[i].timestamp > t
    ensures ContinuesAfter(Run(setup, venue, past), Run(setup, venue, past + later), t)
    decreases |later|
  {
    if later == [] {
      assert past + later == past;
    } else {
      var n := |later| - 1;
      var front, bar := later[..n], later[n];
      var whole := past + front;
      assert past + later == whole + [bar];
      RunAppends(setup, venue, past, front, t);
      RunOneMore(setup, venue, whole, bar);
      BarContinues(setup, Run(setup, venue, past), Run(setup, venue, whole), bar, t);
    }
  }

  lemma RunCut(setup: Setup, venue: Venue, bars: seq<PriceBar>, k: nat, t: int)
    requires k <= |bars| && forall i :: k <= i < |bars| ==> bars[i].timestamp > t
    ensures ContinuesAfter(Run(setup, venue, bars[..k]), Run(setup, venue, bars), t)
  {
    var past, later := bars[..k], bars[k..];
    assert bars == past + later;
    RunAppends(setup, venue, past, later, t);
  }

  lemma BarContinues(setup: Setup, past: Engine, e: Engine, bar: PriceBar, t: int)
    requires ContinuesAfter(past, e, t) && bar.timestamp > t
    ensures ContinuesAfter(past, OnBar(setup, e, bar), t)
  {
    BarAppends(setup, e, bar);
    ContinuesThrough(past, e, OnBar(setup, e, bar), t);
  }

  lemma {:induction false} CurveExtends(setup: Setup, venue: Venue, past: seq<PriceBar>, later: seq<PriceBar>)
    ensures Extends(Run(setup, venue, past), Run(setup, venue, past + later))
    decreases |later|
  {
    if later == [] {
      assert past + later == past;
    } else {
      var n := |later| - 1;
      var front, bar := later[..n], later[n];
      var whole := past + front;
      assert past + later == whole + [bar];
      CurveExtends(setup, venue, past, front);
      RunOneMore(setup, venue, whole, bar);
      BarExtends(setup, Run(setup, venue, past), Run(setup, venue, whole), bar);
    }
  }

  lemma BarExtends(setup: Setup, past: Engine, e: Engine, bar: PriceBar)
    requires Extends(past, e)
    ensures Extends(past, OnBar(setup, e, bar))
  {
    BarAppends(setup, e, bar);
  }

  /**
   Whatever order the bars come in: cutting the input at any instant cuts the equity curve and the
   fills there and changes nothing before it. A run that crashes by then crashes on the full input.
   */
  lemma NoLookAhead(setup: Setup, venue: Venue, bars: seq<PriceBar>, t: int)
    ensures var past, full := Backtest(setup, venue, UpTo(bars, BarTime, t)), Backtest(setup, venue, bars);
      full.Some? ==>
        && past.Some?
        && past.value.curve <= full.value.curve
        && past.value.fills <= full.value.fills
        && (forall i :: |past.value.curve| <= i < |full.value.curve| ==> full.value.curve[i].timestamp > t)
        && (forall i :: |past.value.fills| <= i < |full.value.fills| ==> full.value.fills[i].timestamp > t)
  {
    var sorted := SortBars(bars);
    SortThenCut(bars, BarTime, t);
    SortFacts(bars, BarTime);
    UpToIsPrefix(sorted, BarTime, t);
    RunCut(setup, venue, sorted, |UpTo(sorted, BarTime, t)|, t);
  }
}
