/** First-in-first-out lots against average-cost accounting. */
module Fifo {
  import opened Types
  import opened Portfolios
  import opened Brokers
  import opened Backtests
  import opened Metrics
  import opened Accounting
  import opened Sorting
  import LookAhead

  function LotShares(queue: seq<Lot>): nat {
    if queue == [] then 0 else queue[0].quantity + LotShares(queue[1..])
  }

  function LotCost(queue: seq<Lot>): real {
    if queue == [] then 0.0 else queue[0].price * queue[0].quantity as real + LotCost(queue[1..])
  }

  /** What the sells of one symbol brought in by first-in-first-out matching. */
  function FifoPnl(fills: seq<FillRecord>, s: Symbol): real {
    if fills == [] then 0.0
    else
      var front, f := fills[..|fills| - 1], fills[|fills| - 1];
      if f.symbol == s && f.side.Sell? then
        FifoPnl(front, s) + MatchLots(Queue(RoundTrips(front).lots, s), f.quantity, f.price).1
      else FifoPnl(front, s)
  }

  /** Sells minus buys of one symbol, in money. */
  function NetProceeds(fills: seq<FillRecord>, s: Symbol): real {
    if fills == [] then 0.0
    else
      var before, f := NetProceeds(fills[..|fills| - 1], s), fills[|fills| - 1];
      if f.symbol == s then before - SignedNotional(FillOfRecord(f)) else before
  }

  // ---- One sell ----

  lemma SplitSale(price: real, cost: real, whole: int, part: int)
    ensures (price - cost) * part as real == price * part as real - cost * part as real
    ensures cost * whole as real - cost * part as real == cost * (whole - part) as real
  {
    assert (whole - part) as real == whole as real - part as real;
  }

  lemma WholeLot(price: real, cost: real, lot: int, sold: int, left: int, tail: real, rest: real, pnl: real)
    requires left == sold - lot && pnl == price * left as real - tail + rest
    ensures (price - cost) * lot as real + pnl == price * sold as real - (cost * lot as real + tail) + rest
  {
    SplitSale(price, cost, sold, lot);
    SplitSale(price, price, sold, lot);
  }

  lemma PartOfLot(price: real, cost: real, lot: int, sold: int, tail: real)
    ensures (price - cost) * sold as real
         == price * sold as real - (cost * lot as real + tail) + (cost * (lot - sold) as real + tail)
  {
    SplitSale(price, cost, lot, sold);
  }

  /** The sale takes out exactly its shares, and earns the sale price minus the cost that left. */
  ghost predicate SoldOut(queue: seq<Lot>, quantity: nat, price: real, rest: seq<Lot>, pnl: real) {
    && LotShares(rest) == LotShares(queue) - quantity
    && pnl == price * quantity as real - LotCost(queue) + LotCost(rest)
  }

  lemma {:induction false} MatchCovered(queue: seq<Lot>, quantity: nat, price: real)
    requires quantity <= LotShares(queue)
    ensures var (rest, pnl) := MatchLots(queue, quantity, price);
      SoldOut(queue, quantity, price, rest, pnl)
    decreases |queue|
  {
    if quantity != 0 {
      var front := queue[0];
      if front.quantity <= quantity {
        var left := quantity - front.quantity;
        MatchCovered(queue[1..], left, price);
        var (rest, pnl) := MatchLots(queue[1..], left, price);
        SellLot(queue, quantity, price, left, rest, pnl);
      } else {
        SellPart(queue, quantity, price);
      }
    }
  }

  lemma SellLot(queue: seq<Lot>, quantity: nat, price: real, left: nat, rest: seq<Lot>, pnl: real)
    requires queue != [] && left == quantity - queue[0].quantity && SoldOut(queue[1..], left, price, rest, pnl)
    ensures SoldOut(queue, quantity, price, rest, (price - queue[0].price) * queue[0].quantity as real + pnl)
  {
    WholeLot(price, queue[0].price, queue[0].quantity, quantity, left, LotCost(queue[1..]), LotCost(rest), pnl);
  }

  lemma SellPart(queue: seq<Lot>, quantity: nat, price: real)
    requires queue != [] && quantity < queue[0].quantity
    ensures var rest := [Lot(queue[0].quantity - quantity, queue[0].price)] + queue[1..];
      SoldOut(queue, quantity, price, rest, (price - queue[0].price) * quantity as real)
  {
    var front, tail := queue[0], queue[1..];
    PartOfLot(price, front.price, front.quantity, quantity, LotCost(tail));
    assert ([Lot(front.quantity - quantity, front.price)] + tail)[1..] == tail;
  }

  lemma {:induction false} BuyAppends(queue: seq<Lot>, lot: Lot)
    ensures LotShares(queue + [lot]) == LotShares(queue) + lot.quantity
    ensures LotCost(queue + [lot]) == LotCost(queue) + lot.price * lot.quantity as real
    decreases |queue|
  {
    if queue == [] {
      assert ([] + [lot])[1..] == [];
    } else {
      BuyAppends(queue[1..], lot);
      assert (queue + [lot])[1..] == queue[1..] + [lot];
    }
  }

  lemma NoShares(queue: seq<Lot>)
    requires LotShares(queue) == 0
    ensures queue == []
  {
  }

  // ---- The whole list ----

  /** The queue of a symbol against the portfolio row of the same symbol. */
  ghost predicate Reconciled(fills: seq<FillRecord>, s: Symbol) {
    var queue, p := Queue(RoundTrips(fills).lots, s), Replay(fills);
    && LotShares(queue) == Held(p, s)
    && FifoPnl(fills, s) - LotCost(queue) == NetProceeds(fills, s)
    && RowRealized(p, s) - RowCost(p, s) == NetProceeds(fills, s)
  }

  lemma RowsOfOthers(p: Portfolio, fill: Fill, s: Symbol)
    requires s != fill.symbol && ApplyFill(p, fill).Ok?
    ensures var next := Book(p, fill);
      Held(next, s) == Held(p, s) && RowCost(next, s) == RowCost(p, s) && RowRealized(next, s) == RowRealized(p, s)
  {
    assert s in Book(p, fill).positions <==> s in p.positions;
  }

  lemma RoundTripsAppend(fills: seq<FillRecord>, f: FillRecord)
    ensures RoundTrips(fills + [f]) == OnFill(RoundTrips(fills), f)
  {
    assert (fills + [f])[..|fills|] == fills;
  }

  lemma PnlAppend(fills: seq<FillRecord>, f: FillRecord)
    ensures FifoPnl(fills + [f], f.symbol) == if f.side.Buy? then FifoPnl(fills, f.symbol)
      else FifoPnl(fills, f.symbol) + MatchLots(Queue(RoundTrips(fills).lots, f.symbol), f.quantity, f.price).1
  {
    assert (fills + [f])[..|fills|] == fills;
  }

  lemma NotionalIs(f: FillRecord, quantity: int, price: real)
    requires quantity == f.quantity && price == f.price
    ensures SignedNotional(FillOfRecord(f))
        == if f.side.Buy? then price * quantity as real else -(price * quantity as real)
  {
  }

  lemma BuyMoves(queue: seq<Lot>, f: FillRecord)
    requires f.side.Buy?
    ensures var after := queue + [Lot(f.quantity, f.price)];
      && LotShares(after) == LotShares(queue) + f.quantity
      && LotCost(after) == LotCost(queue) + SignedNotional(FillOfRecord(f))
  {
    BuyAppends(queue, Lot(f.quantity, f.price));
    NotionalIs(f, f.quantity, f.price);
  }

  lemma SellMoves(queue: seq<Lot>, f: FillRecord)
    requires f.side.Sell? && f.quantity <= LotShares(queue)
    ensures var (after, pnl) := MatchLots(queue, f.quantity, f.price);
      && LotShares(after) == LotShares(queue) - f.quantity
      && pnl - LotCost(after) == -LotCost(queue) - SignedNotional(FillOfRecord(f))
  {
    MatchCovered(queue, f.quantity, f.price);
    var (after, pnl) := MatchLots(queue, f.quantity, f.price);
    EarnedBySale(queue, f, f.quantity, f.price, after, pnl);
  }

  lemma EarnedBySale(queue: seq<Lot>, f: FillRecord, quantity: nat, price: real, after: seq<Lot>, pnl: real)
    requires f.side.Sell? && quantity == f.quantity && price == f.price && SoldOut(queue, quantity, price, after, pnl)
    ensures LotShares(after) == LotShares(queue) - quantity
    ensures pnl - LotCost(after) == -LotCost(queue) - SignedNotional(FillOfRecord(f))
  {
    NotionalIs(f, quantity, price);
  }

  /** What one more fill does to the queue and the matched profit of its own symbol. */
  lemma QueueAfter(fills: seq<FillRecord>, f: FillRecord)
    requires f.side.Sell? ==> f.quantity <= LotShares(Queue(RoundTrips(fills).lots, f.symbol))
    ensures var s, all := f.symbol, fills + [f];
      var queue, after := Queue(RoundTrips(fills).lots, s), Queue(RoundTrips(all).lots, s);
      && LotShares(after) == LotShares(queue) + SignedQuantity(FillOfRecord(f))
      && FifoPnl(all, s) - LotCost(after) == FifoPnl(fills, s) - LotCost(queue) - SignedNotional(FillOfRecord(f))
  {
    RoundTripsAppend(fills, f);
    PnlAppend(fills, f);
    if f.side.Buy? {
      BuyMoves(Queue(RoundTrips(fills).lots, f.symbol), f);
    } else {
      SellMoves(Queue(RoundTrips(fills).lots, f.symbol), f);
    }
  }

  lemma OtherQueues(fills: seq<FillRecord>, f: FillRecord, s: Symbol)
    requires s != f.symbol
    ensures var all := fills + [f];
      && Queue(RoundTrips(all).lots, s) == Queue(RoundTrips(fills).lots, s)
      && FifoPnl(all, s) == FifoPnl(fills, s) && NetProceeds(all, s) == NetProceeds(fills, s)
  {
    assert (fills + [f])[..|fills|] == fills;
  }

  lemma ReplayOneMore(fills: seq<FillRecord>, f: FillRecord)
    ensures Replay(fills + [f]) == Book(Replay(fills), FillOfRecord(f))
    ensures NetProceeds(fills + [f], f.symbol) == NetProceeds(fills, f.symbol) - SignedNotional(FillOfRecord(f))
  {
    assert (fills + [f])[..|fills|] == fills;
  }

  lemma OneMoreFill(fills: seq<FillRecord>, f: FillRecord, s: Symbol)
    requires Reconciled(fills, s) && ApplyFill(Replay(fills), FillOfRecord(f)).Ok?
    ensures Reconciled(fills + [f], s)
  {
    ReplayOneMore(fills, f);
    ReplayIsLong(fills);
    if f.symbol != s {
      OtherQueues(fills, f, s);
      RowsOfOthers(Replay(fills), FillOfRecord(f), s);
    } else {
      ApplyFillRow(Replay(fills), FillOfRecord(f));
      QueueAfter(fills, f);
    }
  }

  lemma {:induction false} EveryListReconciles(fills: seq<FillRecord>, s: Symbol)
    requires NoneRefused(fills)
    ensures Reconciled(fills, s)
    decreases |fills|
  {
    if fills != [] {
      var front, f := fills[..|fills| - 1], fills[|fills| - 1];
      LastAccepted(fills);
      EveryListReconciles(front, s);
      OneMoreFill(front, f, s);
      assert fills == front + [f];
    }
  }

  lemma LastAccepted(fills: seq<FillRecord>)
    requires NoneRefused(fills) && fills != []
    ensures var front, f := fills[..|fills| - 1], fills[|fills| - 1];
      NoneRefused(front) && ApplyFill(Replay(front), FillOfRecord(f)).Ok?
  {
    var front := fills[..|fills| - 1];
    assert forall k :: 0 < k <= |front| ==> front[..k] == fills[..k];
    assert fills[..|fills|] == fills;
    assert !RefusedLast(fills);
  }

  /**
   Without oversells: the lots left are the shares held, the two accountings differ exactly by how
   they value those shares, and on a flat symbol they agree.
   */
  lemma FifoMeetsAverageCost(fills: seq<FillRecord>, s: Symbol)
    requires NoneRefused(fills)
    ensures var queue, p := Queue(RoundTrips(fills).lots, s), Replay(fills);
      && LotShares(queue) == Held(p, s)
      && FifoPnl(fills, s) == NetProceeds(fills, s) + LotCost(queue)
      && FifoPnl(fills, s) - RowRealized(p, s) == LotCost(queue) - RowCost(p, s)
      && (Held(p, s) == 0 ==> queue == [] && FifoPnl(fills, s) == RowRealized(p, s) == NetProceeds(fills, s))
  {
    EveryListReconciles(fills, s);
    if Held(Replay(fills), s) == 0 {
      NoShares(Queue(RoundTrips(fills).lots, s));
      FlatCostsNothing(Replay(fills), s);
    }
  }

  lemma FlatCostsNothing(p: Portfolio, s: Symbol)
    requires Held(p, s) == 0
    ensures RowCost(p, s) == 0.0
  {
    if s in p.positions {
      assert 0.0 * p.positions[s].averagePrice == 0.0;
    }
  }

  // ---- Trades and wins ----

  /** The matched profit of every sell, in order. */
  function TripPnls(fills: seq<FillRecord>): seq<real> {
    if fills == [] then []
    else
      var front, f := fills[..|fills| - 1], fills[|fills| - 1];
      if f.side.Sell? then
        TripPnls(front) + [MatchLots(Queue(RoundTrips(front).lots, f.symbol), f.quantity, f.price).1]
      else TripPnls(front)
  }

  function CountPositive(xs: seq<real>): (n: nat)
    ensures n <= |xs|
  {
    if xs == [] then 0
    else
      var before := CountPositive(xs[..|xs| - 1]);
      if xs[|xs| - 1] > 0.0 then before + 1 else before
  }

  lemma CountAppend(xs: seq<real>, x: real)
    ensures CountPositive(xs + [x]) == if x > 0.0 then CountPositive(xs) + 1 else CountPositive(xs)
  {
    assert (xs + [x])[..|xs|] == xs;
  }

  lemma PercentOfPart(part: nat, whole: nat)
    requires part <= whole
    ensures 0.0 <= Percent(part as real, whole as real) <= 100.0
  {
    if whole > 0 {
      var x := Percent(part as real, whole as real);
      assert x * whole as real == part as real * 100.0;
      CancelPositive(0.0, x, whole as real);
      CancelPositive(x, 100.0, whole as real);
    }
  }

  lemma WinRateIsPercentage(result: BacktestResult, initialCash: real)
    ensures 0.0 <= Summarized(result, initialCash).winRatePct <= 100.0
  {
    var trips := RoundTrips(SortBy(result.fills, FillTime));
    TripsAreSells(SortBy(result.fills, FillTime));
    PercentOfPart(trips.wins, trips.trades);
  }

  /** One trip per sell, one win per profitable sell. */
  lemma {:induction false} TripsAreSells(fills: seq<FillRecord>)
    ensures RoundTrips(fills).trades == |TripPnls(fills)|
    ensures RoundTrips(fills).wins == CountPositive(TripPnls(fills))
    ensures RoundTrips(fills).wins <= RoundTrips(fills).trades
    decreases |fills|
  {
    if fills != [] {
      var front, f := fills[..|fills| - 1], fills[|fills| - 1];
      TripsAreSells(front);
      if f.side.Sell? {
        CountAppend(TripPnls(front), MatchLots(Queue(RoundTrips(front).lots, f.symbol), f.quantity, f.price).1);
      }
    }
  }

  // ---- On engine results ----

  lemma {:induction false} FillsInBarOrder(setup: Setup, venue: Venue, bars: seq<PriceBar>)
    requires Ascending(bars, BarTime)
    ensures Ascending(Run(setup, venue, bars).fills, FillTime)
    ensures bars != [] ==>
      forall i :: 0 <= i < |Run(setup, venue, bars).fills| ==>
        Run(setup, venue, bars).fills[i].timestamp <= bars[|bars| - 1].timestamp
    decreases |bars|
  {
    if bars != [] {
      var n := |bars| - 1;
      FillsInBarOrder(setup, venue, bars[..n]);
      var e, after := Run(setup, venue, bars[..n]), Run(setup, venue, bars);
      LookAhead.BarAppends(setup, e, bars[n]);
      assert forall i :: 0 <= i < |after.fills| ==>
        if i < |e.fills| then after.fills[i] == e.fills[i] else after.fills[i].timestamp == bars[n].timestamp;
      assert n > 0 ==> bars[n - 1].timestamp <= bars[n].timestamp;
    }
  }

  /** The engine records fills chronologically: sorting them again in the summary changes nothing. */
  lemma SummaryKeepsEngineOrder(setup: Setup, venue: Venue, bars: seq<PriceBar>)
    ensures var result := Backtest(setup, venue, bars);
      result.Some? ==> SortBy(result.value.fills, FillTime) == result.value.fills
  {
    SortFacts(bars, BarTime);
    FillsInBarOrder(setup, venue, SortBars(bars));
    SortedStays(Run(setup, venue, SortBars(bars)).fills, FillTime);
  }
}
