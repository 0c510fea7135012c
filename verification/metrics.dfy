/** Performance summary: return, running-peak drawdown, and first-in-first-out round trips. */
module Metrics {
  import opened Types
  import opened Backtests
  import opened Sorting

  datatype Summary = Summary(
    finalEquity: real, returnPct: real, mddPct: real, trades: nat, wins: nat, winRatePct: real,
    totalCommission: real, totalTax: real)

  // ---- Drawdown ----

  /** Percentage fall from `a` to `b`. */
  function Fall(a: real, b: real): real
    requires a != 0.0
  {
    (a - b) * 100.0 / a
  }

  function Peak(initial: real, curve: seq<Point>): real {
    if curve == [] then initial
    else
      var before, e := Peak(initial, curve[..|curve| - 1]), curve[|curve| - 1].equity;
      if e > before then e else before
  }

  /** The running-peak computation. */
  function Drawdown(initial: real, curve: seq<Point>): real {
    if curve == [] then 0.0
    else
      var before, peak := Drawdown(initial, curve[..|curve| - 1]), Peak(initial, curve);
      if peak == 0.0 then before
      else
        var fall := Fall(peak, curve[|curve| - 1].equity);
        if fall > before then fall else before
  }

  // ---- Round trips ----

  datatype Lot = Lot(quantity: Shares, price: real)

  /** Match a sell against the oldest lots; what the queue cannot cover is skipped. */
  function MatchLots(queue: seq<Lot>, quantity: nat, price: real): (seq<Lot>, real) {
    if quantity == 0 || queue == [] then (queue, 0.0)
    else if queue[0].quantity <= quantity then
      var (rest, pnl) := MatchLots(queue[1..], quantity - queue[0].quantity, price);
      (rest, (price - queue[0].price) * queue[0].quantity as real + pnl)
    else
      ([Lot(queue[0].quantity - quantity, queue[0].price)] + queue[1..], (price - queue[0].price) * quantity as real)
  }

  type Lots = map<Symbol, seq<Lot>>

  function Queue(lots: Lots, s: Symbol): seq<Lot> {
    if s in lots then lots[s] else []
  }

  datatype Trips = Trips(lots: Lots, trades: nat, wins: nat)

  function OnFill(t: Trips, f: FillRecord): Trips {
    var queue := Queue(t.lots, f.symbol);
    match f.side
    case Buy => t.(lots := t.lots[f.symbol := queue + [Lot(f.quantity, f.price)]])
    case Sell =>
      var (rest, pnl) := MatchLots(queue, f.quantity, f.price);
      Trips(t.lots[f.symbol := rest], t.trades + 1, if pnl > 0.0 then t.wins + 1 else t.wins)
  }

  function RoundTrips(fills: seq<FillRecord>): Trips {
    if fills == [] then Trips(map[], 0, 0) else OnFill(RoundTrips(fills[..|fills| - 1]), fills[|fills| - 1])
  }

  function FillTime(f: FillRecord): int {
    f.timestamp
  }

  function Percent(part: real, whole: real): real {
    if whole == 0.0 then 0.0 else part * 100.0 / whole
  }

  function Summarized(result: BacktestResult, initialCash: real): Summary {
    var trips := RoundTrips(SortBy(result.fills, FillTime));
    Summary(result.equity, Percent(result.equity - initialCash, initialCash), Drawdown(initialCash, result.curve),
            trips.trades, trips.wins, Percent(trips.wins as real, trips.trades as real),
            result.totalCommission, result.totalTax)
  }

  // ---- The loops ----

  method ComputeDrawdown(initial: real, curve: seq<Point>) returns (mdd: real)
    ensures mdd == Drawdown(initial, curve)
  {
    var peak := initial;
    mdd := 0.0;
    for i := 0 to |curve|
      invariant peak == Peak(initial, curve[..i]) && mdd == Drawdown(initial, curve[..i])
    {
      assert curve[..i + 1][..i] == curve[..i];
      var equity := curve[i].equity;
      if equity > peak {
        peak := equity;
      }
      if peak != 0.0 {
        var drawdown := (peak - equity) * 100.0 / peak;
        if drawdown > mdd {
          mdd := drawdown;
        }
      }
    }
    assert curve[..|curve|] == curve;
  }

  /** Selling `remaining` more from `queue` on top of `pnl` completes the sale of `quantity` from `lots`. */
  ghost predicate Pending(lots: seq<Lot>, quantity: nat, price: real, queue: seq<Lot>, remaining: nat, pnl: real) {
    var (rest, more) := MatchLots(queue, remaining, price);
    MatchLots(lots, quantity, price) == (rest, pnl + more)
  }

  lemma TakeLot(lots: seq<Lot>, quantity: nat, price: real, queue: seq<Lot>, remaining: nat, pnl: real, gain: real)
    requires Pending(lots, quantity, price, queue, remaining, pnl)
    requires remaining > 0 && queue != [] && queue[0].quantity <= remaining
    requires gain == (price - queue[0].price) * queue[0].quantity as real
    ensures Pending(lots, quantity, price, queue[1..], remaining - queue[0].quantity, pnl + gain)
  {
    var (rest, more) := MatchLots(queue[1..], remaining - queue[0].quantity, price);
    assert MatchLots(queue, remaining, price) == (rest, gain + more);
  }

  lemma TakePart(lots: seq<Lot>, quantity: nat, price: real, queue: seq<Lot>, remaining: nat, pnl: real, gain: real)
    requires Pending(lots, quantity, price, queue, remaining, pnl)
    requires remaining > 0 && queue != [] && queue[0].quantity > remaining
    requires gain == (price - queue[0].price) * remaining as real
    ensures var rest := [Lot(queue[0].quantity - remaining, queue[0].price)] + queue[1..];
      Pending(lots, quantity, price, rest, 0, pnl + gain)
  {
  }

  method ConsumeLots(lots: seq<Lot>, quantity: nat, price: real) returns (queue: seq<Lot>, pnl: real)
    ensures (queue, pnl) == MatchLots(lots, quantity, price)
  {
    queue, pnl := lots, 0.0;
    var remaining := quantity;
    assert MatchLots(lots, quantity, price).1 == 0.0 + MatchLots(lots, quantity, price).1;
    while remaining > 0
      invariant remaining >= 0 && Pending(lots, quantity, price, queue, remaining, pnl)
      decreases remaining
    {
      if queue == [] {
        break;
      }
      var front := queue[0];
      if front.quantity <= remaining {
        var gain := (price - front.price) * front.quantity as real;
        TakeLot(lots, quantity, price, queue, remaining, pnl, gain);
        pnl := pnl + gain;
        remaining := remaining - front.quantity;
        queue := queue[1..];
      } else {
        var gain := (price - front.price) * remaining as real;
        TakePart(lots, quantity, price, queue, remaining, pnl, gain);
        pnl := pnl + gain;
        queue := [Lot(front.quantity - remaining, front.price)] + queue[1..];
        remaining := 0;
      }
    }
  }

  method Summarize(result: BacktestResult, initialCash: real) returns (m: Summary)
    ensures m == Summarized(result, initialCash)
  {
    var mdd := ComputeDrawdown(initialCash, result.curve);
    var chronological := SortBy(result.fills, FillTime);
    var lots: Lots, trades: nat, wins: nat := map[], 0, 0;
    for i := 0 to |chronological|
      invariant Trips(lots, trades, wins) == RoundTrips(chronological[..i])
    {
      assert chronological[..i + 1][..i] == chronological[..i];
      var fill := chronological[i];
      var queue := if fill.symbol in lots then lots[fill.symbol] else [];
      match fill.side
      case Buy =>
        lots := lots[fill.symbol := queue + [Lot(fill.quantity, fill.price)]];
      case Sell =>
        var rest, pnl := ConsumeLots(queue, fill.quantity, fill.price);
        lots := lots[fill.symbol := rest];
        trades := trades + 1;
        if pnl > 0.0 {
          wins := wins + 1;
        }
    }
    assert chronological[..|chronological|] == chronological;
    var returnPct := if initialCash == 0.0 then 0.0 else (result.equity - initialCash) * 100.0 / initialCash;
    var winRatePct := if trades == 0 then 0.0 else wins as real * 100.0 / trades as real;
    m := Summary(result.equity, returnPct, mdd, trades, wins, winRatePct, result.totalCommission, result.totalTax);
  }
}
