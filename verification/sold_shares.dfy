/** First in, first out, share by share: the k-th share sold of a symbol is the k-th share bought. */
module SoldShares {
  import opened Types
  import opened Backtests
  import opened Metrics
  import opened Fifo

  // ---- The shares of a symbol, in the order of their purchase ----

  /** The price paid for each share bought of a symbol. */
  function Bought(fills: seq<FillRecord>, s: Symbol): seq<real> {
    if fills == [] then []
    else
      var front, f := fills[..|fills| - 1], fills[|fills| - 1];
      Bought(front, s) + if f.symbol == s && f.side.Buy? then Repeated(f.price, f.quantity) else []
  }

  /** How many of them were sold; a sell beyond the last one takes no share. */
  function Sold(fills: seq<FillRecord>, s: Symbol): (n: nat)
    ensures n <= |Bought(fills, s)|
  {
    if fills == [] then 0
    else
      var front, f := fills[..|fills| - 1], fills[|fills| - 1];
      if f.symbol == s && f.side.Sell? then Min(Sold(front, s) + f.quantity, |Bought(front, s)|) else Sold(front, s)
  }

  function Repeated(price: real, n: nat): (r: seq<real>)
    ensures |r| == n
  {
    if n == 0 then [] else [price] + Repeated(price, n - 1)
  }

  /** Selling these shares at this price. */
  function Earned(shares: seq<real>, price: real): real {
    if shares == [] then 0.0 else price - shares[0] + Earned(shares[1..], price)
  }

  /** What a sell earns: its price over what was paid for the oldest shares not yet sold. */
  function Earning(before: seq<FillRecord>, f: FillRecord): real {
    var bought, from := Bought(before, f.symbol), Sold(before, f.symbol);
    Earned(bought[from..Min(from + f.quantity, |bought|)], f.price)
  }

  function Earnings(fills: seq<FillRecord>): seq<real> {
    if fills == [] then []
    else
      var front, f := fills[..|fills| - 1], fills[|fills| - 1];
      if f.side.Buy? then Earnings(front) else Earnings(front) + [Earning(front, f)]
  }

  // ---- Lots are runs of shares ----

  function Spread(queue: seq<Lot>): seq<real> {
    if queue == [] then [] else Repeated(queue[0].price, queue[0].quantity) + Spread(queue[1..])
  }

  lemma {:induction false} EarnedJoins(xs: seq<real>, ys: seq<real>, price: real)
    ensures Earned(xs + ys, price) == Earned(xs, price) + Earned(ys, price)
    decreases |xs|
  {
    if xs == [] {
      assert [] + ys == ys;
    } else {
      EarnedJoins(xs[1..], ys, price);
      assert (xs + ys)[1..] == xs[1..] + ys;
    }
  }

  lemma {:induction false} EarnedRepeated(cost: real, n: nat, price: real)
    ensures Earned(Repeated(cost, n), price) == (price - cost) * n as real
    decreases n
  {
    if n > 0 {
      EarnedRepeated(cost, n - 1, price);
      EarnedJoins([cost], Repeated(cost, n - 1), price);
      OneTimesMore(price - cost, n);
    }
  }

  lemma OneTimesMore(gain: real, n: nat)
    requires n > 0
    ensures gain + gain * (n - 1) as real == gain * n as real
  {
    assert n as real == (n - 1) as real + 1.0;
  }

  lemma {:induction false} SpreadJoins(queue: seq<Lot>, lot: Lot)
    ensures Spread(queue + [lot]) == Spread(queue) + Repeated(lot.price, lot.quantity)
    decreases |queue|
  {
    if queue == [] {
      SpreadFront(lot, []);
      assert [] + [lot] == [lot] + [];
    } else {
      SpreadJoins(queue[1..], lot);
      assert queue + [lot] == [queue[0]] + (queue[1..] + [lot]);
      SpreadFront(queue[0], queue[1..] + [lot]);
    }
  }

  /** A sale takes the first shares, as many as there are. */
  function Kept(shares: seq<real>, quantity: nat): seq<real> {
    shares[Min(quantity, |shares|)..]
  }

  function Proceeds(shares: seq<real>, quantity: nat, price: real): real {
    Earned(shares[..Min(quantity, |shares|)], price)
  }

  lemma SellNone(shares: seq<real>, quantity: nat, price: real)
    requires quantity == 0 || shares == []
    ensures Kept(shares, quantity) == shares && Proceeds(shares, quantity, price) == 0.0
  {
  }

  lemma SellPrefix(first: seq<real>, left: seq<real>, quantity: nat, price: real)
    requires |first| == quantity || (|first| < quantity && left == [])
    ensures Kept(first + left, quantity) == left && Proceeds(first + left, quantity, price) == Earned(first, price)
  {
    assert (first + left)[..|first|] == first;
  }

  /** The loop over the lots does just that. */
  lemma {:induction false} MatchTakesFirst(queue: seq<Lot>, quantity: nat, price: real)
    ensures var (rest, pnl) := MatchLots(queue, quantity, price);
      Spread(rest) == Kept(Spread(queue), quantity) && pnl == Proceeds(Spread(queue), quantity, price)
    decreases |queue|
  {
    if quantity == 0 || queue == [] {
      SellNone(Spread(queue), quantity, price);
    } else if queue[0].quantity <= quantity {
      MatchTakesFirst(queue[1..], quantity - queue[0].quantity, price);
      TakeLot(queue[0], Spread(queue[1..]), quantity, price);
    } else {
      MatchPart(queue[0], queue[1..], quantity, price);
      assert queue == [queue[0]] + queue[1..];
    }
  }

  lemma TakeLot(lot: Lot, tail: seq<real>, quantity: nat, price: real)
    requires lot.quantity <= quantity
    ensures var shares, left := Repeated(lot.price, lot.quantity) + tail, quantity - lot.quantity;
      && Kept(shares, quantity) == Kept(tail, left)
      && Proceeds(shares, quantity, price) == (price - lot.price) * lot.quantity as real + Proceeds(tail, left, price)
  {
    var head, m := Repeated(lot.price, lot.quantity), Min(quantity - lot.quantity, |tail|);
    SellPrefix(head + tail[..m], tail[m..], quantity, price);
    assert head + tail == head + tail[..m] + tail[m..];
    EarnedJoins(head, tail[..m], price);
    EarnedRepeated(lot.price, lot.quantity, price);
  }

  lemma {:induction false} RepeatedJoins(price: real, m: nat, n: nat)
    ensures Repeated(price, m) + Repeated(price, n) == Repeated(price, m + n)
    decreases m
  {
    if m > 0 {
      RepeatedJoins(price, m - 1, n);
      assert Repeated(price, m) + Repeated(price, n) == [price] + (Repeated(price, m - 1) + Repeated(price, n));
    } else {
      assert [] + Repeated(price, n) == Repeated(price, n);
    }
  }

  lemma TakePart(lot: Lot, tail: seq<real>, quantity: nat, price: real)
    requires quantity < lot.quantity
    ensures var shares := Repeated(lot.price, lot.quantity) + tail;
      && Kept(shares, quantity) == Repeated(lot.price, lot.quantity - quantity) + tail
      && Proceeds(shares, quantity, price) == (price - lot.price) * quantity as real
  {
    var sold, kept := Repeated(lot.price, quantity), Repeated(lot.price, lot.quantity - quantity);
    RepeatedJoins(lot.price, quantity, lot.quantity - quantity);
    SellPrefix(sold, kept + tail, quantity, price);
    assert sold + (kept + tail) == sold + kept + tail;
    EarnedRepeated(lot.price, quantity, price);
  }

  lemma SpreadFront(lot: Lot, rest: seq<Lot>)
    ensures Spread([lot] + rest) == Repeated(lot.price, lot.quantity) + Spread(rest)
  {
    assert ([lot] + rest)[1..] == rest;
  }

  lemma MatchPart(lot: Lot, rest: seq<Lot>, quantity: nat, price: real)
    requires quantity < lot.quantity
    ensures var shares := Spread([lot] + rest);
      && Spread([Lot(lot.quantity - quantity, lot.price)] + rest) == Kept(shares, quantity)
      && (price - lot.price) * quantity as real == Proceeds(shares, quantity, price)
  {
    TakePart(lot, Spread(rest), quantity, price);
    SpreadFront(lot, rest);
    SpreadFront(Lot(lot.quantity - quantity, lot.price), rest);
  }

  // ---- Over a whole list of fills ----

  lemma RestThenMore(xs: seq<real>, from: nat, ys: seq<real>)
    requires from <= |xs|
    ensures (xs + ys)[from..] == xs[from..] + ys
  {
  }

  lemma RestOfRest(xs: seq<real>, from: nat, n: nat)
    requires from <= |xs|
    ensures Kept(xs[from..], n) == xs[Min(from + n, |xs|)..]
  {
  }

  /** The lots left of a symbol are its shares not yet sold. */
  lemma {:induction false} LotsLeft(fills: seq<FillRecord>, s: Symbol)
    ensures Spread(Queue(RoundTrips(fills).lots, s)) == Bought(fills, s)[Sold(fills, s)..]
    decreases |fills|
  {
    if fills != [] {
      var front, f := fills[..|fills| - 1], fills[|fills| - 1];
      LotsLeft(front, s);
      if f.symbol == s {
        var queue := Queue(RoundTrips(front).lots, s);
        if f.side.Buy? {
          SpreadJoins(queue, Lot(f.quantity, f.price));
          RestThenMore(Bought(front, s), Sold(front, s), Repeated(f.price, f.quantity));
        } else {
          MatchTakesFirst(queue, f.quantity, f.price);
          RestOfRest(Bought(front, s), Sold(front, s), f.quantity);
        }
      }
    }
  }

  lemma SaleEarns(front: seq<FillRecord>, f: FillRecord)
    ensures MatchLots(Queue(RoundTrips(front).lots, f.symbol), f.quantity, f.price).1 == Earning(front, f)
  {
    var queue := Queue(RoundTrips(front).lots, f.symbol);
    LotsLeft(front, f.symbol);
    MatchTakesFirst(queue, f.quantity, f.price);
    SliceOfRest(Bought(front, f.symbol), Sold(front, f.symbol), f.quantity);
  }

  lemma SliceOfRest(shares: seq<real>, from: nat, n: nat)
    requires from <= |shares|
    ensures shares[from..][..Min(n, |shares[from..]|)] == shares[from..Min(from + n, |shares|)]
  {
  }

  /** First in, first out, whatever is bought and sold: every sell earns on the oldest shares left. */
  lemma {:induction false} FirstInFirstOut(fills: seq<FillRecord>)
    ensures TripPnls(fills) == Earnings(fills)
    decreases |fills|
  {
    if fills != [] {
      FirstInFirstOut(fills[..|fills| - 1]);
      if fills[|fills| - 1].side.Sell? {
        SaleEarns(fills[..|fills| - 1], fills[|fills| - 1]);
      }
    }
  }
}
