/** The bounded window of past closes that strategies may see, and the moving average over it. */
module Histories {
  import opened Types

  /** The newest `n` values. */
  function Tail(s: seq<real>, n: nat): (r: seq<real>)
    ensures |r| == if |s| <= n then |s| else n
  {
    if |s| <= n then s else s[|s| - n..]
  }

  type Window = map<Symbol, seq<real>>

  function Closes(w: Window, s: Symbol): seq<real> {
    if s in w then w[s] else []
  }

  function PushClose(w: Window, capacity: nat, s: Symbol, close: real): Window {
    w[s := Tail(Closes(w, s) + [close], capacity)]
  }

  /** Trimming after each push or once at the end is the same. */
  lemma TailAppend(s: seq<real>, capacity: nat, close: real)
    requires capacity > 0
    ensures Tail(Tail(s, capacity) + [close], capacity) == Tail(s + [close], capacity)
  {
  }

  function Total(s: seq<real>): real {
    if s == [] then 0.0 else Total(s[..|s| - 1]) + s[|s| - 1]
  }

  function Sma(closes: seq<real>, period: nat): Option<real> {
    if period == 0 || |closes| < period then None
    else Some(Total(closes[|closes| - period..]) / period as real)
  }

  class HistoryWindow {
    const capacity: nat
    var inner: map<Symbol, seq<real>>

    constructor (capacity: nat)
      requires capacity > 0
      ensures this.capacity == capacity && inner == map[]
    {
      this.capacity := capacity;
      inner := map[];
    }

    method Push(symbol: Symbol, close: real)
      modifies this
      ensures inner == PushClose(old(inner), capacity, symbol, close)
    {
      var queue := if symbol in inner then inner[symbol] else [];
      queue := queue + [close];
      ghost var full, dropped := queue, 0;
      while |queue| > capacity
        invariant dropped <= |full| && queue == full[dropped..]
        invariant dropped == 0 || |queue| >= capacity
      {
        queue := queue[1..];
        dropped := dropped + 1;
      }
      inner := inner[symbol := queue];
    }
  }
}
