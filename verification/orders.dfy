/** Order intents, validated orders, and the text form of order ids. */
module Orders {
  import opened Types
  import opened Portfolios

  /** A desired trade, before validation, risk checks and id assignment. */
  datatype OrderIntent = OrderIntent(
    symbol: Symbol, side: OrderSide, orderType: OrderType, quantity: int, limitPrice: Option<real>)

  function MarketIntent(s: Symbol, side: OrderSide, quantity: int): OrderIntent {
    OrderIntent(s, side, OrderType.Market, quantity, None)
  }

  datatype Order = Order(
    clientOrderId: string, symbol: Symbol, side: OrderSide, orderType: OrderType, quantity: Shares,
    limitPrice: Option<real>)

  /** What a broker is asked. Nothing in its type keeps the quantity positive. */
  datatype OrderRequest = OrderRequest(
    clientOrderId: string, symbol: Symbol, side: OrderSide, orderType: OrderType, quantity: int,
    limitPrice: Option<real>)

  function RequestOf(order: Order): OrderRequest {
    OrderRequest(
      order.clientOrderId, order.symbol, order.side, order.orderType, order.quantity, order.limitPrice)
  }

  /** `Order::new`: the shape an order must have before it may exist. */
  function NewOrder(id: string, intent: OrderIntent): Result<Order, DomainError> {
    if intent.quantity <= 0 then Err(NonPositiveQuantity)
    else if intent.orderType.Limit? && (intent.limitPrice.None? || intent.limitPrice.value <= 0.0) then
      Err(LimitNeedsPrice)
    else if intent.orderType.Market? && intent.limitPrice.Some? then Err(MarketCarriesPrice)
    else Ok(Order(id, intent.symbol, intent.side, intent.orderType, intent.quantity, intent.limitPrice))
  }

  /** An order exists exactly for a well-shaped intent, and asks for what the intent asks. */
  lemma WellShaped(id: string, it: OrderIntent)
    ensures NewOrder(id, it).Ok? <==>
      && it.quantity > 0
      && (if it.orderType.Limit? then it.limitPrice.Some? && it.limitPrice.value > 0.0 else it.limitPrice.None?)
    ensures NewOrder(id, it).Ok? ==>
      RequestOf(NewOrder(id, it).value)
        == OrderRequest(id, it.symbol, it.side, it.orderType, it.quantity, it.limitPrice)
  {
  }

  // ---- Ids: `{prefix}-{seq:04}` for clients, `MOCK-{n}` at the mock venue ----

  function Digits(n: nat): string
    ensures |Digits(n)| > 0
  {
    if n < 10 then [Digit(n)] else Digits(n / 10) + [Digit(n % 10)]
  }

  function Digit(d: nat): char
    requires d < 10
  {
    "0123456789"[d]
  }

  function Zeros(k: nat): string {
    seq(k, _ => '0')
  }

  /** Zero-padded to at least four digits. */
  function Padded(n: nat): string {
    var d := Digits(n);
    if |d| < 4 then Zeros(4 - |d|) + d else d
  }

  function ClientId(prefix: string, n: nat): string {
    prefix + "-" + Padded(n)
  }

  function MockId(n: nat): string {
    "MOCK-" + Digits(n)
  }

  ghost function Value(s: string): int {
    if s == [] then 0 else 10 * Value(s[..|s| - 1]) + (s[|s| - 1] as int - '0' as int)
  }

  lemma {:induction false} DigitsValue(n: nat)
    ensures Value(Digits(n)) == n
    ensures '-' !in Digits(n)
  {
    if n < 10 {
      assert Digits(n)[..0] == [];
    } else {
      DigitsValue(n / 10);
      assert Digits(n)[..|Digits(n)| - 1] == Digits(n / 10);
    }
  }

  lemma {:induction false} ZerosValue(k: nat, s: string)
    ensures Value(Zeros(k) + s) == Value(s)
    decreases |s|, k
  {
    var t := Zeros(k) + s;
    if s != [] {
      assert t[..|t| - 1] == Zeros(k) + s[..|s| - 1];
      ZerosValue(k, s[..|s| - 1]);
    } else if k > 0 {
      assert t[..|t| - 1] == Zeros(k - 1) + s;
      ZerosValue(k - 1, s);
    } else {
      assert t == s;
    }
  }

  lemma PaddedValue(n: nat)
    ensures Value(Padded(n)) == n
    ensures '-' !in Padded(n)
  {
    DigitsValue(n);
    if |Digits(n)| < 4 {
      ZerosValue(4 - |Digits(n)|, Digits(n));
    }
  }

  /** Small numbers are padded to four characters, larger ones are not padded. */
  lemma PaddedWidth(n: nat)
    ensures |Padded(n)| == if n < 10000 then 4 else |Digits(n)|
    ensures Value(Padded(n)) == n && forall i :: 0 <= i < |Padded(n)| ==> '0' <= Padded(n)[i] <= '9'
  {
    PaddedValue(n);
    DigitsAreDigits(n);
    DigitsLength(n);
  }

  lemma {:induction false} DigitsAreDigits(n: nat)
    ensures forall i :: 0 <= i < |Digits(n)| ==> '0' <= Digits(n)[i] <= '9'
  {
    if n >= 10 {
      DigitsAreDigits(n / 10);
    }
  }

  lemma DigitsLength(n: nat)
    ensures n < 10000 <==> |Digits(n)| <= 4
  {
    var a, b, c := n / 10, n / 100, n / 1000;
    assert a / 10 == b && b / 10 == c;
    assert n >= 10 ==> Digits(n) == Digits(a) + [Digit(n % 10)];
    assert a >= 10 ==> Digits(a) == Digits(b) + [Digit(a % 10)];
    assert b >= 10 ==> Digits(b) == Digits(c) + [Digit(b % 10)];
    assert c >= 10 ==> Digits(c) == Digits(c / 10) + [Digit(c % 10)];
  }

  /** Client ids never collide: neither across sequence numbers nor across prefixes. */
  lemma ClientIdInjective(p: string, m: nat, q: string, n: nat)
    requires ClientId(p, m) == ClientId(q, n)
    ensures p == q && m == n
  {
    PaddedValue(m);
    PaddedValue(n);
    var id := ClientId(p, m);
    var a, b := Padded(m), Padded(n);
    assert id[|p|] == '-' && id[|q|] == '-';
    assert forall k :: |p| < k < |id| ==> id[k] == a[k - |p| - 1];
    assert forall k :: |q| < k < |id| ==> id[k] == b[k - |q| - 1];
    assert |p| == |q|;
    assert id[|p| + 1..] == a && id[|q| + 1..] == b;
    assert id[..|p|] == p && id[..|q|] == q;
  }

  lemma MockIdInjective(m: nat, n: nat)
    requires MockId(m) == MockId(n)
    ensures m == n
  {
    DigitsValue(m);
    DigitsValue(n);
    assert MockId(m)[5..] == Digits(m) && MockId(n)[5..] == Digits(n);
  }
}
