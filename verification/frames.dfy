/** Realtime tick frames: pipe-separated fields, the fourth of which holds caret-separated records of fixed width. */
module Frames {
  import opened Types

  const WIDTH := 47
  const SYMBOL_COLUMN := 0
  const TIME_COLUMN := 1
  const PRICE_COLUMN := 2
  const DATE_COLUMN := 33

  datatype FrameError = UnexpectedFrame | NotMultiple(count: nat, width: nat) | BadField(field: string)

  /** The decimal and date-time parsers of the platform libraries. */
  datatype Decoders = Decoders(price: string -> Option<real>, instant: string -> Option<int>)

  /** Cut at every separator; n separators give n + 1 pieces. */
  function Split(s: string, sep: char): (pieces: seq<string>)
    ensures |pieces| >= 1
  {
    if s == [] then [[]]
    else
      var pieces, last := Split(s[..|s| - 1], sep), s[|s| - 1];
      if last == sep then pieces + [[]] else pieces[..|pieces| - 1] + [pieces[|pieces| - 1] + [last]]
  }

  function Join(pieces: seq<string>, sep: char): string
    requires pieces != []
  {
    if |pieces| == 1 then pieces[0] else Join(pieces[..|pieces| - 1], sep) + [sep] + pieces[|pieces| - 1]
  }

  predicate IsDigit(c: char) {
    '0' <= c <= '9'
  }

  function Number(digits: string): nat
    requires forall i :: 0 <= i < |digits| ==> IsDigit(digits[i])
  {
    if digits == [] then 0
    else
      assert IsDigit(digits[|digits| - 1]);
      10 * Number(digits[..|digits| - 1]) + (digits[|digits| - 1] as int - '0' as int)
  }

  /** A ticker is exactly six digits. */
  function ParseSymbol(text: string): Option<Symbol> {
    if |text| == 6 && forall i :: 0 <= i < |text| ==> IsDigit(text[i]) then Some(Symbol(Number(text))) else None
  }

  function Decode(d: Decoders, record: seq<string>): Result<Quote, FrameError>
    requires |record| == WIDTH
  {
    var symbol := ParseSymbol(record[SYMBOL_COLUMN]);
    if symbol.None? then Err(BadField("MKSC_SHRN_ISCD"))
    else
      var price := d.price(record[PRICE_COLUMN]);
      if price.None? then Err(BadField("STCK_PRPR"))
      else
        var instant := d.instant(record[DATE_COLUMN] + record[TIME_COLUMN]);
        if instant.None? then Err(BadField("BSOP_DATE+STCK_CNTG_HOUR"))
        else Ok(Quote(symbol.value, price.value, instant.value))
  }

  /** The first undecodable record ends the frame. */
  function DecodeAll(d: Decoders, values: seq<string>, records: nat): Result<seq<Quote>, FrameError>
    requires records * WIDTH <= |values|
  {
    if records == 0 then Ok([])
    else
      match DecodeAll(d, values, records - 1)
      case Err(e) => Err(e)
      case Ok(quotes) =>
        match Decode(d, values[(records - 1) * WIDTH..records * WIDTH])
        case Err(e) => Err(e)
        case Ok(quote) => Ok(quotes + [quote])
  }

  function ParseFrame(d: Decoders, raw: string): Result<seq<Quote>, FrameError> {
    var fields := Split(raw, '|');
    if |fields| < 4 || fields[1] != "H0STCNT0" then Err(UnexpectedFrame)
    else
      var values := Split(fields[3], '^');
      if |values| % WIDTH != 0 then Err(NotMultiple(|values|, WIDTH))
      else DecodeAll(d, values, |values| / WIDTH)
  }

  method ParseMarketData(d: Decoders, raw: string) returns (r: Result<seq<Quote>, FrameError>)
    ensures r == ParseFrame(d, raw)
  {
    var fields := Split(raw, '|');
    if |fields| < 4 || fields[1] != "H0STCNT0" {
      return Err(UnexpectedFrame);
    }
    var values := Split(fields[3], '^');
    if |values| % WIDTH != 0 {
      return Err(NotMultiple(|values|, WIDTH));
    }
    var quotes, total := [], |values| / WIDTH;
    for k := 0 to total
      invariant DecodeAll(d, values, k) == Ok(quotes)
    {
      var record := values[k * WIDTH..(k + 1) * WIDTH];
      var quote := Decode(d, record);
      if quote.Err? {
        StopsAtError(d, values, k + 1, total);
        return Err(quote.error);
      }
      quotes := quotes + [quote.value];
    }
    r := Ok(quotes);
  }

  lemma {:induction false} StopsAtError(d: Decoders, values: seq<string>, k: nat, total: nat)
    requires k <= total && total * WIDTH <= |values| && DecodeAll(d, values, k).Err?
    ensures DecodeAll(d, values, total) == DecodeAll(d, values, k)
    decreases total
  {
    if k < total {
      StopsAtError(d, values, k, total - 1);
    }
  }

  // ---- Round trip ----

  ghost predicate Free(piece: string, sep: char) {
    sep !in piece
  }

  lemma {:induction false} SplitFree(piece: string, sep: char)
    requires Free(piece, sep)
    ensures Split(piece, sep) == [piece]
    decreases |piece|
  {
    if piece != [] {
      var n := |piece| - 1;
      SplitFree(piece[..n], sep);
      assert piece == piece[..n] + [piece[n]];
    }
  }

  /** Text behind a separator only adds a piece. */
  lemma {:induction false} SplitAppend(s: string, piece: string, sep: char)
    requires Free(piece, sep)
    ensures Split(s + [sep] + piece, sep) == Split(s, sep) + [piece]
    decreases |piece|
  {
    var t := s + [sep] + piece;
    if piece == [] {
      assert t[..|t| - 1] == s;
    } else {
      var n := |piece| - 1;
      SplitAppend(s, piece[..n], sep);
      assert t[..|t| - 1] == s + [sep] + piece[..n];
      assert piece == piece[..n] + [piece[n]];
    }
  }

  /** Splitting what was joined gives the pieces back. */
  lemma {:induction false} SplitJoin(pieces: seq<string>, sep: char)
    requires pieces != [] && forall i :: 0 <= i < |pieces| ==> Free(pieces[i], sep)
    ensures Split(Join(pieces, sep), sep) == pieces
    decreases |pieces|
  {
    var n := |pieces| - 1;
    if n == 0 {
      SplitFree(pieces[0], sep);
      assert pieces == [pieces[0]];
    } else {
      SplitJoin(pieces[..n], sep);
      SplitAppend(Join(pieces[..n], sep), pieces[n], sep);
      assert pieces == pieces[..n] + [pieces[n]];
    }
  }

  lemma {:induction false} JoinFree(pieces: seq<string>, sep: char, other: char)
    requires pieces != [] && sep != other && forall i :: 0 <= i < |pieces| ==> Free(pieces[i], other)
    ensures Free(Join(pieces, sep), other)
    decreases |pieces|
  {
    if |pieces| > 1 {
      JoinFree(pieces[..|pieces| - 1], sep, other);
    }
  }

  /** The values of the records one after the other. */
  function Flat(records: seq<seq<string>>): seq<string> {
    if records == [] then [] else Flat(records[..|records| - 1]) + records[|records| - 1]
  }

  /** A record of the right width whose values hold no separator. */
  ghost predicate Framed(record: seq<string>) {
    |record| == WIDTH && forall i :: 0 <= i < |record| ==> Free(record[i], '|') && Free(record[i], '^')
  }

  ghost predicate Wellformed(d: Decoders, record: seq<string>) {
    Framed(record) && Decode(d, record).Ok?
  }

  lemma {:induction false} FlatFacts(records: seq<seq<string>>)
    requires forall i :: 0 <= i < |records| ==> Framed(records[i])
    ensures |Flat(records)| == |records| * WIDTH
    ensures forall i :: 0 <= i < |Flat(records)| ==> Free(Flat(records)[i], '|') && Free(Flat(records)[i], '^')
    decreases |records|
  {
    if records != [] {
      FlatFacts(records[..|records| - 1]);
    }
  }

  ghost function QuotesOf(d: Decoders, records: seq<seq<string>>): seq<Quote>
    requires forall i :: 0 <= i < |records| ==> Wellformed(d, records[i])
  {
    seq(|records|, i requires 0 <= i < |records| => (assert Wellformed(d, records[i]); Decode(d, records[i]).value))
  }

  lemma {:induction false} DecodeFlat(d: Decoders, records: seq<seq<string>>, tail: seq<string>)
    requires forall i :: 0 <= i < |records| ==> Wellformed(d, records[i])
    ensures |Flat(records)| == |records| * WIDTH
    ensures DecodeAll(d, Flat(records) + tail, |records|) == Ok(QuotesOf(d, records))
    decreases |records|
  {
    FlatFacts(records);
    if records == [] {
      assert QuotesOf(d, records) == [];
    } else {
      var n := |records| - 1;
      var front, last := records[..n], records[n];
      DecodeFlat(d, front, last + tail);
      DecodeNext(d, Flat(front), last, tail, n, QuotesOf(d, front));
      FlatOneMore(d, records, tail);
    }
  }

  lemma FlatOneMore(d: Decoders, records: seq<seq<string>>, tail: seq<string>)
    requires records != [] && forall i :: 0 <= i < |records| ==> Wellformed(d, records[i])
    ensures var front, last := records[..|records| - 1], records[|records| - 1];
      && Flat(records) + tail == Flat(front) + (last + tail)
      && QuotesOf(d, records) == QuotesOf(d, front) + [Decode(d, last).value]
  {
  }

  lemma DecodeNext(d: Decoders, values: seq<string>, record: seq<string>, tail: seq<string>, n: nat, quotes: seq<Quote>)
    requires |values| == n * WIDTH && |record| == WIDTH
    requires DecodeAll(d, values + (record + tail), n) == Ok(quotes) && Decode(d, record).Ok?
    ensures DecodeAll(d, values + (record + tail), n + 1) == Ok(quotes + [Decode(d, record).value])
  {
    var all := values + (record + tail);
    assert all[n * WIDTH..(n + 1) * WIDTH] == record;
  }

  /** A frame as the venue sends it: flag, transaction id, record count, records. */
  function FrameOf(flag: string, count: string, records: seq<seq<string>>): string
    requires Flat(records) != []
  {
    Join([flag, "H0STCNT0", count, Join(Flat(records), '^')], '|')
  }

  lemma FrameFields(flag: string, count: string, body: string)
    requires Free(flag, '|') && Free(count, '|') && Free(body, '|')
    ensures Split(Join([flag, "H0STCNT0", count, body], '|'), '|') == [flag, "H0STCNT0", count, body]
  {
    var fields := [flag, "H0STCNT0", count, body];
    forall i | 0 <= i < |fields|
      ensures Free(fields[i], '|')
    {
      assert i == 0 || i == 1 || i == 2 || i == 3;
    }
    SplitJoin(fields, '|');
  }

  /** What the parser sees of a frame made of given values. */
  lemma FrameValues(flag: string, count: string, values: seq<string>)
    requires Free(flag, '|') && Free(count, '|') && values != []
    requires forall i :: 0 <= i < |values| ==> Free(values[i], '|') && Free(values[i], '^')
    ensures var fields := Split(Join([flag, "H0STCNT0", count, Join(values, '^')], '|'), '|');
      |fields| == 4 && fields[1] == "H0STCNT0" && Split(fields[3], '^') == values
  {
    JoinFree(values, '^', '|');
    FrameFields(flag, count, Join(values, '^'));
    SplitJoin(values, '^');
  }

  lemma WholeRecords(values: nat, records: nat)
    requires values == records * WIDTH
    ensures values % WIDTH == 0 && values / WIDTH == records
  {
  }

  lemma ParsedFrame(d: Decoders, flag: string, count: string, values: seq<string>, records: nat)
    requires Free(flag, '|') && Free(count, '|') && values != [] && |values| == records * WIDTH
    requires forall i :: 0 <= i < |values| ==> Free(values[i], '|') && Free(values[i], '^')
    ensures ParseFrame(d, Join([flag, "H0STCNT0", count, Join(values, '^')], '|')) == DecodeAll(d, values, records)
  {
    WholeRecords(|values|, records);
    FrameValues(flag, count, values);
  }

  lemma DecodedRecords(d: Decoders, records: seq<seq<string>>)
    requires forall i :: 0 <= i < |records| ==> Wellformed(d, records[i])
    ensures |Flat(records)| == |records| * WIDTH
    ensures DecodeAll(d, Flat(records), |records|) == Ok(QuotesOf(d, records))
  {
    DecodeFlat(d, records, []);
    assert Flat(records) + [] == Flat(records);
  }

  /** Joining well-formed records and parsing the frame gives exactly their quotes, in order. */
  lemma FrameRoundTrip(d: Decoders, flag: string, count: string, records: seq<seq<string>>)
    requires records != [] && Free(flag, '|') && Free(count, '|')
    requires forall i :: 0 <= i < |records| ==> Wellformed(d, records[i])
    ensures Flat(records) != []
    ensures ParseFrame(d, FrameOf(flag, count, records)) == Ok(QuotesOf(d, records))
  {
    FlatFacts(records);
    ParsedFrame(d, flag, count, Flat(records), |records|);
    DecodedRecords(d, records);
  }

  // ---- Column by column ----

  function DigitAt(text: string, i: nat): int
    requires i < |text|
  {
    text[i] as int - '0' as int
  }

  /** Six decimal digits, and the number they write. */
  predicate Writes(text: string, n: int) {
    && |text| == 6 && (forall i :: 0 <= i < 6 ==> 0 <= DigitAt(text, i) <= 9)
    && n == 100000 * DigitAt(text, 0) + 10000 * DigitAt(text, 1) + 1000 * DigitAt(text, 2)
            + 100 * DigitAt(text, 3) + 10 * DigitAt(text, 4) + DigitAt(text, 5)
  }

  predicate SixDigits(text: string) {
    |text| == 6 && forall i :: 0 <= i < 6 ==> 0 <= DigitAt(text, i) <= 9
  }

  lemma SymbolIsSixDigits(text: string)
    ensures ParseSymbol(text).Some? <==> SixDigits(text)
    ensures ParseSymbol(text).Some? ==> Writes(text, ParseSymbol(text).value.ticker)
  {
    assert |text| == 6 ==> forall i :: 0 <= i < 6 ==> (IsDigit(text[i]) <==> 0 <= DigitAt(text, i) <= 9);
    if ParseSymbol(text).Some? {
      assert text[..5][..4] == text[..4] && text[..4][..3] == text[..3] && text[..3][..2] == text[..2];
      assert text[..2][..1] == text[..1] && text[..1][..0] == [];
      assert Number(text) == 10 * Number(text[..5]) + DigitAt(text, 5);
      assert Number(text[..5]) == 10 * Number(text[..4]) + DigitAt(text, 4);
      assert Number(text[..4]) == 10 * Number(text[..3]) + DigitAt(text, 3);
      assert Number(text[..3]) == 10 * Number(text[..2]) + DigitAt(text, 2);
      assert Number(text[..2]) == 10 * Number(text[..1]) + DigitAt(text, 1);
      assert Number(text[..1]) == DigitAt(text, 0);
    }
  }

  /** Ticker in column 0, price in column 2, and the instant from the date in column 33 and the time in column 1. */
  predicate ReadFrom(d: Decoders, record: seq<string>, q: Quote) {
    && |record| == 47 && Writes(record[0], q.symbol.ticker)
    && d.price(record[2]) == Some(q.lastPrice) && d.instant(record[33] + record[1]) == Some(q.timestamp)
  }

  /** The quotes of a frame, column by column. */
  lemma FrameColumns(d: Decoders, flag: string, count: string, records: seq<seq<string>>)
    requires records != [] && Free(flag, '|') && Free(count, '|')
    requires forall i :: 0 <= i < |records| ==> Wellformed(d, records[i])
    ensures Flat(records) != []
    ensures var r := ParseFrame(d, FrameOf(flag, count, records));
      r.Ok? && |r.value| == |records| && forall i :: 0 <= i < |records| ==> ReadFrom(d, records[i], r.value[i])
  {
    FrameRoundTrip(d, flag, count, records);
    forall i | 0 <= i < |records|
      ensures ReadFrom(d, records[i], QuotesOf(d, records)[i])
    {
      assert Wellformed(d, records[i]);
      SymbolIsSixDigits(records[i][0]);
    }
  }

  lemma {:induction false} FlatSplits(records: seq<seq<string>>, k: nat)
    requires k < |records|
    ensures Flat(records) == Flat(records[..k]) + (records[k] + Flat(records[k + 1..]))
    decreases |records|
  {
    var n := |records| - 1;
    if k < n {
      FlatSplits(records[..n], k);
      assert records[..n][..k] == records[..k] && records[k + 1..][..n - k - 1] == records[..n][k + 1..];
    } else {
      assert records[k + 1..] == [];
    }
  }

  /** Which field of a record is the first bad one: ticker, then price, then instant. */
  predicate BadAt(d: Decoders, record: seq<string>, field: string)
    requires |record| == WIDTH
  {
    var ticker, price := SixDigits(record[0]), d.price(record[2]).Some?;
    var instant := d.instant(record[33] + record[1]).Some?;
    || (!ticker && field == "MKSC_SHRN_ISCD")
    || (ticker && !price && field == "STCK_PRPR")
    || (ticker && price && !instant && field == "BSOP_DATE+STCK_CNTG_HOUR")
  }

  lemma StopsAtBadRecord(d: Decoders, records: seq<seq<string>>, k: nat)
    requires k < |records| && forall i :: 0 <= i < |records| ==> Framed(records[i])
    requires forall i :: 0 <= i < k ==> Wellformed(d, records[i])
    requires |records[k]| == WIDTH && Decode(d, records[k]).Err?
    ensures |Flat(records)| == |records| * WIDTH
    ensures DecodeAll(d, Flat(records), |records|) == Err(Decode(d, records[k]).error)
  {
    var front, rest := records[..k], Flat(records[k + 1..]);
    FlatFacts(records);
    FlatSplits(records, k);
    assert forall i :: 0 <= i < |front| ==> front[i] == records[i];
    DecodeFlat(d, front, records[k] + rest);
    BadNext(d, Flat(front), records[k], rest, k);
    StopsAtError(d, Flat(records), k + 1, |records|);
  }

  /** The first bad record fails the whole frame, with its first bad field. */
  lemma FirstBadRecord(d: Decoders, flag: string, count: string, records: seq<seq<string>>, k: nat)
    requires Free(flag, '|') && Free(count, '|')
    requires k < |records| && forall i :: 0 <= i < |records| ==> Framed(records[i])
    requires forall i :: 0 <= i < k ==> Wellformed(d, records[i])
    requires |records[k]| == WIDTH && Decode(d, records[k]).Err?
    ensures Flat(records) != []
    ensures var r := ParseFrame(d, FrameOf(flag, count, records));
      r.Err? && r.error.BadField? && BadAt(d, records[k], r.error.field)
  {
    FlatFacts(records);
    StopsAtBadRecord(d, records, k);
    ParsedFrame(d, flag, count, Flat(records), |records|);
    SymbolIsSixDigits(records[k][0]);
  }

  lemma BadNext(d: Decoders, values: seq<string>, record: seq<string>, tail: seq<string>, n: nat)
    requires |values| == n * WIDTH && |record| == WIDTH
    requires DecodeAll(d, values + (record + tail), n).Ok? && Decode(d, record).Err?
    ensures DecodeAll(d, values + (record + tail), n + 1) == Err(Decode(d, record).error)
  {
    var all := values + (record + tail);
    assert all[n * WIDTH..(n + 1) * WIDTH] == record;
  }

  /** A message of another transaction is not a tick frame, whatever it holds. */
  lemma OtherTransactions(d: Decoders, flag: string, transaction: string, count: string, body: string)
    requires transaction != "H0STCNT0"
    requires Free(flag, '|') && Free(transaction, '|') && Free(count, '|') && Free(body, '|')
    ensures ParseFrame(d, Join([flag, transaction, count, body], '|')) == Err(UnexpectedFrame)
  {
    var fields := [flag, transaction, count, body];
    forall i | 0 <= i < |fields|
      ensures Free(fields[i], '|')
    {
      assert i == 0 || i == 1 || i == 2 || i == 3;
    }
    SplitJoin(fields, '|');
  }

  /** A value count that is not a multiple of the width yields no quotes, whatever the values are. */
  lemma WrongWidthYieldsNothing(d: Decoders, flag: string, count: string, values: seq<string>)
    requires Free(flag, '|') && Free(count, '|') && |values| % WIDTH != 0
    requires forall i :: 0 <= i < |values| ==> Free(values[i], '|') && Free(values[i], '^')
    ensures values != []
    ensures ParseFrame(d, Join([flag, "H0STCNT0", count, Join(values, '^')], '|')) == Err(NotMultiple(|values|, WIDTH))
  {
    FrameValues(flag, count, values);
  }
}
