/**
 * The record writer of service/Schedule.ts: each fetched quote becomes one line of the day file,
 * nine `key:value` segments joined by `|`, which the tick parser of service/KLineAnalyze.ts
 * reads back.
 */
module Schedule {
  import opened Wrappers
  import opened Text
  import opened JsNumber
  import opened KLineTicks
  import opened SinaQuote

  /**
   * What the timer callback receives: the keyed quote, plus the alternative property names its
   * `??` chains also try (`name`, `symbol`, `price`, `at` and a `fields` array).
   */
  datatype Fetched = Fetched(
    quote: Quote,
    name: Option<string>,
    symbol: Option<string>,
    price: Option<string>,
    at: Option<string>,
    fields: Option<seq<Option<string>>>)

  /** The record `getFutures` itself returns: only the keyed fields. */
  function FromQuote(q: Quote): Fetched {
    Fetched(q, None, None, None, None, None)
  }

  /** `a ?? b`. */
  function Coalesce(a: Option<string>, b: string): string {
    match a
    case Some(v) => v
    case None => b
  }

  /** `fields?.[k]`: undefined without an array or past its end. */
  function FieldAt(fields: Option<seq<Option<string>>>, k: nat): Option<string> {
    match fields
    case None => None
    case Some(fs) => if k < |fs| then fs[k] else None
  }

  /** The nine values written, in line order. */
  datatype Row = Row(
    name: string,
    nowPrice: string,
    buyPrice: string,
    sellPrice: string,
    highPrice: string,
    lowPrice: string,
    today: string,
    now: string,
    openPrice: string)

  /** Each value falls back through its alternatives and finally to `''`. */
  function RowOf(res: Fetched): Row {
    var q := res.quote;
    Row(
      Coalesce(q.name, Coalesce(res.name, Coalesce(res.symbol, ""))),
      Coalesce(q.nowPrice, Coalesce(res.price, Coalesce(FieldAt(res.fields, 1), ""))),
      Coalesce(q.buyPrice, Coalesce(FieldAt(res.fields, 2), "")),
      Coalesce(q.sellPrice, Coalesce(FieldAt(res.fields, 3), "")),
      Coalesce(q.highPrice, Coalesce(FieldAt(res.fields, 4), "")),
      Coalesce(q.lowPrice, Coalesce(FieldAt(res.fields, 5), "")),
      Coalesce(q.today, ""),
      Coalesce(q.now, Coalesce(res.at, "")),
      Coalesce(q.openPrice, Coalesce(FieldAt(res.fields, 6), "")))
  }

  /** The keys of the line, in order. */
  const LineKeys: seq<string> := ["名称", "现价", "买价", "卖价", "最高价", "最低价", "今日时间", "当前时间", "今日开盘价"]

  function RowValues(row: Row): seq<string> {
    [row.name, row.nowPrice, row.buyPrice, row.sellPrice, row.highPrice, row.lowPrice, row.today, row.now, row.openPrice]
  }

  /** The segments `key:value`, one per key. */
  function Segments(row: Row): (r: seq<string>)
    ensures |r| == 9
    ensures forall i :: 0 <= i < 9 ==> r[i] == LineKeys[i] + ":" + RowValues(row)[i]
  {
    var v := RowValues(row);
    seq(9, i requires 0 <= i < 9 => LineKeys[i] + ":" + v[i])
  }

  /** The text appended to the day file. */
  function RecordLine(row: Row): string {
    Join(Segments(row), '|') + "\n"
  }

  /** The timer callback's write: nothing when the fetch gave nothing. */
  function ScheduledWrite(res: Option<Fetched>): (r: Option<string>)
    ensures r.None? <==> res.None?
  {
    match res
    case None => None
    case Some(f) => Some(RecordLine(RowOf(f)))
  }

  predicate NoBar(row: Row) {
    forall i :: 0 <= i < 9 ==> '|' !in RowValues(row)[i]
  }

  // ---- properties ----

  /** A record from `getFutures` writes its own fields, with `''` for each missing one. */
  lemma QuoteFieldsWritten(q: Quote)
    ensures RowOf(FromQuote(q)) ==
      Row(Coalesce(q.name, ""), Coalesce(q.nowPrice, ""), Coalesce(q.buyPrice, ""), Coalesce(q.sellPrice, ""),
          Coalesce(q.highPrice, ""), Coalesce(q.lowPrice, ""), Coalesce(q.today, ""), Coalesce(q.now, ""),
          Coalesce(q.openPrice, ""))
  {
  }

  /** A missing keyed price falls back to `price`, then to `fields[1]`, then to `''`. */
  lemma PriceFallbackOrder(res: Fetched)
    requires res.quote.nowPrice.None?
    ensures res.price.Some? ==> RowOf(res).nowPrice == res.price.value
    ensures res.price.None? && FieldAt(res.fields, 1).Some? ==> RowOf(res).nowPrice == FieldAt(res.fields, 1).value
    ensures res.price.None? && FieldAt(res.fields, 1).None? ==> RowOf(res).nowPrice == ""
  {
  }

  lemma {:induction false} JoinAvoidsNewline(parts: seq<string>)
    requires forall i :: 0 <= i < |parts| ==> '\n' !in parts[i]
    ensures '\n' !in Join(parts, '|')
    decreases |parts|
  {
    if |parts| > 1 {
      JoinAvoidsNewline(parts[1..]);
    }
  }

  /** The line is nine segments joined by `|` and ends in exactly one line break. */
  lemma LineHasNineSegments(row: Row)
    requires NoBar(row)
    requires forall i :: 0 <= i < 9 ==> '\n' !in RowValues(row)[i]
    ensures var line := RecordLine(row);
      line[|line| - 1] == '\n' && '\n' !in line[..|line| - 1] &&
      Split(line[..|line| - 1], '|') == Segments(row)
  {
    var segs := Segments(row);
    var line := RecordLine(row);
    forall i | 0 <= i < 9 ensures '|' !in segs[i] && '\n' !in segs[i] {
      assert segs[i] == LineKeys[i] + ":" + RowValues(row)[i];
      assert '|' !in LineKeys[i] && '\n' !in LineKeys[i];
    }
    SplitJoin(segs, '|');
    JoinAvoidsNewline(segs);
    assert line[..|line| - 1] == Join(segs, '|');
  }

  /** A segment `key:value` with a literal key fills the tick exactly as that key's case does. */
  lemma ApplyKeyed(t: Tick, k: nat, v: string)
    requires k < 9
    ensures ApplySegment(t, LineKeys[k] + ":" + v) == KeyEffect(t, LineKeys[k], Trim(v))
  {
    var key := LineKeys[k];
    KeyClean(k);
    FirstColonSeparates(key, v);
    TrimClean(key);
  }

  /** Every key of the line is free of ':' and of surrounding white space. */
  lemma KeyClean(k: nat)
    requires k < 9
    ensures ':' !in LineKeys[k] && LineKeys[k] != []
    ensures !IsSpace(LineKeys[k][0]) && !IsSpace(LineKeys[k][|LineKeys[k]| - 1])
  {
    var key := LineKeys[k];
    assert forall c :: c in key ==> '\U{4E00}' <= c <= '\U{9FFF}';
  }

  /** The tick a written row reads back as. */
  function RowTick(row: Row): Tick {
    Tick(Some(Trim(row.now)), ToFiniteNumber(Trim(row.nowPrice)), ToFiniteNumber(Trim(row.highPrice)),
         ToFiniteNumber(Trim(row.lowPrice)), ToFiniteNumber(Trim(row.openPrice)), None)
  }

  /** The written line splits back into its nine segments. */
  lemma SplitsIntoSegments(row: Row)
    requires NoBar(row)
    ensures Split(Join(Segments(row), '|'), '|') == Segments(row)
  {
    var segs := Segments(row);
    forall i | 0 <= i < 9 ensures '|' !in segs[i] {
      assert '|' !in LineKeys[i];
    }
    SplitJoin(segs, '|');
  }

  /** A tick built segment by segment from the empty tick is what `TickOf` gives. */
  lemma {:induction false} TickOfChain(segs: seq<string>, ticks: seq<Tick>)
    requires |ticks| == |segs| + 1 && ticks[0] == EmptyTick
    requires forall k :: 0 <= k < |segs| ==> ticks[k + 1] == ApplySegment(ticks[k], segs[k])
    ensures TickOf(segs) == ticks[|segs|]
    decreases |segs|
  {
    if segs != [] {
      var n := |segs| - 1;
      TickOfChain(segs[..n], ticks[..n + 1]);
      TickOfSnoc(segs[..n], segs[n]);
      assert segs[..n] + [segs[n]] == segs;
    }
  }

  /**
   * Round trip: `parseFuturesLine` of a written line (without its line break) recovers the time
   * and the price, high, low and opening price; the previous close is never written.
   */
  lemma WrittenLineParsesBack(row: Row)
    requires NoBar(row)
    ensures LineTick(Join(Segments(row), '|')) == Some(RowTick(row))
  {
    SplitsIntoSegments(row);
    assert Join(Segments(row), '|') != [];
    SegmentsTick(row);
  }

  /** The nine segments of a written row describe the row's own tick. */
  lemma SegmentsTick(row: Row)
    ensures TickOf(Segments(row)) == RowTick(row)
  {
    RowTicksChain(row);
    var ticks := seq(10, k requires 0 <= k < 10 => RowTickAfter(row, k));
    TickOfChain(Segments(row), ticks);
    RowTickAfterAll(row);
  }

  /** The tick after the first `k` segments of a written row, each filled in as its key's `case` does. */
  function RowTickAfter(row: Row, k: nat): Tick
    requires k <= 9
  {
    if k == 0 then EmptyTick
    else KeyEffect(RowTickAfter(row, k - 1), LineKeys[k - 1], Trim(RowValues(row)[k - 1]))
  }

  lemma RowTicksChain(row: Row)
    ensures forall k :: 0 <= k < 9 ==> RowTickAfter(row, k + 1) == ApplySegment(RowTickAfter(row, k), Segments(row)[k])
  {
    forall k | 0 <= k < 9 ensures RowTickAfter(row, k + 1) == ApplySegment(RowTickAfter(row, k), Segments(row)[k]) {
      ApplyKeyed(RowTickAfter(row, k), k, RowValues(row)[k]);
    }
  }

  /** The keys of a written line that the tick parser skips. */
  lemma SkippedKeys(t: Tick, v: string)
    ensures KeyEffect(t, LineKeys[0], v) == t && KeyEffect(t, LineKeys[2], v) == t
    ensures KeyEffect(t, LineKeys[3], v) == t && KeyEffect(t, LineKeys[6], v) == t
  {
  }

  /** The keys of a written line that the tick parser reads. */
  lemma ReadKeys(t: Tick, v: string)
    ensures KeyEffect(t, LineKeys[1], v) == t.(price := ToFiniteNumber(v))
    ensures KeyEffect(t, LineKeys[4], v) == t.(high := ToFiniteNumber(v))
    ensures KeyEffect(t, LineKeys[5], v) == t.(low := ToFiniteNumber(v))
    ensures KeyEffect(t, LineKeys[7], v) == t.(time := Some(v))
    ensures KeyEffect(t, LineKeys[8], v) == t.(openToday := ToFiniteNumber(v))
  {
  }

  /** After all nine segments the tick holds the time, the price, the high, the low and the opening price. */
  lemma RowTickAfterAll(row: Row)
    ensures RowTickAfter(row, 9) == RowTick(row)
  {
    var v := RowValues(row);
    SkippedKeys(EmptyTick, Trim(v[0]));
    assert RowTickAfter(row, 1) == EmptyTick;
    ReadKeys(EmptyTick, Trim(v[1]));
    var t2 := EmptyTick.(price := ToFiniteNumber(Trim(v[1])));
    assert RowTickAfter(row, 2) == t2;
    SkippedKeys(t2, Trim(v[2]));
    assert RowTickAfter(row, 3) == t2;
    SkippedKeys(t2, Trim(v[3]));
    assert RowTickAfter(row, 4) == t2;
    ReadKeys(t2, Trim(v[4]));
    var t5 := t2.(high := ToFiniteNumber(Trim(v[4])));
    assert RowTickAfter(row, 5) == t5;
    ReadKeys(t5, Trim(v[5]));
    var t6 := t5.(low := ToFiniteNumber(Trim(v[5])));
    assert RowTickAfter(row, 6) == t6;
    SkippedKeys(t6, Trim(v[6]));
    assert RowTickAfter(row, 7) == t6;
    ReadKeys(t6, Trim(v[7]));
    var t8 := t6.(time := Some(Trim(v[7])));
    assert RowTickAfter(row, 8) == t8;
    ReadKeys(t8, Trim(v[8]));
  }

  /** The values contain no `|` or line break and have no surrounding whitespace. */
  predicate Clean(row: Row) {
    NoBar(row) && forall i :: 0 <= i < 9 ==> '\n' !in RowValues(row)[i] && Trim(RowValues(row)[i]) == RowValues(row)[i]
  }

  /** A day file: the written lines one after another. */
  function DayFile(rows: seq<Row>): string {
    if rows == [] then "" else RecordLine(rows[0]) + DayFile(rows[1..])
  }

  /** One clean record line contributes exactly its row's tick. */
  lemma RecordLineTick(row: Row)
    requires Clean(row)
    ensures var line := Join(Segments(row), '|');
      '\n' !in line && RecordLine(row) == line + "\n" && LineTicks(line) == [RowTick(row)]
  {
    var line := Join(Segments(row), '|');
    LineHasNineSegments(row);
    assert line == RecordLine(row)[..|RecordLine(row)| - 1];
    CleanLineTicks(row);
  }

  /** A clean line, read as a file line, gives its row's tick and nothing else. */
  lemma CleanLineTicks(row: Row)
    requires Clean(row)
    ensures LineTicks(Join(Segments(row), '|')) == [RowTick(row)]
  {
    var line := Join(Segments(row), '|');
    WrittenLineParsesBack(row);
    LineIsTrimmed(row);
    assert NonBlankLines([line]) == [line] + NonBlankLines([]);
    assert TicksOf([line]) == TickList(line) + TicksOf([]);
  }

  /** Every record a day file holds reads back as one tick, in order. */
  lemma {:induction false} DayFileParsesBack(rows: seq<Row>)
    requires forall i :: 0 <= i < |rows| ==> Clean(rows[i])
    ensures ParseFuturesText(DayFile(rows)) == TicksOfRows(rows)
    decreases |rows|
  {
    if rows != [] {
      RecordThenRest(rows[0], DayFile(rows[1..]));
      DayFileParsesBack(rows[1..]);
    }
  }

  /** A clean record line in front of any text adds its row's tick in front of that text's ticks. */
  lemma RecordThenRest(row: Row, rest: string)
    requires Clean(row)
    ensures ParseFuturesText(RecordLine(row) + rest) == [RowTick(row)] + ParseFuturesText(rest)
  {
    var line := Join(Segments(row), '|');
    RecordLineTick(row);
    assert RecordLine(row) + rest == line + "\n" + rest;
    LineSeparators(line, rest);
  }

  /** One tick per row, in the rows' order. */
  function TicksOfRows(rows: seq<Row>): seq<Tick> {
    if rows == [] then [] else [RowTick(rows[0])] + TicksOfRows(rows[1..])
  }

  /** A clean line starts with `名称` and ends with a non-space, so trimming leaves it as it is. */
  lemma LineIsTrimmed(row: Row)
    requires Clean(row)
    ensures Trim(Join(Segments(row), '|')) == Join(Segments(row), '|') != []
  {
    var segs := Segments(row);
    var line := Join(segs, '|');
    JoinEnds(segs, '|');
    assert line[0] == segs[0][0] == '名';
    var last := segs[8];
    assert last == "今日开盘价" + ":" + row.openPrice;
    assert last[|last| - 1] == if row.openPrice == [] then ':' else row.openPrice[|row.openPrice| - 1];
    assert Trim(row.openPrice) == row.openPrice;
    TrimClean(line);
  }

  /** A joined list ends with its last piece's last character. */
  lemma {:induction false} JoinEnds(parts: seq<string>, c: char)
    requires |parts| >= 1 && parts[0] != [] && parts[|parts| - 1] != []
    ensures var j := Join(parts, c); j != [] && j[0] == parts[0][0] && j[|j| - 1] == parts[|parts| - 1][|parts[|parts| - 1]| - 1]
  {
    JoinLast(parts, c);
  }

  lemma {:induction false} JoinLast(parts: seq<string>, c: char)
    requires |parts| >= 1 && parts[|parts| - 1] != []
    ensures var j := Join(parts, c); j != [] && j[|j| - 1] == parts[|parts| - 1][|parts[|parts| - 1]| - 1]
    decreases |parts|
  {
    if |parts| > 1 {
      JoinLast(parts[1..], c);
    }
  }

  /**
   * End to end: a quote reply with at least 14 fields is written and read back with the time
   * from position 6 and the price, high, low and opening price from positions 0, 4, 5 and 8.
   */
  lemma QuoteReplyReadsBack(pre: string, fields: seq<string>, post: string)
    requires '"' !in pre && |fields| >= 14
    requires forall i :: 0 <= i < |fields| ==> '"' !in fields[i] && ',' !in fields[i] && '|' !in fields[i]
    ensures GetFutures(pre + "\"" + Join(fields, ',') + "\"" + post).Ok?
    ensures var q := GetFutures(pre + "\"" + Join(fields, ',') + "\"" + post).value;
      LineTick(Join(Segments(RowOf(FromQuote(q))), '|')) ==
        Some(Tick(Some(Trim(fields[6])), ToFiniteNumber(Trim(fields[0])), ToFiniteNumber(Trim(fields[4])),
                  ToFiniteNumber(Trim(fields[5])), ToFiniteNumber(Trim(fields[8])), None))
  {
    assert Join(fields, ',') != [] by {
      JoinLength(fields, ',');
    }
    ReadsFieldsByPosition(pre, fields, post);
    QuoteFieldsReadBack(fields);
  }

  /** The record written for a quote's fields reads back with the fields at their positions. */
  lemma QuoteFieldsReadBack(fields: seq<string>)
    requires |fields| >= 14
    requires forall i :: 0 <= i < |fields| ==> '|' !in fields[i]
    ensures LineTick(Join(Segments(RowOf(FromQuote(QuoteOf(fields)))), '|')) ==
      Some(Tick(Some(Trim(fields[6])), ToFiniteNumber(Trim(fields[0])), ToFiniteNumber(Trim(fields[4])),
                ToFiniteNumber(Trim(fields[5])), ToFiniteNumber(Trim(fields[8])), None))
  {
    var row := Row(fields[13], fields[0], fields[2], fields[3], fields[4], fields[5], fields[12], fields[6], fields[8]);
    assert RowOf(FromQuote(QuoteOf(fields))) == row;
    NoBarByField(row);
    WrittenLineParsesBack(row);
  }

  lemma NoBarByField(row: Row)
    requires '|' !in row.name && '|' !in row.nowPrice && '|' !in row.buyPrice && '|' !in row.sellPrice
    requires '|' !in row.highPrice && '|' !in row.lowPrice && '|' !in row.today && '|' !in row.now && '|' !in row.openPrice
    ensures NoBar(row)
  {
    var v := RowValues(row);
    assert v[0] == row.name && v[1] == row.nowPrice && v[2] == row.buyPrice && v[3] == row.sellPrice;
    assert v[4] == row.highPrice && v[5] == row.lowPrice && v[6] == row.today && v[7] == row.now && v[8] == row.openPrice;
  }

  lemma {:induction false} JoinLength(parts: seq<string>, c: char)
    requires |parts| >= 2
    ensures |Join(parts, c)| >= |parts| - 1
    decreases |parts|
  {
    if |parts| > 2 {
      JoinLength(parts[1..], c);
    }
  }
}
