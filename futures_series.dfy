/**
 * The chart-series handlers of routes/futures.ts: a second reader of the day-file format that
 * turns a day (or a working week of days) into `times`, close-to-close candles and the day's
 * opening and previous-close prices.  It keys its own per-line map: a key may not start at
 * position 0, the price is taken from `现价`, `最新价` or `收盘价` in that order, and a line is
 * kept whenever its price text is a number (so a line without a price keeps close 0).
 */
module FuturesSeries {
  import opened Wrappers
  import opened Text
  import opened JsNumber
  import opened Paths
  import opened KLineStats

  // ---- the per-line key map ----

  /** The key and value one trimmed `|`-segment contributes: split at its first ':' when that is past position 0. */
  function Entry(part: string): Option<(string, string)> {
    var t := Trim(part);
    match IndexOf(t, ':')
    case None => None
    case Some(i) => if i > 0 then Some((t[..i], t[i + 1..])) else None
  }

  predicate HasKey(part: string, k: string) {
    Entry(part).Some? && Entry(part).value.0 == k
  }

  /** The map the segments build, each entry overwriting an earlier one with the same key. */
  function LineMap(parts: seq<string>): map<string, string> {
    if parts == [] then map[]
    else
      var m := LineMap(parts[..|parts| - 1]);
      match Entry(parts[|parts| - 1])
      case None => m
      case Some(kv) => m[kv.0 := kv.1]
  }

  function LineMapOf(ln: string): map<string, string> {
    LineMap(Split(ln, '|'))
  }

  /** The inner loop of both handlers: fill the line's map segment by segment. */
  method BuildLineMap(ln: string) returns (m: map<string, string>)
    ensures m == LineMapOf(ln)
  {
    var parts := Split(ln, '|');
    m := map[];
    for j := 0 to |parts|
      invariant m == LineMap(parts[..j])
    {
      assert parts[..j + 1][..j] == parts[..j];
      var part := Trim(parts[j]);
      var idx := IndexOf(part, ':');
      if idx.Some? && idx.value > 0 {
        m := m[part[..idx.value] := part[idx.value + 1..]];
      }
    }
    assert parts[..|parts|] == parts;
  }

  /** The value of a key is the one given by the last segment carrying that key. */
  lemma {:induction false} LastSegmentWins(parts: seq<string>, j: nat, k: string, v: string)
    requires j < |parts| && Entry(parts[j]) == Some((k, v))
    requires forall l :: j < l < |parts| ==> !HasKey(parts[l], k)
    ensures k in LineMap(parts) && LineMap(parts)[k] == v
    decreases |parts|
  {
    var init := parts[..|parts| - 1];
    if j < |parts| - 1 {
      assert init[j] == parts[j];
      forall l | j < l < |init| ensures !HasKey(init[l], k) {
        assert init[l] == parts[l];
      }
      LastSegmentWins(init, j, k, v);
      assert !HasKey(parts[|parts| - 1], k);
    }
  }

  /** A key no segment carries is absent from the map. */
  lemma {:induction false} AbsentKey(parts: seq<string>, k: string)
    requires forall l :: 0 <= l < |parts| ==> !HasKey(parts[l], k)
    ensures k !in LineMap(parts)
    decreases |parts|
  {
    if parts != [] {
      var init := parts[..|parts| - 1];
      forall l | 0 <= l < |init| ensures !HasKey(init[l], k) {
        assert init[l] == parts[l];
      }
      AbsentKey(init, k);
      assert !HasKey(parts[|parts| - 1], k);
    }
  }

  /** A segment whose first ':' is its first character adds nothing. */
  lemma ColonAtStartSkipped(part: string)
    requires Trim(part) != [] && Trim(part)[0] == ':'
    ensures Entry(part) == None
  {
  }

  /** `k:v` splits at its first ':' into exactly `k` and `v`; the value keeps any ':' of its own. */
  lemma KeyValueSegment(k: string, v: string)
    requires k != [] && ':' !in k && !IsSpace(k[0])
    requires v == [] || !IsSpace(v[|v| - 1])
    ensures Entry(k + ":" + v) == Some((k, v))
  {
    var s := k + ":" + v;
    assert s[|s| - 1] == if v == [] then ':' else v[|v| - 1];
    TrimClean(s);
    IndexOfAfter(k, ':', v);
    assert s[..|k|] == k && s[|k| + 1..] == v;
  }

  // ---- field selection ----

  /** `map[k]`, with a missing key read as the empty string (both are falsy for `||`). */
  function Get(m: map<string, string>, k: string): string {
    if k in m then m[k] else ""
  }

  /** `a || b` on strings. */
  function OrElse(a: string, b: string): string {
    if a != "" then a else b
  }

  /** `map["现价"] || map["最新价"] || map["收盘价"] || ""`. */
  function CloseText(m: map<string, string>): string {
    OrElse(Get(m, "现价"), OrElse(Get(m, "最新价"), OrElse(Get(m, "收盘价"), "")))
  }

  /** `map["今日开盘价"] || map["开盘价"] || ""`. */
  function OpenText(m: map<string, string>): string {
    OrElse(Get(m, "今日开盘价"), OrElse(Get(m, "开盘价"), ""))
  }

  /** The price keys in priority order; an empty value counts as missing. */
  lemma PricePriority(m: map<string, string>)
    ensures Get(m, "现价") != "" ==> CloseText(m) == m["现价"]
    ensures Get(m, "现价") == "" && Get(m, "最新价") != "" ==> CloseText(m) == m["最新价"]
    ensures Get(m, "现价") == "" && Get(m, "最新价") == "" ==> CloseText(m) == Get(m, "收盘价")
    ensures CloseText(m) == "" <==> Get(m, "现价") == "" && Get(m, "最新价") == "" && Get(m, "收盘价") == ""
  {
  }

  // ---- one day ----

  /** The state of the daily handler after some lines. */
  datatype DayAcc = DayAcc(
    name: string,
    times: seq<string>,
    closes: seq<real>,
    dayOpen: Option<real>,
    lastClose: Option<real>)

  /** The effect of one line's map on the daily state. */
  function DayStep(acc: DayAcc, m: map<string, string>): DayAcc {
    var close := ToNumber(CloseText(m));
    var openNum := ToNumber(OpenText(m));
    var lastNum := ToNumber(Get(m, "昨日收盘价"));
    DayAcc(
      if acc.name == "" then OrElse(Get(m, "名称"), "期货") else acc.name,
      if close.Some? then acc.times + [Get(m, "当前时间")] else acc.times,
      if close.Some? then acc.closes + [close.value] else acc.closes,
      if openNum.Some? then openNum else acc.dayOpen,
      if lastNum.Some? then lastNum else acc.lastClose)
  }

  /** The daily state after the given lines, in order. */
  function DayFold(lines: seq<string>): DayAcc {
    if lines == [] then DayAcc("", [], [], None, None)
    else DayStep(DayFold(lines[..|lines| - 1]), LineMapOf(lines[|lines| - 1]))
  }

  /** A single line is kept exactly when it is not blank. */
  function KeptOne(l: string): seq<string> {
    if Trim(l) != [] then [l] else []
  }

  /** `.filter((l) => l.trim().length > 0)`: blank lines go, the others stay untrimmed. */
  function KeptLines(lines: seq<string>): (r: seq<string>)
    ensures |r| <= |lines|
    ensures forall i :: 0 <= i < |r| ==> Trim(r[i]) != [] && r[i] in lines
  {
    if lines == [] then []
    else (if Trim(lines[0]) != [] then [lines[0]] else []) + KeptLines(lines[1..])
  }

  lemma KeptCons(l: string, rest: seq<string>)
    ensures KeptLines([l] + rest) == KeptOne(l) + KeptLines(rest)
  {
    assert ([l] + rest)[0] == l && ([l] + rest)[1..] == rest;
  }

  /** Each line is kept or dropped on its own, in order: the filter distributes over concatenation. */
  lemma {:induction false} KeptLinesConcat(a: seq<string>, b: seq<string>)
    ensures KeptLines(a + b) == KeptLines(a) + KeptLines(b)
  {
    if a == [] {
      assert a + b == b;
    } else {
      var l, tail := a[0], a[1..];
      assert a + b == [l] + (tail + b);
      calc {
        KeptLines(a + b);
        { KeptCons(l, tail + b); }
        KeptOne(l) + KeptLines(tail + b);
        { KeptLinesConcat(tail, b); }
        KeptOne(l) + (KeptLines(tail) + KeptLines(b));
        (KeptOne(l) + KeptLines(tail)) + KeptLines(b);
        KeptLines(a) + KeptLines(b);
      }
    }
  }

  /** No non-blank line is dropped. */
  lemma {:induction false} KeptLinesComplete(lines: seq<string>)
    ensures forall i :: 0 <= i < |lines| && Trim(lines[i]) != [] ==> lines[i] in KeptLines(lines)
  {
    if lines != [] {
      KeptLinesComplete(lines[1..]);
      assert forall i :: 1 <= i < |lines| ==> lines[i] == lines[1..][i - 1];
    }
  }

  function DayLines(text: string): seq<string> {
    KeptLines(SplitLines(text))
  }

  /** `\n` and `\r\n` both end a line: a day's kept lines are its first line's, then the rest's. */
  lemma DayLineBreaks(line: string, rest: string)
    requires '\n' !in line
    ensures DayLines(line + "\n" + rest) == KeptOne(DropCR(line)) + DayLines(rest)
    ensures DayLines(line + "\r\n" + rest) == KeptOne(line) + DayLines(rest)
  {
    BreakAt(line, rest);
    KeptCons(DropCR(line), SplitLines(rest));
    CrBreakAt(line, rest);
    KeptCons(line, SplitLines(rest));
  }

  /** One OHLC candle in the order the chart expects: `[open, close, low, high]`. */
  datatype Candle = Candle(open: real, close: real, low: real, high: real)

  function CandleOf(prev: real, curr: real): Candle {
    Candle(prev, curr, Smaller(prev, curr), Larger(prev, curr))
  }

  /** Candle i opens at close i-1 (at its own close for the first) and closes at close i. */
  function Candles(closes: seq<real>): (r: seq<Candle>)
    ensures |r| == |closes|
  {
    seq(|closes|, i requires 0 <= i < |closes| => CandleOf(if i > 0 then closes[i - 1] else closes[i], closes[i]))
  }

  /** The response of `GET /futures/:date`. */
  datatype DayChart = DayChart(
    name: string,
    times: seq<string>,
    values: seq<Candle>,
    dayOpen: Option<real>,
    lastClose: Option<real>)

  /** A handler's outcome: the JSON body, `404 not_found`, or `500` when the file cannot be read. */
  datatype Reply<T> = Found(body: T) | NotFound | ServerError

  function DayChartOf(text: string): DayChart {
    var d := DayFold(DayLines(text));
    DayChart(d.name, d.times, Candles(d.closes), d.dayOpen, d.lastClose)
  }

  function DayReply(file: FileRead): Reply<DayChart> {
    match file
    case Missing => NotFound
    case Unreadable => ServerError
    case Contents(text) => Found(DayChartOf(text))
  }

  /** The candle loop: one candle per close. */
  method SynthesizeCandles(closes: seq<real>) returns (values: seq<Candle>)
    ensures values == Candles(closes)
  {
    values := [];
    for i := 0 to |closes|
      invariant |values| == i
      invariant forall k :: 0 <= k < i ==> values[k] == Candles(closes)[k]
    {
      var prev := if i > 0 then closes[i - 1] else closes[i];
      var curr := closes[i];
      values := values + [Candle(prev, curr, Smaller(prev, curr), Larger(prev, curr))];
    }
  }

  /** Reading one more line applies that line's map to the state of the lines before it. */
  lemma DayFoldStep(lines: seq<string>, i: nat)
    requires i < |lines|
    ensures DayFold(lines[..i + 1]) == DayStep(DayFold(lines[..i]), LineMapOf(lines[i]))
  {
    assert lines[..i + 1][..i] == lines[..i];
  }

  /** The daily handler's body for one line's map: name once, the latest opening and previous-close numbers, and the point when the price is a number. */
  method DayLine(m: map<string, string>, name: string, times: seq<string>, closes: seq<real>,
                 dayOpen: Option<real>, lastClose: Option<real>)
    returns (name': string, times': seq<string>, closes': seq<real>, dayOpen': Option<real>, lastClose': Option<real>)
    ensures DayAcc(name', times', closes', dayOpen', lastClose') == DayStep(DayAcc(name, times, closes, dayOpen, lastClose), m)
  {
    name', times', closes', dayOpen', lastClose' := name, times, closes, dayOpen, lastClose;
    if name == "" {
      name' := OrElse(Get(m, "名称"), "期货");
    }
    var now := Get(m, "当前时间");
    var close := ToNumber(CloseText(m));
    var openNum := ToNumber(OpenText(m));
    if openNum.Some? {
      dayOpen' := openNum;
    }
    var lastNum := ToNumber(Get(m, "昨日收盘价"));
    if lastNum.Some? {
      lastClose' := lastNum;
    }
    if close.Some? {
      times' := times + [now];
      closes' := closes + [close.value];
    }
  }

  /** `GET /futures/:date` over the day file's state. */
  method FuturesDay(file: FileRead) returns (r: Reply<DayChart>)
    ensures r == DayReply(file)
  {
    match file {
      case Missing => return NotFound;
      case Unreadable => return ServerError;
      case Contents(text) =>
        var lines := DayLines(text);
        var name := "";
        var times: seq<string> := [];
        var closes: seq<real> := [];
        var dayOpen: Option<real> := None;
        var lastClose: Option<real> := None;
        for i := 0 to |lines|
          invariant DayAcc(name, times, closes, dayOpen, lastClose) == DayFold(lines[..i])
        {
          DayFoldStep(lines, i);
          var m := BuildLineMap(lines[i]);
          name, times, closes, dayOpen, lastClose := DayLine(m, name, times, closes, dayOpen, lastClose);
        }
        assert lines[..|lines|] == lines;
        var values := SynthesizeCandles(closes);
        return Found(DayChart(name, times, values, dayOpen, lastClose));
    }
  }

  // ---- properties of one day ----

  /** `times` and `closes` grow together, at most one entry per line. */
  lemma {:induction false} TimesAlignWithCloses(lines: seq<string>)
    ensures |DayFold(lines).times| == |DayFold(lines).closes| <= |lines|
    decreases |lines|
  {
    if lines != [] {
      TimesAlignWithCloses(lines[..|lines| - 1]);
    }
  }

  /** A line is appended exactly when its price text is a number, and then with that number and its time. */
  lemma AppendIffNumeric(lines: seq<string>, ln: string)
    ensures var before, after, m := DayFold(lines), DayFold(lines + [ln]), LineMapOf(ln);
      (ToNumber(CloseText(m)).Some? ==>
        after.closes == before.closes + [ToNumber(CloseText(m)).value] &&
        after.times == before.times + [Get(m, "当前时间")]) &&
      (ToNumber(CloseText(m)).None? ==> after.closes == before.closes && after.times == before.times)
  {
    assert (lines + [ln])[..|lines|] == lines;
  }

  /** A line carrying none of the price keys still appends, with close 0. */
  lemma NoPriceKeyAppendsZero(lines: seq<string>, ln: string)
    requires var m := LineMapOf(ln); "现价" !in m && "最新价" !in m && "收盘价" !in m
    ensures DayFold(lines + [ln]).closes == DayFold(lines).closes + [0.0]
  {
    assert (lines + [ln])[..|lines|] == lines;
    assert CloseText(LineMapOf(ln)) == "";
    BlankIsZero("");
  }

  /** The name is fixed by the first line: its `名称`, or `期货` when that is missing or empty. */
  lemma {:induction false} NameFromFirstLine(lines: seq<string>)
    ensures DayFold(lines).name == if lines == [] then "" else OrElse(Get(LineMapOf(lines[0]), "名称"), "期货")
    decreases |lines|
  {
    if |lines| > 1 {
      var init := lines[..|lines| - 1];
      NameFromFirstLine(init);
      assert init[0] == lines[0];
    }
  }

  /** The opening and previous-close prices come from the last line whose value is a number. */
  lemma LastNumericValueWins(lines: seq<string>, ln: string)
    ensures var m := LineMapOf(ln);
      (ToNumber(OpenText(m)).Some? ==> DayFold(lines + [ln]).dayOpen == ToNumber(OpenText(m))) &&
      (ToNumber(OpenText(m)).None? ==> DayFold(lines + [ln]).dayOpen == DayFold(lines).dayOpen) &&
      (ToNumber(Get(m, "昨日收盘价")).Some? ==> DayFold(lines + [ln]).lastClose == ToNumber(Get(m, "昨日收盘价"))) &&
      (ToNumber(Get(m, "昨日收盘价")).None? ==> DayFold(lines + [ln]).lastClose == DayFold(lines).lastClose)
  {
    OpenStep(lines, ln);
    LastCloseStep(lines, ln);
  }

  lemma OpenStep(lines: seq<string>, ln: string)
    ensures var v := ToNumber(OpenText(LineMapOf(ln)));
      DayFold(lines + [ln]).dayOpen == if v.Some? then v else DayFold(lines).dayOpen
  {
    assert (lines + [ln])[..|lines|] == lines;
  }

  lemma LastCloseStep(lines: seq<string>, ln: string)
    ensures var v := ToNumber(Get(LineMapOf(ln), "昨日收盘价"));
      DayFold(lines + [ln]).lastClose == if v.Some? then v else DayFold(lines).lastClose
  {
    assert (lines + [ln])[..|lines|] == lines;
  }

  /** A later line without the opening or previous-close keys resets that price to 0. */
  lemma MissingKeyResetsToZero(lines: seq<string>, ln: string)
    ensures var m := LineMapOf(ln);
      ("今日开盘价" !in m && "开盘价" !in m ==> DayFold(lines + [ln]).dayOpen == Some(0.0)) &&
      ("昨日收盘价" !in m ==> DayFold(lines + [ln]).lastClose == Some(0.0))
  {
    assert (lines + [ln])[..|lines|] == lines;
    BlankIsZero("");
  }

  /** The opening price one line reports (`None` when its text is not a number). */
  function OpenOf(line: string): Option<real> {
    ToNumber(OpenText(LineMapOf(line)))
  }

  /** The previous close one line reports (`None` when its text is not a number). */
  function PrevCloseOf(line: string): Option<real> {
    ToNumber(Get(LineMapOf(line), "昨日收盘价"))
  }

  /** The last line's opening price, when a number, replaces the one before. */
  lemma OpenLast(lines: seq<string>)
    requires lines != []
    ensures var v := OpenOf(lines[|lines| - 1]);
      DayFold(lines).dayOpen == if v.Some? then v else DayFold(lines[..|lines| - 1]).dayOpen
  {
  }

  /** The last line's previous close, when a number, replaces the one before. */
  lemma PrevCloseLast(lines: seq<string>)
    requires lines != []
    ensures var v := PrevCloseOf(lines[|lines| - 1]);
      DayFold(lines).lastClose == if v.Some? then v else DayFold(lines[..|lines| - 1]).lastClose
  {
  }

  /** A property holds of every line exactly when it holds of every line before the last and of the last. */
  lemma AllSplit(p: string -> bool, lines: seq<string>, init: seq<string>)
    requires lines != [] && init == lines[..|lines| - 1]
    ensures (forall i :: 0 <= i < |lines| ==> p(lines[i])) <==>
      (forall i :: 0 <= i < |init| ==> p(init[i])) && p(lines[|lines| - 1])
  {
    assert forall i :: 0 <= i < |init| ==> init[i] == lines[i];
  }

  /** No line reports an opening price exactly when none before the last does and the last does not. */
  lemma NoOpenSplit(lines: seq<string>, init: seq<string>)
    requires lines != [] && init == lines[..|lines| - 1]
    ensures (forall i :: 0 <= i < |lines| ==> OpenOf(lines[i]).None?) <==>
      (forall i :: 0 <= i < |init| ==> OpenOf(init[i]).None?) && OpenOf(lines[|lines| - 1]).None?
  {
    AllSplit(s => OpenOf(s).None?, lines, init);
  }

  /** No line reports a previous close exactly when none before the last does and the last does not. */
  lemma NoPrevCloseSplit(lines: seq<string>, init: seq<string>)
    requires lines != [] && init == lines[..|lines| - 1]
    ensures (forall i :: 0 <= i < |lines| ==> PrevCloseOf(lines[i]).None?) <==>
      (forall i :: 0 <= i < |init| ==> PrevCloseOf(init[i]).None?) && PrevCloseOf(lines[|lines| - 1]).None?
  {
    AllSplit(s => PrevCloseOf(s).None?, lines, init);
  }

  /** The opening price is null exactly when no line's opening value is a number. */
  lemma {:induction false} OpenNullOnlyWhenNeverSet(lines: seq<string>)
    ensures DayFold(lines).dayOpen.None? <==> forall i :: 0 <= i < |lines| ==> OpenOf(lines[i]).None?
    decreases |lines|
  {
    if lines != [] {
      OpenNullOnlyWhenNeverSet(lines[..|lines| - 1]);
      OpenLast(lines);
      NoOpenSplit(lines, lines[..|lines| - 1]);
    }
  }

  /** The previous close is null exactly when no line's `昨日收盘价` is a number. */
  lemma {:induction false} LastCloseNullOnlyWhenNeverSet(lines: seq<string>)
    ensures DayFold(lines).lastClose.None? <==> forall i :: 0 <= i < |lines| ==> PrevCloseOf(lines[i]).None?
    decreases |lines|
  {
    if lines != [] {
      LastCloseNullOnlyWhenNeverSet(lines[..|lines| - 1]);
      PrevCloseLast(lines);
      NoPrevCloseSplit(lines, lines[..|lines| - 1]);
    }
  }

  /** A candle's low and high are its open and close in order. */
  predicate Spans(c: Candle) {
    c.low <= c.open <= c.high && c.low <= c.close <= c.high &&
    (c.low == c.open || c.low == c.close) && (c.high == c.open || c.high == c.close)
  }

  /** Each candle spans its open and close, opens at the previous close, and the first one is flat. */
  lemma CandlesFollowCloses(closes: seq<real>)
    ensures forall i :: 0 <= i < |closes| ==>
      Candles(closes)[i].close == closes[i] && Spans(Candles(closes)[i]) &&
      Candles(closes)[i].open == (if i > 0 then closes[i - 1] else closes[0])
    ensures closes != [] ==> Candles(closes)[0] == Candle(closes[0], closes[0], closes[0], closes[0])
  {
  }

  /** Adding a close adds one candle opening at the previous close (at itself for the first). */
  lemma CandlesSnoc(closes: seq<real>, x: real)
    ensures Candles(closes + [x]) == Candles(closes) + [CandleOf(if closes == [] then x else closes[|closes| - 1], x)]
  {
    var a, b := Candles(closes + [x]), Candles(closes) + [CandleOf(if closes == [] then x else closes[|closes| - 1], x)];
    assert |a| == |b|;
    forall i | 0 <= i < |a| ensures a[i] == b[i] {
      if i < |closes| {
        assert (closes + [x])[i] == closes[i];
        if i > 0 { assert (closes + [x])[i - 1] == closes[i - 1]; }
      }
    }
  }

  // ---- the week ----

  /** `${day} ${now}` for every time of the day. */
  function Stamped(day: string, ts: seq<string>): (r: seq<string>)
    ensures |r| == |ts|
  {
    seq(|ts|, i requires 0 <= i < |ts| => day + " " + ts[i])
  }

  lemma StampedSnoc(day: string, ts: seq<string>, t: string)
    ensures Stamped(day, ts + [t]) == Stamped(day, ts) + [day + " " + t]
  {
  }

  /** The weekly state after some days. */
  datatype WeekAcc = WeekAcc(
    times: seq<string>,
    values: seq<Candle>,
    mondayOpen: Option<real>,
    lastClose: Option<real>,
    lastCloseDate: Option<string>)

  const EmptyWeek := WeekAcc([], [], None, None, None)

  /** One present day: its lines read by the daily rules, its candles restarting from its own first close. */
  function WeekStep(acc: WeekAcc, day: string, firstDay: string, text: string): WeekAcc {
    WeekApply(acc, day, firstDay, DayFold(DayLines(text)))
  }

  /** What a day's daily state adds to the week. */
  function WeekApply(acc: WeekAcc, day: string, firstDay: string, d: DayAcc): WeekAcc {
    WeekAcc(
      acc.times + Stamped(day, d.times),
      acc.values + Candles(d.closes),
      if acc.mondayOpen.None? && d.dayOpen.Some? && day == firstDay then d.dayOpen else acc.mondayOpen,
      if d.closes != [] then Some(d.closes[|d.closes| - 1]) else acc.lastClose,
      if d.closes != [] then Some(day) else acc.lastCloseDate)
  }

  /** What one listed day does to the weekly state: a missing file is skipped, an unreadable one fails the request. */
  function DayEffect(acc: WeekAcc, day: string, firstDay: string, file: FileRead): Result<WeekAcc> {
    match file
    case Missing => Ok(acc)
    case Unreadable => Err("invalid_weekly_futures")
    case Contents(text) => Ok(WeekStep(acc, day, firstDay, text))
  }

  /** The weekly state over the listed days, in order. */
  function WeekFold(days: seq<(string, FileRead)>, firstDay: string): Result<WeekAcc> {
    if days == [] then Ok(EmptyWeek)
    else
      match WeekFold(days[..|days| - 1], firstDay)
      case Err(e) => Err(e)
      case Ok(acc) => DayEffect(acc, days[|days| - 1].0, firstDay, days[|days| - 1].1)
  }

  /** The response of `GET /futures/week/:date` (its date range is given as the day list). */
  datatype WeekChart = WeekChart(
    name: string,
    times: seq<string>,
    values: seq<Candle>,
    mondayOpen: Option<real>,
    weekLastClose: Option<real>,
    weekLastCloseDate: Option<string>,
    weeklyChange: Option<real>,
    weeklyChangePct: Option<real>)

  /**
   * The weekly figures: `round2` is `Number(x.toFixed(2))`.  The percentage over a zero Monday
   * open is not finite and goes out as JSON `null`.
   */
  function WeekChartOf(w: WeekAcc, round2: real -> real): (r: WeekChart)
    ensures r.weeklyChange.Some? <==> w.mondayOpen.Some? && w.lastClose.Some?
    ensures r.weeklyChangePct.Some? <==> r.weeklyChange.Some? && w.mondayOpen != Some(0.0)
  {
    var change := if w.mondayOpen.Some? && w.lastClose.Some? then Some(round2(w.lastClose.value - w.mondayOpen.value)) else None;
    var pct := if change.Some? && w.mondayOpen.value != 0.0 then Some(round2(change.value / w.mondayOpen.value * 100.0)) else None;
    WeekChart("期货", w.times, w.values, w.mondayOpen, w.lastClose, w.lastCloseDate, change, pct)
  }

  function FirstDay(days: seq<(string, FileRead)>): string {
    if days == [] then "" else days[0].0
  }

  function WeekReply(days: seq<(string, FileRead)>, round2: real -> real): Result<WeekChart> {
    match WeekFold(days, FirstDay(days))
    case Err(e) => Err(e)
    case Ok(w) => Ok(WeekChartOf(w, round2))
  }

  /** A failure on one day fails the whole week. */
  lemma {:induction false} FailureSticks(days: seq<(string, FileRead)>, firstDay: string, i: nat)
    requires i <= |days| && WeekFold(days[..i], firstDay).Err?
    ensures WeekFold(days, firstDay) == WeekFold(days[..i], firstDay)
    decreases |days|
  {
    if i < |days| {
      assert days[..|days| - 1][..i] == days[..i];
      FailureSticks(days[..|days| - 1], firstDay, i);
    } else {
      assert days[..i] == days;
    }
  }

  /** The weekly handler's variables agree with the daily state `acc` of the lines read so far. */
  ghost predicate InDay(acc: DayAcc, day: string, times0: seq<string>, values0: seq<Candle>,
                        times: seq<string>, values: seq<Candle>, closes: seq<real>, dayOpen: Option<real>)
  {
    closes == acc.closes && dayOpen == acc.dayOpen &&
    times == times0 + Stamped(day, acc.times) && values == values0 + Candles(closes)
  }

  /** The weekly handler's body for one line: a kept line gets a day-stamped time and a candle from the day's previous close. */
  method WeekLine(day: string, m: map<string, string>, ghost acc: DayAcc, ghost times0: seq<string>, ghost values0: seq<Candle>,
                  times: seq<string>, values: seq<Candle>, closes: seq<real>, dayOpen: Option<real>)
    returns (times': seq<string>, values': seq<Candle>, closes': seq<real>, dayOpen': Option<real>)
    requires InDay(acc, day, times0, values0, times, values, closes, dayOpen)
    ensures InDay(DayStep(acc, m), day, times0, values0, times', values', closes', dayOpen')
  {
    times', values', closes', dayOpen' := times, values, closes, dayOpen;
    var now := Get(m, "当前时间");
    var close := ToNumber(CloseText(m));
    var openNum := ToNumber(OpenText(m));
    if openNum.Some? {
      dayOpen' := openNum;
    }
    ghost var next := DayStep(acc, m);
    if close.Some? {
      assert next.times == acc.times + [now] && next.closes == closes + [close.value];
      StampedSnoc(day, acc.times, now);
      CandlesSnoc(closes, close.value);
      times' := times + [day + " " + now];
      var open := if closes != [] then closes[|closes| - 1] else close.value;
      assert values0 + Candles(closes) + [CandleOf(open, close.value)] == values0 + (Candles(closes) + [CandleOf(open, close.value)]);
      values' := values + [CandleOf(open, close.value)];
      closes' := closes + [close.value];
    } else {
      assert next.times == acc.times && next.closes == closes;
    }
  }

  /** The inner loop of the weekly handler over one present day's lines. */
  method ReadWeekDay(day: string, text: string, times0: seq<string>, values0: seq<Candle>)
    returns (times: seq<string>, values: seq<Candle>, closes: seq<real>, dayOpen: Option<real>)
    ensures InDay(DayFold(DayLines(text)), day, times0, values0, times, values, closes, dayOpen)
  {
    var lines := DayLines(text);
    times, values, closes, dayOpen := times0, values0, [], None;
    ghost var acc := DayFold([]);
    for j := 0 to |lines|
      invariant acc == DayFold(lines[..j])
      invariant InDay(acc, day, times0, values0, times, values, closes, dayOpen)
    {
      DayFoldStep(lines, j);
      var m := BuildLineMap(lines[j]);
      times, values, closes, dayOpen := WeekLine(day, m, acc, times0, values0, times, values, closes, dayOpen);
      acc := DayStep(acc, m);
    }
    assert lines[..|lines|] == lines;
  }

  /** The weekly handler's body for one present day: read its lines, then update the Monday open and the last close. */
  method WeekDay(day: string, text: string, firstDay: string, times: seq<string>, values: seq<Candle>,
                 mondayOpen: Option<real>, weekLastClose: Option<real>, weekLastCloseDate: Option<string>)
    returns (times': seq<string>, values': seq<Candle>,
             mondayOpen': Option<real>, weekLastClose': Option<real>, weekLastCloseDate': Option<string>)
    ensures WeekAcc(times', values', mondayOpen', weekLastClose', weekLastCloseDate') ==
      WeekStep(WeekAcc(times, values, mondayOpen, weekLastClose, weekLastCloseDate), day, firstDay, text)
  {
    var closes, dayOpen;
    times', values', closes, dayOpen := ReadWeekDay(day, text, times, values);
    mondayOpen', weekLastClose', weekLastCloseDate' := mondayOpen, weekLastClose, weekLastCloseDate;
    if mondayOpen.None? && dayOpen.Some? && day == firstDay {
      mondayOpen' := dayOpen;
    }
    if |closes| > 0 {
      weekLastClose' := Some(closes[|closes| - 1]);
      weekLastCloseDate' := Some(day);
    }
  }

  /** The weekly loop: every present day's lines appended with day-stamped times and fresh candles. */
  method FuturesWeek(days: seq<(string, FileRead)>, round2: real -> real) returns (r: Result<WeekChart>)
    ensures r == WeekReply(days, round2)
  {
    var name := "期货";
    var mondayOpen: Option<real> := None;
    var weekLastClose: Option<real> := None;
    var weekLastCloseDate: Option<string> := None;
    var times: seq<string> := [];
    var values: seq<Candle> := [];
    var firstDay := FirstDay(days);
    for i := 0 to |days|
      invariant name == "期货"
      invariant WeekFold(days[..i], firstDay) == Ok(WeekAcc(times, values, mondayOpen, weekLastClose, weekLastCloseDate))
    {
      assert days[..i + 1][..i] == days[..i];
      ghost var acc := WeekAcc(times, values, mondayOpen, weekLastClose, weekLastCloseDate);
      assert WeekFold(days[..i + 1], firstDay) == DayEffect(acc, days[i].0, firstDay, days[i].1);
      var (day, file) := days[i];
      match file {
        case Missing =>
        case Unreadable =>
          FailureSticks(days, firstDay, i + 1);
          return Err("invalid_weekly_futures");
        case Contents(text) =>
          times, values, mondayOpen, weekLastClose, weekLastCloseDate :=
            WeekDay(day, text, firstDay, times, values, mondayOpen, weekLastClose, weekLastCloseDate);
      }
    }
    assert days[..|days|] == days;
    var w := WeekAcc(times, values, mondayOpen, weekLastClose, weekLastCloseDate);
    return Ok(WeekChartOf(w, round2));
  }

  // ---- properties of the week ----

  /** Each present day's first candle is flat: the open does not carry over from the day before. */
  lemma DayBoundaryIsFlat(acc: WeekAcc, day: string, firstDay: string, text: string)
    requires DayFold(DayLines(text)).closes != []
    ensures var c := WeekStep(acc, day, firstDay, text).values[|acc.values|];
      c.open == c.close == c.low == c.high == DayFold(DayLines(text)).closes[0]
  {
    var d := DayFold(DayLines(text));
    CandlesFollowCloses(d.closes);
    assert WeekStep(acc, day, firstDay, text).values[|acc.values|] == Candles(d.closes)[0];
  }

  /** Every time a day contributes is that day's date, a space, and the line's time. */
  lemma TimesCarryTheirDay(acc: WeekAcc, day: string, firstDay: string, text: string)
    ensures var d := DayFold(DayLines(text));
      var w := WeekStep(acc, day, firstDay, text);
      |w.times| == |acc.times| + |d.times| && w.times[..|acc.times|] == acc.times &&
      forall i :: 0 <= i < |d.times| ==> w.times[|acc.times| + i] == day + " " + d.times[i]
  {
  }

  predicate NoCloses(file: FileRead) {
    file.Missing? || (file.Contents? && DayFold(DayLines(file.text)).closes == [])
  }

  /** A day without closes keeps the week's last close and its date. */
  lemma DayKeepsWeekClose(acc: WeekAcc, day: string, firstDay: string, file: FileRead)
    requires NoCloses(file)
    ensures DayEffect(acc, day, firstDay, file).Ok?
    ensures DayEffect(acc, day, firstDay, file).value.lastClose == acc.lastClose
    ensures DayEffect(acc, day, firstDay, file).value.lastCloseDate == acc.lastCloseDate
  {
    if file.Contents? {
      WeekApplyClose(acc, day, firstDay, DayFold(DayLines(file.text)));
    }
  }

  /** A day with closes sets the week's last close to its own last close, dated that day. */
  lemma DaySetsWeekClose(acc: WeekAcc, day: string, firstDay: string, text: string)
    requires DayFold(DayLines(text)).closes != []
    ensures var closes := DayFold(DayLines(text)).closes;
      DayEffect(acc, day, firstDay, Contents(text)).value.lastClose == Some(closes[|closes| - 1]) &&
      DayEffect(acc, day, firstDay, Contents(text)).value.lastCloseDate == Some(day)
  {
    WeekApplyClose(acc, day, firstDay, DayFold(DayLines(text)));
  }

  /** The week's last close after a day: the day's last close, or the earlier one when the day has none. */
  lemma WeekApplyClose(acc: WeekAcc, day: string, firstDay: string, d: DayAcc)
    ensures var w := WeekApply(acc, day, firstDay, d);
      w.lastClose == (if d.closes != [] then Some(d.closes[|d.closes| - 1]) else acc.lastClose) &&
      w.lastCloseDate == (if d.closes != [] then Some(day) else acc.lastCloseDate)
  {
  }

  /** A last listed day without closes leaves the week's last close as the earlier days had it. */
  lemma LastDayKeepsClose(days: seq<(string, FileRead)>, firstDay: string)
    requires days != [] && WeekFold(days, firstDay).Ok? && NoCloses(days[|days| - 1].1)
    ensures WeekFold(days[..|days| - 1], firstDay).Ok?
    ensures WeekFold(days, firstDay).value.lastClose == WeekFold(days[..|days| - 1], firstDay).value.lastClose
    ensures WeekFold(days, firstDay).value.lastCloseDate == WeekFold(days[..|days| - 1], firstDay).value.lastCloseDate
  {
    var last := days[|days| - 1];
    assert WeekFold(days[..|days| - 1], firstDay).Ok?;
    var acc := WeekFold(days[..|days| - 1], firstDay).value;
    assert WeekFold(days, firstDay) == DayEffect(acc, last.0, firstDay, last.1);
    DayKeepsWeekClose(acc, last.0, firstDay, last.1);
  }

  /** A last listed day with closes sets the week's last close to its own last close. */
  lemma LastDaySetsClose(days: seq<(string, FileRead)>, firstDay: string)
    requires days != [] && WeekFold(days, firstDay).Ok?
    requires days[|days| - 1].1.Contents? && DayFold(DayLines(days[|days| - 1].1.text)).closes != []
    ensures var closes := DayFold(DayLines(days[|days| - 1].1.text)).closes;
      WeekFold(days, firstDay).value.lastClose == Some(closes[|closes| - 1]) &&
      WeekFold(days, firstDay).value.lastCloseDate == Some(days[|days| - 1].0)
  {
    var last := days[|days| - 1];
    assert WeekFold(days[..|days| - 1], firstDay).Ok?;
    var acc := WeekFold(days[..|days| - 1], firstDay).value;
    assert WeekFold(days, firstDay) == DayEffect(acc, last.0, firstDay, last.1);
    DaySetsWeekClose(acc, last.0, firstDay, last.1.text);
  }

  /** Days without closes after the first `k` leave the week's last close where those `k` days put it. */
  lemma {:induction false} QuietDaysKeepClose(days: seq<(string, FileRead)>, firstDay: string, k: nat)
    requires k <= |days| && WeekFold(days, firstDay).Ok?
    requires forall l :: k <= l < |days| ==> NoCloses(days[l].1)
    ensures WeekFold(days[..k], firstDay).Ok?
    ensures WeekFold(days, firstDay).value.lastClose == WeekFold(days[..k], firstDay).value.lastClose
    ensures WeekFold(days, firstDay).value.lastCloseDate == WeekFold(days[..k], firstDay).value.lastCloseDate
    decreases |days|
  {
    if k < |days| {
      var init := days[..|days| - 1];
      LastDayKeepsClose(days, firstDay);
      assert init[..k] == days[..k];
      forall l | k <= l < |init| ensures NoCloses(init[l].1) {
        assert init[l] == days[l];
      }
      QuietDaysKeepClose(init, firstDay, k);
    } else {
      assert days[..k] == days;
    }
  }

  /** The week's last close is the last close of the last day that had any closes, dated that day. */
  lemma LastCloseFromLastTradingDay(days: seq<(string, FileRead)>, firstDay: string, j: nat)
    requires WeekFold(days, firstDay).Ok?
    requires j < |days| && days[j].1.Contents? && DayFold(DayLines(days[j].1.text)).closes != []
    requires forall l :: j < l < |days| ==> NoCloses(days[l].1)
    ensures var closes := DayFold(DayLines(days[j].1.text)).closes;
      WeekFold(days, firstDay).value.lastClose == Some(closes[|closes| - 1]) &&
      WeekFold(days, firstDay).value.lastCloseDate == Some(days[j].0)
  {
    QuietDaysKeepClose(days, firstDay, j + 1);
    var pre := days[..j + 1];
    assert pre[|pre| - 1] == days[j];
    LastDaySetsClose(pre, firstDay);
  }

  /** The Monday open is the first listed day's opening price and is never taken from another date. */
  lemma {:induction false} MondayOpenFromFirstDay(days: seq<(string, FileRead)>)
    requires days != [] && WeekFold(days, days[0].0).Ok?
    requires forall l :: 0 < l < |days| ==> days[l].0 != days[0].0
    ensures WeekFold(days, days[0].0).value.mondayOpen ==
      match days[0].1
      case Contents(text) => DayFold(DayLines(text)).dayOpen
      case _ => None
    decreases |days|
  {
    var init := days[..|days| - 1];
    if |days| > 1 {
      assert init[0] == days[0];
      forall l | 0 < l < |init| ensures init[l].0 != init[0].0 {
        assert init[l] == days[l];
      }
      MondayOpenFromFirstDay(init);
      assert days[|days| - 1].0 != days[0].0;
    } else {
      assert init == [];
    }
  }

  /** An unreadable file on any listed day makes the week a 500. */
  lemma UnreadableDayFails(days: seq<(string, FileRead)>, firstDay: string, j: nat)
    requires j < |days| && days[j].1 == Unreadable
    ensures WeekFold(days, firstDay).Err?
  {
    var pre := days[..j + 1];
    assert pre[..j] == days[..j];
    assert pre[j] == days[j];
    FailureSticks(days, firstDay, j + 1);
  }
}
