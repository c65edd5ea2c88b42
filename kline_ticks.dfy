/**
 * The tick parser of service/KLineAnalyze.ts: one day file of `key:value|key:value` lines
 * becomes a sequence of ticks, in file order.
 */
module KLineTicks {
  import opened Wrappers
  import opened Text
  import opened JsNumber

  /** One observation line: every field is optional (`None` = undefined). */
  datatype Tick = Tick(
    time: Option<string>,
    price: Option<real>,
    high: Option<real>,
    low: Option<real>,
    openToday: Option<real>,
    prevClose: Option<real>)

  const EmptyTick := Tick(None, None, None, None, None, None)

  const TimeKey := "当前时间"
  const PriceKey := "现价"
  const HighKey := "最高价"
  const LowKey := "最低价"
  const OpenTodayKey := "今日开盘价"
  const PrevCloseKey := "昨日收盘价"

  predicate KnownKey(k: string) {
    k == TimeKey || k == PriceKey || k == HighKey || k == LowKey || k == OpenTodayKey || k == PrevCloseKey
  }

  /** `toFiniteNumber(v)`: NaN (and so every non-numeric text) is undefined. */
  function ToFiniteNumber(v: string): Option<real> {
    ToNumber(v)
  }

  /** Key and value of one segment, split at its first ':' and both trimmed; `None` without a ':'. */
  function SegmentPair(p: string): Option<(string, string)> {
    match IndexOf(p, ':')
    case None => None
    case Some(i) => Some((Trim(p[..i]), Trim(p[i + 1..])))
  }

  /** The `case` a key selects: the field it sets, or nothing for an unknown key. */
  function KeyEffect(t: Tick, k: string, v: string): Tick {
    if k == TimeKey then t.(time := Some(v))
    else if k == PriceKey then t.(price := ToFiniteNumber(v))
    else if k == HighKey then t.(high := ToFiniteNumber(v))
    else if k == LowKey then t.(low := ToFiniteNumber(v))
    else if k == OpenTodayKey then t.(openToday := ToFiniteNumber(v))
    else if k == PrevCloseKey then t.(prevClose := ToFiniteNumber(v))
    else t
  }

  /** The effect of one segment on the tick being filled (the `switch` of the parser). */
  function ApplySegment(t: Tick, p: string): Tick {
    match SegmentPair(p)
    case None => t
    case Some(kv) => KeyEffect(t, kv.0, kv.1)
  }

  /** The value of the last segment whose key is `key`. */
  function LastValue(segs: seq<string>, key: string): Option<string> {
    if segs == [] then None
    else
      var pair := SegmentPair(segs[|segs| - 1]);
      if pair.Some? && pair.value.0 == key then Some(pair.value.1) else LastValue(segs[..|segs| - 1], key)
  }

  function NumberOf(v: Option<string>): Option<real> {
    match v
    case None => None
    case Some(s) => ToFiniteNumber(s)
  }

  /** The tick a line's segments describe: each field comes from the last segment carrying its key. */
  function TickOf(segs: seq<string>): Tick {
    Tick(
      LastValue(segs, TimeKey),
      NumberOf(LastValue(segs, PriceKey)),
      NumberOf(LastValue(segs, HighKey)),
      NumberOf(LastValue(segs, LowKey)),
      NumberOf(LastValue(segs, OpenTodayKey)),
      NumberOf(LastValue(segs, PrevCloseKey)))
  }

  /** What `parseFuturesLine` returns: null only for the empty line. */
  function LineTick(line: string): Option<Tick> {
    if line == [] then None else Some(TickOf(Split(line, '|')))
  }

  /** Appending a segment to a line acts on the tick exactly as that segment's `case` does. */
  lemma TickOfSnoc(segs: seq<string>, p: string)
    ensures TickOf(segs + [p]) == ApplySegment(TickOf(segs), p)
  {
    LastValueSnoc(segs, p, TimeKey);
    LastValueSnoc(segs, p, PriceKey);
    LastValueSnoc(segs, p, HighKey);
    LastValueSnoc(segs, p, LowKey);
    LastValueSnoc(segs, p, OpenTodayKey);
    LastValueSnoc(segs, p, PrevCloseKey);
    KeysDistinct();
  }

  /** A segment appended after the others decides the value of its own key and no other. */
  lemma LastValueSnoc(segs: seq<string>, p: string, key: string)
    ensures LastValue(segs + [p], key) ==
      if SegmentPair(p).Some? && SegmentPair(p).value.0 == key then Some(SegmentPair(p).value.1) else LastValue(segs, key)
  {
    assert (segs + [p])[..|segs|] == segs;
  }

  lemma KeysDistinct()
    ensures TimeKey != PriceKey && TimeKey != HighKey && TimeKey != LowKey && TimeKey != OpenTodayKey && TimeKey != PrevCloseKey
    ensures PriceKey != HighKey && PriceKey != LowKey && PriceKey != OpenTodayKey && PriceKey != PrevCloseKey
    ensures HighKey != LowKey && HighKey != OpenTodayKey && HighKey != PrevCloseKey
    ensures LowKey != OpenTodayKey && LowKey != PrevCloseKey && OpenTodayKey != PrevCloseKey
  {
    assert TimeKey[0] != PriceKey[0] && TimeKey[0] != HighKey[0] && TimeKey[0] != OpenTodayKey[0] && TimeKey[0] != PrevCloseKey[0];
    assert PriceKey[0] != HighKey[0] && PriceKey[0] != OpenTodayKey[0] && PriceKey[0] != PrevCloseKey[0];
    assert HighKey[1] != LowKey[1] && HighKey[0] != OpenTodayKey[0] && HighKey[0] != PrevCloseKey[0];
    assert LowKey[0] != OpenTodayKey[0] && LowKey[0] != PrevCloseKey[0] && OpenTodayKey[0] != PrevCloseKey[0];
    assert TimeKey[0] != LowKey[0] && PriceKey[0] != LowKey[0];
  }

  /** `parseFuturesLine`: split on '|' and fill the tick segment by segment. */
  method ParseFuturesLine(line: string) returns (r: Option<Tick>)
    ensures r.Some? <==> line != []
    ensures r == LineTick(line)
  {
    if line == [] {
      return None;
    }
    var parts := Split(line, '|');
    var tick := EmptyTick;
    for i := 0 to |parts|
      invariant tick == TickOf(parts[..i])
    {
      TickOfPrefix(parts, i);
      tick := FillSegment(tick, parts[i]);
    }
    assert parts[..|parts|] == parts;
    return Some(tick);
  }

  /** One turn of the parser's loop: a segment with ':' sets the field its trimmed key names. */
  method FillSegment(tick: Tick, p: string) returns (t: Tick)
    ensures t == ApplySegment(tick, p)
  {
    t := tick;
    var idx := IndexOf(p, ':');
    if idx.Some? {
      var key := Trim(p[..idx.value]);
      var val := Trim(p[idx.value + 1..]);
      if key == TimeKey {
        t := t.(time := Some(val));
      } else if key == PriceKey {
        t := t.(price := ToFiniteNumber(val));
      } else if key == HighKey {
        t := t.(high := ToFiniteNumber(val));
      } else if key == LowKey {
        t := t.(low := ToFiniteNumber(val));
      } else if key == OpenTodayKey {
        t := t.(openToday := ToFiniteNumber(val));
      } else if key == PrevCloseKey {
        t := t.(prevClose := ToFiniteNumber(val));
      }
    }
  }

  /** The tick of the first i + 1 segments is the tick of the first i with segment i applied. */
  lemma TickOfPrefix(parts: seq<string>, i: nat)
    requires i < |parts|
    ensures TickOf(parts[..i + 1]) == ApplySegment(TickOf(parts[..i]), parts[i])
  {
    assert parts[..i + 1] == parts[..i] + [parts[i]];
    TickOfSnoc(parts[..i], parts[i]);
  }

  /** A segment without ':' is skipped. */
  lemma SegmentWithoutColonSkipped(segs: seq<string>, p: string)
    requires ':' !in p
    ensures TickOf(segs + [p]) == TickOf(segs)
  {
    TickOfSnoc(segs, p);
  }

  /** A segment with an unknown key leaves the tick unchanged. */
  lemma UnknownKeySkipped(segs: seq<string>, p: string)
    requires SegmentPair(p).Some? && !KnownKey(SegmentPair(p).value.0)
    ensures TickOf(segs + [p]) == TickOf(segs)
  {
    TickOfSnoc(segs, p);
  }

  /** Only the first ':' separates key from value (a time value "09:30:00" keeps its colons); both are trimmed. */
  lemma FirstColonSeparates(key: string, value: string)
    requires ':' !in key
    ensures SegmentPair(key + ":" + value) == Some((Trim(key), Trim(value)))
  {
    IndexOfAfter(key, ':', value);
    var p := key + ":" + value;
    assert p[..|key|] == key && p[|key| + 1..] == value;
  }

  /**
   * A repeated known key takes its last value, even a non-numeric one, which makes the field
   * undefined again; the other fields are untouched.
   */
  lemma RepeatedPriceLastWins(segs: seq<string>, value: string)
    ensures TickOf(segs + [PriceKey + ":" + value]) == TickOf(segs).(price := ToFiniteNumber(Trim(value)))
  {
    FirstColonSeparates(PriceKey, value);
    TrimClean(PriceKey);
    TickOfSnoc(segs, PriceKey + ":" + value);
  }

  /** An empty value such as `现价:` gives price 0, not undefined. */
  lemma EmptyPriceIsZero()
    ensures TickOf(Split(PriceKey + ":", '|')) == EmptyTick.(price := Some(0.0))
  {
    var p := PriceKey + ":";
    assert p == PriceKey + ":" + "";
    FirstColonSeparates(PriceKey, "");
    TrimClean(PriceKey);
    assert IndexOf(p, '|') == None;
    assert Split(p, '|') == [p];
    TickOfSnoc([], p);
    assert [p] == [] + [p];
  }

  // ---- parseFuturesText ----

  /** The lines kept by `.map((l) => l.trim()).filter(Boolean)`. */
  function NonBlankLines(lines: seq<string>): (r: seq<string>)
    ensures forall i :: 0 <= i < |r| ==> r[i] != []
  {
    if lines == [] then []
    else (var t := Trim(lines[0]); if t == [] then [] else [t]) + NonBlankLines(lines[1..])
  }

  /** `lines.map(parseFuturesLine).filter((t) => !!t)`. */
  function TicksOf(lines: seq<string>): seq<Tick> {
    if lines == [] then [] else TickList(lines[0]) + TicksOf(lines[1..])
  }

  /** The tick of one line as a list: empty when `parseFuturesLine` gives null. */
  function TickList(line: string): seq<Tick> {
    match LineTick(line)
    case None => []
    case Some(t) => [t]
  }

  /** `parseFuturesText(text)`. */
  function ParseFuturesText(text: string): seq<Tick> {
    if text == [] then [] else TicksOf(NonBlankLines(SplitLines(text)))
  }

  /** No non-empty line is dropped: one tick per line, in order. */
  lemma {:induction false} TicksOfNonEmpty(lines: seq<string>)
    requires forall i :: 0 <= i < |lines| ==> lines[i] != []
    ensures |TicksOf(lines)| == |lines|
    ensures forall k :: 0 <= k < |lines| ==> TicksOf(lines)[k] == TickOf(Split(lines[k], '|'))
  {
    if lines != [] {
      TicksOfNonEmpty(lines[1..]);
      assert TicksOf(lines) == [TickOf(Split(lines[0], '|'))] + TicksOf(lines[1..]);
    }
  }

  /** `parseFuturesText` yields exactly one tick per line that is non-blank after trimming, in file order. */
  lemma OneTickPerNonBlankLine(text: string)
    ensures var lines := NonBlankLines(SplitLines(text));
      |ParseFuturesText(text)| == |lines| &&
      forall k :: 0 <= k < |lines| ==> ParseFuturesText(text)[k] == TickOf(Split(lines[k], '|'))
  {
    TicksOfNonEmpty(NonBlankLines(SplitLines(text)));
  }

  lemma {:induction false} NonBlankConcat(a: seq<string>, b: seq<string>)
    ensures NonBlankLines(a + b) == NonBlankLines(a) + NonBlankLines(b)
  {
    if a != [] {
      assert (a + b)[1..] == a[1..] + b;
      NonBlankConcat(a[1..], b);
    } else {
      assert a + b == b;
    }
  }

  lemma TicksCons(x: string, rest: seq<string>)
    ensures TicksOf([x] + rest) == TickList(x) + TicksOf(rest)
  {
    assert ([x] + rest)[1..] == rest;
  }

  lemma {:induction false} TicksConcat(a: seq<string>, b: seq<string>)
    ensures TicksOf(a + b) == TicksOf(a) + TicksOf(b)
  {
    if a == [] {
      assert a + b == b;
    } else {
      var x, tail := a[0], a[1..];
      assert a == [x] + tail;
      assert a + b == [x] + (tail + b);
      calc {
        TicksOf(a + b);
        { TicksCons(x, tail + b); }
        TickList(x) + TicksOf(tail + b);
        { TicksConcat(tail, b); }
        TickList(x) + (TicksOf(tail) + TicksOf(b));
        (TickList(x) + TicksOf(tail)) + TicksOf(b);
        { TicksCons(x, tail); }
        TicksOf(a) + TicksOf(b);
      }
    }
  }

  /** Removing one trailing white-space character does not change the trim. */
  lemma {:induction false} TrimDropTrailingSpace(s: string)
    requires s != [] && IsSpace(s[|s| - 1])
    ensures Trim(s[..|s| - 1]) == Trim(s)
  {
    TrimStartSnoc(s[..|s| - 1], s[|s| - 1]);
    assert s[..|s| - 1] + [s[|s| - 1]] == s;
  }

  lemma {:induction false} TrimStartSnoc(s: string, c: char)
    requires IsSpace(c)
    ensures TrimStart(s + [c]) == if TrimStart(s) == [] then [] else TrimStart(s) + [c]
    ensures TrimEnd(TrimStart(s + [c])) == TrimEnd(TrimStart(s))
    decreases |s|
  {
    if s == [] {
      assert TrimStart([c]) == TrimStart([]);
    } else {
      assert (s + [c])[1..] == s[1..] + [c];
      if IsSpace(s[0]) {
        TrimStartSnoc(s[1..], c);
      }
    }
  }

  /** One line of the file: the ticks it contributes. */
  function LineTicks(line: string): seq<Tick> {
    TicksOf(NonBlankLines([line]))
  }

  /** A text whose first line is `x` parses as `x`'s ticks followed by the ticks of the rest. */
  lemma FirstLineTicks(x: string, rest: string, text: string)
    requires text != [] && SplitLines(text) == [x] + SplitLines(rest)
    ensures ParseFuturesText(text) == LineTicks(x) + ParseFuturesText(rest)
  {
    var restLines := SplitLines(rest);
    NonBlankConcat([x], restLines);
    TicksConcat(NonBlankLines([x]), NonBlankLines(restLines));
    if rest == [] {
      assert restLines == [""];
      assert NonBlankLines([""]) == [];
    }
  }

  /** A '\r' left at the end of a line is trimmed away with the other white space. */
  lemma DropCRTicks(line: string)
    ensures LineTicks(DropCR(line)) == LineTicks(line)
  {
    if DropCR(line) != line {
      TrimDropTrailingSpace(line);
    }
    assert NonBlankLines([DropCR(line)]) == NonBlankLines([line]);
  }

  /** "\n" and "\r\n" both separate lines: the ticks of a file are the ticks of its first line followed by the rest's. */
  lemma LineSeparators(line: string, rest: string)
    requires '\n' !in line
    ensures ParseFuturesText(line + "\n" + rest) == LineTicks(line) + ParseFuturesText(rest)
    ensures ParseFuturesText(line + "\r\n" + rest) == LineTicks(line) + ParseFuturesText(rest)
  {
    BreakAt(line, rest);
    FirstLineTicks(DropCR(line), rest, line + "\n" + rest);
    DropCRTicks(line);
    CrBreakAt(line, rest);
    FirstLineTicks(line, rest, line + "\r\n" + rest);
  }
}
