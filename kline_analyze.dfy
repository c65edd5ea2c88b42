/**
 * The day analysis of service/KLineAnalyze.ts: the ticks of one day become an OHLC candle with
 * its shape, a regression trend, 5/10-period moving averages with a crossover signal and an
 * RSI, which is then rendered as a five-line report.
 */
module KLineAnalyze {
  import opened Wrappers
  import opened Text
  import opened KLineTicks
  import opened KLineStats
  import opened Paths

  // ---- the analysis record ----

  /** The candle shapes, in the order the classifier tries them. */
  datatype Shape = Ordinary | Doji | Hammer | ShootingStar | StrongBull | StrongBear

  function ShapeLabel(s: Shape): string {
    match s
    case Ordinary => "普通K线"
    case Doji => "十字线/多空犹豫"
    case Hammer => "锤子线(底部信号可能)"
    case ShootingStar => "射击之星(顶部信号可能)"
    case StrongBull => "大阳线(强势)"
    case StrongBear => "大阴线(弱势)"
  }

  datatype Trend = Rising | Falling | Sideways

  function TrendLabel(t: Trend): string {
    match t
    case Rising => "上升"
    case Falling => "下降"
    case Sideways => "横盘"
  }

  /** The moving-average crossover signals. */
  datatype MaSignal = NoSignal | GoldenCross | DeathCross | ShortAbove | ShortBelow | Level

  function SignalLabel(s: MaSignal): string {
    match s
    case NoSignal => "无"
    case GoldenCross => "黄金交叉(偏多)"
    case DeathCross => "死亡交叉(偏空)"
    case ShortAbove => "短期强于长期(偏多)"
    case ShortBelow => "短期弱于长期(偏空)"
    case Level => "持平"
  }

  /** `KlineAnalysis`: `maShort`/`maLong` are `None` when undefined. */
  datatype KlineAnalysis = KlineAnalysis(
    open: real, high: real, low: real, close: real,
    range: real, body: real, upper: real, lower: real,
    shape: Shape, trend: Trend, slope: real,
    maShort: Option<real>, maLong: Option<real>, maSignal: MaSignal,
    rsi: real)

  // ---- the three filtered series ----

  /** `xs.filter(Number.isFinite)` after the `map`: the defined values, in order. */
  function Present(xs: seq<Option<real>>): (r: seq<real>)
    ensures |r| <= |xs|
  {
    if xs == [] then [] else (if xs[0].Some? then [xs[0].value] else []) + Present(xs[1..])
  }

  /** Exactly the defined values are kept. */
  lemma {:induction false} PresentMembers(xs: seq<Option<real>>)
    ensures forall v :: v in Present(xs) <==> Some(v) in xs
  {
    if xs != [] {
      PresentMembers(xs[1..]);
      assert xs == [xs[0]] + xs[1..];
    }
  }

  function PriceField(ticks: seq<Tick>): (r: seq<Option<real>>)
    ensures |r| == |ticks| && forall i :: 0 <= i < |ticks| ==> r[i] == ticks[i].price
  {
    seq(|ticks|, i requires 0 <= i < |ticks| => ticks[i].price)
  }

  function HighField(ticks: seq<Tick>): (r: seq<Option<real>>)
    ensures |r| == |ticks| && forall i :: 0 <= i < |ticks| ==> r[i] == ticks[i].high
  {
    seq(|ticks|, i requires 0 <= i < |ticks| => ticks[i].high)
  }

  function LowField(ticks: seq<Tick>): (r: seq<Option<real>>)
    ensures |r| == |ticks| && forall i :: 0 <= i < |ticks| ==> r[i] == ticks[i].low
  {
    seq(|ticks|, i requires 0 <= i < |ticks| => ticks[i].low)
  }

  /** `closes`: the finite prices, in tick order. */
  function Closes(ticks: seq<Tick>): seq<real> {
    Present(PriceField(ticks))
  }

  function Highs(ticks: seq<Tick>): seq<real> {
    Present(HighField(ticks))
  }

  function Lows(ticks: seq<Tick>): seq<real> {
    Present(LowField(ticks))
  }

  /** The first defined value is the value of the first `Some`. */
  lemma {:induction false} PresentFirst(xs: seq<Option<real>>, k: nat)
    requires k < |xs| && xs[k].Some? && forall j :: 0 <= j < k ==> xs[j].None?
    ensures Present(xs) != [] && Present(xs)[0] == xs[k].value
  {
    if k > 0 {
      PresentFirst(xs[1..], k - 1);
    }
  }

  /** `Present` distributes over concatenation. */
  lemma {:induction false} PresentConcat(a: seq<Option<real>>, b: seq<Option<real>>)
    ensures Present(a + b) == Present(a) + Present(b)
  {
    if a != [] {
      assert (a + b)[1..] == a[1..] + b;
      PresentConcat(a[1..], b);
    } else {
      assert a + b == b;
    }
  }

  lemma {:induction false} PresentOfNone(xs: seq<Option<real>>)
    requires forall j :: 0 <= j < |xs| ==> xs[j].None?
    ensures Present(xs) == []
  {
    if xs != [] {
      PresentOfNone(xs[1..]);
    }
  }

  /** The last defined value is the value of the last `Some`. */
  lemma PresentLast(xs: seq<Option<real>>, k: nat)
    requires k < |xs| && xs[k].Some? && forall j :: k < j < |xs| ==> xs[j].None?
    ensures Present(xs) != [] && Present(xs)[|Present(xs)| - 1] == xs[k].value
  {
    var tail := xs[k + 1..];
    PresentConcat(xs[..k + 1], tail);
    PresentMembers(tail);
    assert xs == xs[..k + 1] + tail;
    PresentOfNone(tail);
    PresentConcat(xs[..k], [xs[k]]);
    assert xs[..k + 1] == xs[..k] + [xs[k]];
    assert Present([xs[k]]) == [xs[k].value] by {
      assert [xs[k]][1..] == [];
    }
  }

  // ---- shape, trend and crossover rules ----

  /** The shape classifier: the rules are tried in a fixed order and the first that matches wins. */
  function ShapeOf(range: real, body: real, upper: real, lower: real): Shape {
    if range > 0.0 then
      var bodyAbs := Abs(body);
      var bodyRatio := bodyAbs / range;
      if bodyRatio < 0.1 then Doji
      else if lower >= bodyAbs * 2.0 && upper <= bodyAbs then Hammer
      else if upper >= bodyAbs * 2.0 && lower <= bodyAbs then ShootingStar
      else if body > 0.0 && bodyRatio > 0.6 then StrongBull
      else if body < 0.0 && bodyRatio > 0.6 then StrongBear
      else Ordinary
    else Ordinary
  }

  function TrendOf(slope: real): Trend {
    if slope > 0.0 then Rising else if slope < 0.0 then Falling else Sideways
  }

  /** The crossover rule on the previous and the current short-minus-long difference. */
  function CrossOf(before: real, now: real): MaSignal {
    if before <= 0.0 && now > 0.0 then GoldenCross
    else if before >= 0.0 && now < 0.0 then DeathCross
    else if now > 0.0 then ShortAbove
    else if now < 0.0 then ShortBelow
    else Level
  }

  /** `maSignal`: the averages of the whole series against those of the series without its last close. */
  function MaSignalOf(closes: seq<real>): MaSignal {
    var n := |closes|;
    var maShort, maLong := Sma(closes, 5), Sma(closes, 10);
    if maShort.Some? && maLong.Some? then
      var prevShort := if n >= 6 then Sma(closes[..n - 1], 5) else None;
      var prevLong := if n >= 11 then Sma(closes[..n - 1], 10) else None;
      if prevShort.Some? && prevLong.Some? then CrossOf(prevShort.value - prevLong.value, maShort.value - maLong.value)
      else NoSignal
    else NoSignal
  }

  // ---- the analysis ----

  /** The record `analyzeKline` builds from the day's open, close, extremes and close series. */
  function Derive(open: real, close: real, high: real, low: real, closes: seq<real>): (a: KlineAnalysis)
    ensures a.range == high - low && a.body == close - open
    ensures a.upper + a.lower + Abs(a.body) == a.range
    ensures a.upper == high - Larger(open, close) && a.lower == Smaller(open, close) - low
  {
    var range, body := high - low, close - open;
    var upper, lower := high - Larger(open, close), Smaller(open, close) - low;
    KlineAnalysis(
      open, high, low, close, range, body, upper, lower,
      ShapeOf(range, body, upper, lower),
      TrendOf(Slope(closes)), Slope(closes),
      Sma(closes, 5), Sma(closes, 10), MaSignalOf(closes),
      Rsi(closes))
  }

  /** `analyzeKline(ticks)`, as a value: `None` for null. */
  function Analysis(ticks: seq<Tick>): (r: Option<KlineAnalysis>)
    ensures r.None? <==> ticks == [] || Closes(ticks) == [] || Highs(ticks) == [] || Lows(ticks) == []
    ensures r.Some? ==> r.value.close == Closes(ticks)[|Closes(ticks)| - 1]
    ensures r.Some? ==> r.value.open == if ticks[0].openToday.Some? then ticks[0].openToday.value else Closes(ticks)[0]
    ensures r.Some? ==> r.value.high in Highs(ticks) && r.value.low in Lows(ticks)
    ensures r.Some? ==> forall v :: v in Highs(ticks) ==> v <= r.value.high
    ensures r.Some? ==> forall v :: v in Lows(ticks) ==> r.value.low <= v
    ensures r.Some? ==> r.value.range == r.value.high - r.value.low
    ensures r.Some? ==> r.value.upper + r.value.lower + Abs(r.value.body) == r.value.range
  {
    var closes, highs, lows := Closes(ticks), Highs(ticks), Lows(ticks);
    if ticks == [] || closes == [] || highs == [] || lows == [] then None
    else
      var open := if ticks[0].openToday.Some? then ticks[0].openToday.value else closes[0];
      Some(Derive(open, closes[|closes| - 1], SeqMax(highs), SeqMin(lows), closes))
  }

  /** The shape assignments of `analyzeKline`: `shape` starts ordinary and the first matching rule replaces it. */
  method ClassifyShape(range: real, body: real, upper: real, lower: real) returns (shape: Shape)
    ensures shape == ShapeOf(range, body, upper, lower)
  {
    shape := Ordinary;
    var bodyAbs := Abs(body);
    if range > 0.0 {
      var bodyRatio := bodyAbs / range;
      if bodyRatio < 0.1 {
        shape := Doji;
      } else if lower >= bodyAbs * 2.0 && upper <= bodyAbs {
        shape := Hammer;
      } else if upper >= bodyAbs * 2.0 && lower <= bodyAbs {
        shape := ShootingStar;
      } else if body > 0.0 && bodyRatio > 0.6 {
        shape := StrongBull;
      } else if body < 0.0 && bodyRatio > 0.6 {
        shape := StrongBear;
      }
    }
  }

  /** Both previous averages exist exactly when there are at least 11 closes. */
  lemma MaSignalByLength(closes: seq<real>)
    ensures var n := |closes|;
      MaSignalOf(closes) ==
        if n >= 11 then
          CrossOf(Sma(closes[..n - 1], 5).value - Sma(closes[..n - 1], 10).value,
                  Sma(closes, 5).value - Sma(closes, 10).value)
        else NoSignal
  {
  }

  /** The crossover assignments of `analyzeKline`: `maSignal` stays "无" unless both previous averages exist. */
  method CrossoverSignal(closes: seq<real>) returns (maSignal: MaSignal)
    ensures maSignal == MaSignalOf(closes)
  {
    MaSignalByLength(closes);
    var maShort, maLong := Sma(closes, 5), Sma(closes, 10);
    maSignal := NoSignal;
    if maShort.Some? && maLong.Some? {
      var n := |closes|;
      var prevShort := if n >= 6 then Sma(closes[..n - 1], 5) else None;
      var prevLong := if n >= 11 then Sma(closes[..n - 1], 10) else None;
      if prevShort.Some? && prevLong.Some? {
        var before := prevShort.value - prevLong.value;
        var now := maShort.value - maLong.value;
        if before <= 0.0 && now > 0.0 {
          maSignal := GoldenCross;
        } else if before >= 0.0 && now < 0.0 {
          maSignal := DeathCross;
        } else {
          maSignal := if now > 0.0 then ShortAbove else if now < 0.0 then ShortBelow else Level;
        }
      }
    }
  }

  /** The regression loop of `analyzeKline`: `num` and `den` accumulated over the ranks 1..n around the given means. */
  method RegressionSums(closes: seq<real>, meanX: real, meanY: real) returns (num: real, den: real)
    ensures num == CrossDeviation(closes, meanX, meanY)
    ensures den == SquareDeviation(|closes|, meanX)
  {
    var n := |closes|;
    var xs := Xs(n);
    num, den := 0.0, 0.0;
    for i := 0 to n
      invariant num == CrossDeviation(closes[..i], meanX, meanY)
      invariant den == SquareDeviation(i, meanX)
    {
      RegressionStep(closes, i, meanX, meanY);
      num := num + (xs[i] - meanX) * (closes[i] - meanY);
      den := den + (xs[i] - meanX) * (xs[i] - meanX);
    }
    assert closes[..n] == closes;
  }

  /** The trend slope of `analyzeKline`: the means, the regression loop, then `den > 0 ? num / den : 0`. */
  method LeastSquaresSlope(closes: seq<real>) returns (slope: real)
    requires |closes| > 0
    ensures slope == Slope(closes)
  {
    var n := |closes|;
    var meanX := Sum(Xs(n)) / n as real;
    var meanY := Sum(closes) / n as real;
    var num, den := RegressionSums(closes, meanX, meanY);
    SlopeFromSums(closes, num, den);
    slope := if den > 0.0 then num / den else 0.0;
  }

  /** The RSI loop of `analyzeKline`: gains and losses over the deltas i = 1 .. min(14, n - 1). */
  method Rsi14(closes: seq<real>) returns (rsi: real)
    ensures rsi == Rsi(closes)
  {
    var n := |closes|;
    var period := Min(14, n);
    var gains, losses := 0.0, 0.0;
    var i := 1;
    while i < n && i < period + 1
      invariant 1 <= i && (i <= n || n == 0) && i <= period + 1
      invariant gains == Gains(closes, i - 1) && losses == Losses(closes, i - 1)
    {
      var diff := closes[i] - closes[i - 1];
      if diff > 0.0 {
        gains := gains + diff;
      } else {
        losses := losses - diff;
      }
      i := i + 1;
    }
    assert i - 1 == RsiSpan(n);
    rsi := if losses > 0.0 then 100.0 - 100.0 / (1.0 + gains / losses) else 100.0;
  }

  /** `analyzeKline`: fills the record step by step, with the regression and RSI loops of the source. */
  method AnalyzeKline(ticks: seq<Tick>) returns (r: Option<KlineAnalysis>)
    ensures r == Analysis(ticks)
  {
    if |ticks| == 0 {
      return None;
    }
    var closes, highs, lows := Closes(ticks), Highs(ticks), Lows(ticks);
    if |closes| == 0 || |highs| == 0 || |lows| == 0 {
      return None;
    }
    var open := if ticks[0].openToday.Some? then ticks[0].openToday.value else closes[0];
    var close := closes[|closes| - 1];
    var high, low := SeqMax(highs), SeqMin(lows);
    var a := Measure(open, close, high, low, closes);
    r := Some(a);
  }

  /** The candle geometry, shape, trend, averages and RSI of `analyzeKline`, once its prices are known. */
  method Measure(open: real, close: real, high: real, low: real, closes: seq<real>) returns (a: KlineAnalysis)
    requires |closes| > 0
    ensures a == Derive(open, close, high, low, closes)
  {
    var range := high - low;
    var body := close - open;
    var upper := high - Larger(open, close);
    var lower := Smaller(open, close) - low;

    var shape := ClassifyShape(range, body, upper, lower);

    var slope := LeastSquaresSlope(closes);
    var trend := if slope > 0.0 then Rising else if slope < 0.0 then Falling else Sideways;

    var maShort, maLong := Sma(closes, 5), Sma(closes, 10);
    var maSignal := CrossoverSignal(closes);

    var rsi := Rsi14(closes);

    a := KlineAnalysis(
      open, high, low, close, range, body, upper, lower,
      shape, trend, slope, maShort, maLong, maSignal, rsi);
  }

  // ---- properties of the analysis ----

  /** `open` is the first tick's finite `openToday`, else the first finite price. */
  lemma OpenRule(ticks: seq<Tick>, k: nat)
    requires Analysis(ticks).Some?
    requires k < |ticks| && ticks[k].price.Some? && forall j :: 0 <= j < k ==> ticks[j].price.None?
    ensures Analysis(ticks).value.open ==
      if ticks[0].openToday.Some? then ticks[0].openToday.value else ticks[k].price.value
  {
    PresentFirst(PriceField(ticks), k);
  }

  /** `close` is the price of the last tick that has a finite price. */
  lemma CloseRule(ticks: seq<Tick>, k: nat)
    requires k < |ticks| && ticks[k].price.Some? && forall j :: k < j < |ticks| ==> ticks[j].price.None?
    requires Analysis(ticks).Some?
    ensures Analysis(ticks).value.close == ticks[k].price.value
  {
    PresentLast(PriceField(ticks), k);
  }

  lemma PresentHas(xs: seq<Option<real>>, i: nat)
    requires i < |xs| && xs[i].Some?
    ensures xs[i].value in Present(xs)
  {
    var v := xs[i].value;
    assert Some(v) == xs[i];
    assert Some(v) in xs;
    PresentMembers(xs);
  }

  /** Every finite value a tick reports enters its series. */
  lemma TickValuesInSeries(ticks: seq<Tick>, i: nat)
    requires i < |ticks|
    ensures ticks[i].high.Some? ==> ticks[i].high.value in Highs(ticks)
    ensures ticks[i].low.Some? ==> ticks[i].low.value in Lows(ticks)
    ensures ticks[i].price.Some? ==> ticks[i].price.value in Closes(ticks)
  {
    if ticks[i].high.Some? {
      assert HighField(ticks)[i] == Some(ticks[i].high.value);
      PresentHas(HighField(ticks), i);
    }
    if ticks[i].low.Some? {
      assert LowField(ticks)[i] == Some(ticks[i].low.value);
      PresentHas(LowField(ticks), i);
    }
    if ticks[i].price.Some? {
      assert PriceField(ticks)[i] == Some(ticks[i].price.value);
      PresentHas(PriceField(ticks), i);
    }
  }

  /**
   * `high` is the greatest and `low` the least finite value reported by any tick, whether or
   * not that tick also has a price.
   */
  lemma ExtremesOverAllTicks(ticks: seq<Tick>, i: nat)
    requires Analysis(ticks).Some? && i < |ticks|
    ensures ticks[i].high.Some? ==> ticks[i].high.value <= Analysis(ticks).value.high
    ensures ticks[i].low.Some? ==> Analysis(ticks).value.low <= ticks[i].low.value
  {
    TickValuesInSeries(ticks, i);
  }

  /** With no range the shape stays ordinary; a positive range with no body is a doji. */
  lemma ShapeEdgeCases(range: real, body: real, upper: real, lower: real)
    ensures range <= 0.0 ==> ShapeOf(range, body, upper, lower) == Ordinary
    ensures range > 0.0 && body == 0.0 ==> ShapeOf(range, body, upper, lower) == Doji
  {
  }

  /** A hammer's lower shadow, and a shooting star's upper shadow, is at least half the range. */
  lemma LongShadows(range: real, body: real, upper: real, lower: real)
    requires upper + lower + Abs(body) == range
    ensures ShapeOf(range, body, upper, lower) == Hammer ==> 2.0 * lower >= range
    ensures ShapeOf(range, body, upper, lower) == ShootingStar ==> 2.0 * upper >= range
  {
  }

  /** A strong bullish candle closes above its open and a strong bearish one below it. */
  lemma StrongCandlesFollowBody(range: real, body: real, upper: real, lower: real)
    ensures ShapeOf(range, body, upper, lower) == StrongBull ==> body > 0.0 && Abs(body) > 0.6 * range
    ensures ShapeOf(range, body, upper, lower) == StrongBear ==> body < 0.0 && Abs(body) > 0.6 * range
  {
    if range > 0.0 {
      var ratio := Abs(body) / range;
      assert Abs(body) == ratio * range;
      if ratio > 0.6 {
        ProductPositive(ratio - 0.6, range);
      }
    }
  }

  /** The trend follows the closes: fewer than two or all-equal closes are sideways, monotone ones rise or fall. */
  lemma TrendOfCloses(ticks: seq<Tick>)
    requires Analysis(ticks).Some?
    ensures var c, t := Closes(ticks), Analysis(ticks).value.trend;
      (|c| < 2 ==> t == Sideways) &&
      ((forall i :: 0 <= i < |c| ==> c[i] == c[0]) ==> t == Sideways) &&
      (|c| >= 2 && StrictlyIncreasing(c) ==> t == Rising) &&
      (|c| >= 2 && StrictlyDecreasing(c) ==> t == Falling)
  {
    var c := Closes(ticks);
    if |c| < 2 {
      SlopeNeedsTwoCloses(c);
    } else {
      SlopeFollowsMonotoneCloses(c);
    }
    if forall i :: 0 <= i < |c| ==> c[i] == c[0] {
      SlopeOfFlatCloses(c);
    }
  }

  /** The trend label reads the sign of the slope. */
  lemma TrendMatchesSlope(ticks: seq<Tick>)
    requires Analysis(ticks).Some?
    ensures var a := Analysis(ticks).value;
      (a.trend == Rising <==> a.slope > 0.0) && (a.trend == Falling <==> a.slope < 0.0) &&
      (a.trend == Sideways <==> a.slope == 0.0)
  {
  }

  /**
   * The averages exist from 5 and 10 closes on; the signal needs 11 closes, and is a golden
   * cross exactly when the difference turns positive.
   */
  lemma MovingAverageRules(closes: seq<real>)
    ensures Sma(closes, 5).Some? <==> |closes| >= 5
    ensures Sma(closes, 10).Some? <==> |closes| >= 10
    ensures |closes| < 11 ==> MaSignalOf(closes) == NoSignal
    ensures |closes| >= 11 ==>
      var n := |closes|;
      var before := Sma(closes[..n - 1], 5).value - Sma(closes[..n - 1], 10).value;
      var now := Sma(closes, 5).value - Sma(closes, 10).value;
      (MaSignalOf(closes) == GoldenCross <==> before <= 0.0 && now > 0.0) &&
      (MaSignalOf(closes) == DeathCross <==> before >= 0.0 && now < 0.0)
  {
  }

  /** MA5 and MA10 each lie between the least and the greatest close of their trailing window. */
  lemma AveragesWithinWindows(closes: seq<real>)
    ensures |closes| >= 5 ==> var w := closes[|closes| - 5..];
      SeqMin(w) <= Sma(closes, 5).value <= SeqMax(w)
    ensures |closes| >= 10 ==> var w := closes[|closes| - 10..];
      SeqMin(w) <= Sma(closes, 10).value <= SeqMax(w)
  {
    if |closes| >= 10 {
      SmaWithinWindow(closes, 5);
      SmaWithinWindow(closes, 10);
    } else if |closes| >= 5 {
      SmaWithinWindow(closes, 5);
    }
  }

  /** Only the first fifteen closes enter the analysis's RSI, which lies in [0, 100]. */
  lemma RsiOfAnalysis(ticks: seq<Tick>)
    requires Analysis(ticks).Some?
    ensures 0.0 <= Analysis(ticks).value.rsi <= 100.0
    ensures var c := Closes(ticks);
      Analysis(ticks).value.rsi == 100.0 <==> forall i :: 1 <= i <= RsiSpan(|c|) ==> c[i] >= c[i - 1]
  {
    RsiBounds(Closes(ticks));
    RsiFullIff(Closes(ticks));
  }

  // ---- the report ----

  const NoDataSentence := "无有效期货数据或字段不完整，暂不分析。"
  const MissingFileSentence := "期货数据文件不存在，跳过分析。"
  const FailedSentence := "期货数据解析失败，跳过分析。"
  const InsufficientMaLine := "均线：样本不足，暂不判断"

  /**
   * The five report lines. `show` is how `${x}` prints a number and `fixed2` is `x.toFixed(2)`;
   * both are IEEE-754 renderings and are parameters here.
   */
  function ReportLines(a: KlineAnalysis, show: real -> string, fixed2: real -> string): (r: seq<string>)
    ensures |r| == 5
  {
    [ "当日K线：开盘 " + show(a.open) + ", 最高 " + show(a.high) + ", 最低 " + show(a.low) + ", 最新价 " + show(a.close),
      "形态判断：" + ShapeLabel(a.shape),
      "趋势判断：" + TrendLabel(a.trend),
      if a.maShort.Some? && a.maLong.Some? then
        "均线：MA5=" + fixed2(a.maShort.value) + ", MA10=" + fixed2(a.maLong.value) + "；信号：" + SignalLabel(a.maSignal)
      else InsufficientMaLine,
      "RSI(≤14)：" + fixed2(a.rsi) + "(≥70偏热，≤30偏冷)" ]
  }

  /** `summarizeKlineAnalysis`: the report lines joined by '\n', or the fixed no-data sentence. */
  function Summarize(ana: Option<KlineAnalysis>, show: real -> string, fixed2: real -> string): string {
    match ana
    case None => NoDataSentence
    case Some(a) => Join(ReportLines(a, show, fixed2), '\n')
  }

  /** The moving-average line says "insufficient sample" exactly when either average is undefined. */
  lemma MaLineInsufficientIff(a: KlineAnalysis, show: real -> string, fixed2: real -> string)
    ensures ReportLines(a, show, fixed2)[3] == InsufficientMaLine <==> a.maShort.None? || a.maLong.None?
  {
    var line := ReportLines(a, show, fixed2)[3];
    if a.maShort.Some? && a.maLong.Some? {
      assert line[3] == 'M';
      assert InsufficientMaLine[3] == '样';
    }
  }

  /** A day with fewer than ten closes never reports averages: its report says the sample is insufficient. */
  lemma ShortDayReportsInsufficientSample(ticks: seq<Tick>, show: real -> string, fixed2: real -> string)
    requires Analysis(ticks).Some? && |Closes(ticks)| < 10
    ensures ReportLines(Analysis(ticks).value, show, fixed2)[3] == InsufficientMaLine
    ensures Analysis(ticks).value.maSignal == NoSignal
  {
  }

  lemma LabelsHaveNoBreak(a: KlineAnalysis)
    ensures '\n' !in ShapeLabel(a.shape) && '\n' !in TrendLabel(a.trend) && '\n' !in SignalLabel(a.maSignal)
  {
  }

  lemma PriceLineNoBreak(a: KlineAnalysis, show: real -> string, fixed2: real -> string)
    requires forall x :: '\n' !in show(x)
    ensures '\n' !in ReportLines(a, show, fixed2)[0]
  {
    assert '\n' !in show(a.open) && '\n' !in show(a.high) && '\n' !in show(a.low) && '\n' !in show(a.close);
  }

  lemma MaLineNoBreak(a: KlineAnalysis, show: real -> string, fixed2: real -> string)
    requires forall x :: '\n' !in fixed2(x)
    ensures '\n' !in ReportLines(a, show, fixed2)[3]
  {
    LabelsHaveNoBreak(a);
    if a.maShort.Some? && a.maLong.Some? {
      var short, long := a.maShort.value, a.maLong.value;
      assert '\n' !in fixed2(short) && '\n' !in fixed2(long);
    }
  }

  lemma RsiLineNoBreak(a: KlineAnalysis, show: real -> string, fixed2: real -> string)
    requires forall x :: '\n' !in fixed2(x)
    ensures '\n' !in ReportLines(a, show, fixed2)[4]
  {
    assert '\n' !in fixed2(a.rsi);
  }

  /** No report line holds a line break when the rendered numbers hold none. */
  lemma ReportLinesNoBreak(a: KlineAnalysis, show: real -> string, fixed2: real -> string)
    requires forall x :: '\n' !in show(x)
    requires forall x :: '\n' !in fixed2(x)
    ensures forall i :: 0 <= i < 5 ==> '\n' !in ReportLines(a, show, fixed2)[i]
  {
    LabelsHaveNoBreak(a);
    PriceLineNoBreak(a, show, fixed2);
    MaLineNoBreak(a, show, fixed2);
    RsiLineNoBreak(a, show, fixed2);
  }

  /** When the rendered numbers contain no line break, the report splits back into exactly its five lines. */
  lemma ReportSplitsIntoLines(a: KlineAnalysis, show: real -> string, fixed2: real -> string)
    requires forall x :: '\n' !in show(x)
    requires forall x :: '\n' !in fixed2(x)
    ensures Split(Summarize(Some(a), show, fixed2), '\n') == ReportLines(a, show, fixed2)
  {
    ReportLinesNoBreak(a, show, fixed2);
    SplitJoin(ReportLines(a, show, fixed2), '\n');
  }

  /** `analyzeFuturesForDate` once the day file has been looked up; `now` is the local clock reading. */
  function AnalyzeFuturesForDate(file: FileRead, now: string, show: real -> string, fixed2: real -> string): (r: string)
    ensures file == Missing ==> r == MissingFileSentence
    ensures file == Unreadable ==> r == FailedSentence
  {
    match file
    case Missing => MissingFileSentence
    case Unreadable => FailedSentence
    case Contents(text) => Summarize(Analysis(ParseFuturesText(text)), show, fixed2) + "\n分析时间：" + now
  }

  /** A file whose ticks lack a price, a high or a low is reported with the no-data sentence and the time line. */
  lemma IncompleteDayReport(text: string, now: string, show: real -> string, fixed2: real -> string)
    requires Closes(ParseFuturesText(text)) == [] || Highs(ParseFuturesText(text)) == [] || Lows(ParseFuturesText(text)) == []
    ensures AnalyzeFuturesForDate(Contents(text), now, show, fixed2) == NoDataSentence + "\n分析时间：" + now
  {
  }

  // ---- worked scenarios ----

  /** One tick 现价 100, high 101, low 99, open 100: a flat candle over a range of 2 is a doji. */
  lemma SingleTickDoji()
    ensures var a := Analysis([Tick(None, Some(100.0), Some(101.0), Some(99.0), Some(100.0), None)]).value;
      a.open == 100.0 && a.close == 100.0 && a.high == 101.0 && a.low == 99.0 &&
      a.body == 0.0 && a.shape == Doji && a.trend == Sideways && a.rsi == 100.0
  {
    var t := Tick(None, Some(100.0), Some(101.0), Some(99.0), Some(100.0), None);
    assert PriceField([t]) == [Some(100.0)];
    assert HighField([t]) == [Some(101.0)];
    assert LowField([t]) == [Some(99.0)];
    assert Closes([t]) == [100.0];
    SlopeNeedsTwoCloses([100.0]);
  }

  /** A tick that reports only a price, used as its own high and low. */
  function PriceTick(p: real): Tick {
    Tick(None, Some(p), Some(p), Some(p), None, None)
  }

  function PriceTicks(ps: seq<real>): (r: seq<Tick>)
    ensures |r| == |ps| && forall i :: 0 <= i < |ps| ==> r[i] == PriceTick(ps[i])
  {
    seq(|ps|, i requires 0 <= i < |ps| => PriceTick(ps[i]))
  }

  lemma {:induction false} PresentOfSomes(xs: seq<Option<real>>, ps: seq<real>)
    requires |xs| == |ps| && forall i :: 0 <= i < |ps| ==> xs[i] == Some(ps[i])
    ensures Present(xs) == ps
  {
    if ps != [] {
      PresentOfSomes(xs[1..], ps[1..]);
      assert ps == [ps[0]] + ps[1..];
    }
  }

  /** For price-only ticks the close, high and low series are the prices themselves. */
  lemma SeriesOfPriceTicks(ps: seq<real>)
    ensures Closes(PriceTicks(ps)) == ps && Highs(PriceTicks(ps)) == ps && Lows(PriceTicks(ps)) == ps
  {
    var ticks := PriceTicks(ps);
    PresentOfSomes(PriceField(ticks), ps);
    PresentOfSomes(HighField(ticks), ps);
    PresentOfSomes(LowField(ticks), ps);
  }

  /** The indicators of an analysis are those of its closes. */
  lemma Indicators(ticks: seq<Tick>)
    requires Analysis(ticks).Some?
    ensures var a, c := Analysis(ticks).value, Closes(ticks);
      a.rsi == Rsi(c) && a.trend == TrendOf(Slope(c)) && a.maShort == Sma(c, 5) &&
      a.maLong == Sma(c, 10) && a.maSignal == MaSignalOf(c)
  {
  }

  /** For price-only ticks, the analysis exists and its indicators are those of the prices. */
  lemma PriceIndicators(c: seq<real>)
    requires c != []
    ensures Analysis(PriceTicks(c)).Some?
    ensures var a := Analysis(PriceTicks(c)).value;
      a.rsi == Rsi(c) && a.trend == TrendOf(Slope(c)) && a.maShort == Sma(c, 5) &&
      a.maLong == Sma(c, 10) && a.maSignal == MaSignalOf(c)
  {
    SeriesOfPriceTicks(c);
    Indicators(PriceTicks(c));
  }

  /** Five to nine strictly rising closes: RSI 100, a positive slope, a short average only, no signal. */
  lemma RisingIndicators(c: seq<real>)
    requires 5 <= |c| < 10 && StrictlyIncreasing(c)
    ensures Rsi(c) == 100.0 && Slope(c) > 0.0 && Sma(c, 5).Some? && Sma(c, 10).None? && MaSignalOf(c) == NoSignal
  {
    forall i | 1 <= i < |c| ensures c[i] >= c[i - 1] {
      assert c[i - 1] < c[i];
    }
    RsiFullIff(c);
    SlopeFollowsMonotoneCloses(c);
    MaSignalByLength(c);
  }

  /** Closes 100, 101, 102, 103, 104: every delta is a gain, so RSI saturates at 100 and the trend rises. */
  lemma RisingDaySaturatesRsi()
    ensures var a := Analysis(PriceTicks([100.0, 101.0, 102.0, 103.0, 104.0])).value;
      a.rsi == 100.0 && a.trend == Rising && a.maShort.Some? && a.maLong.None? && a.maSignal == NoSignal
  {
    var c := [100.0, 101.0, 102.0, 103.0, 104.0];
    assert StrictlyIncreasing(c) by {
      forall i, j | 0 <= i < j < |c| ensures c[i] < c[j] {
        assert c[i] == 100.0 + i as real && c[j] == 100.0 + j as real;
      }
    }
    PriceIndicators(c);
    RisingIndicators(c);
  }

  /** Closes 10, 9, 8, 7 slope downwards: the trend is falling. */
  lemma FallingDay()
    ensures Analysis(PriceTicks([10.0, 9.0, 8.0, 7.0])).value.trend == Falling
  {
    var c := [10.0, 9.0, 8.0, 7.0];
    assert StrictlyDecreasing(c) by {
      forall i, j | 0 <= i < j < |c| ensures c[i] > c[j] {
        assert c[i] == 10.0 - i as real && c[j] == 10.0 - j as real;
      }
    }
    SlopeFollowsMonotoneCloses(c);
    PriceIndicators(c);
  }
}
