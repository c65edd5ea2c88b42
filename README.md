# NQ futures advice server — a Dafny model of its core

The server records a NASDAQ-100 futures quote (Sina symbol `hf_NQ`) once a minute. Each
record is one `key:value|key:value…` line in a file per day. From those files the server:

- draws day and week K-line charts;
- writes a short technical analysis for each day (candle shape, regression trend, 5/10
  moving-average crossover, RSI(14));
- keeps one chat with a language model per day, fed with that analysis, the user's positions
  and the latest news.

A cookie gate guards every page. A second route relays US stock quotes after removing a
blacklist of companies.

This project models the logic behind those features and proves what it promises:

- **Quote record.** The Sina reply is read by position (`service/SinaNewsService.ts`). The
  scheduler writes it as a line (`service/Schedule.ts`). We prove that a written line, and a
  whole day file, parse back into the ticks that were written.
- **Tick parser and analysis** (`service/KLineAnalyze.ts`). The parsing loop and the
  analysis loops (shape rules, least-squares slope, moving averages, RSI) are methods. Each is
  proved equal to a specification function, and the promised properties are proved about
  those functions.
- **Chart handlers** (`routes/futures.ts`). The day and week handlers are methods that follow
  the source's nested loops, and each is proved equal to a fold over the file's lines.
- **File-name sanitising** (`lib/paths.ts`) and **cookie parsing with the auth gate**
  (`lib/auth.ts`).
- **Chat rules** (`routes/chats.ts`):
  - the positions snapshot formatter;
  - `prevDateStr`, on a small `Date` class;
  - which messages the model sees on each turn, and which are written back.
- **Quote filter** (`routes/stockHq.ts`): the query defaults, the market-cap fields and the
  blacklist filter.

Shared conventions:

- Prices are exact `real`s.
- JavaScript `Number(text)` is `JsNumber.ToNumber`, with `None` for NaN:
  - surrounding white space is ignored;
  - blank text is 0;
  - otherwise the text must be a plain decimal.
- `trim` uses the ECMAScript white-space set.
- Some things are parameters of the model rather than modelled:
  - number printing (`${x}`, `toFixed(2)`) and `JSON.stringify`;
  - `decodeURIComponent`;
  - the clock;
  - the language model's reply.
- A data file is `Paths.FileRead`: `Missing`, `Unreadable`, or `Contents(text)`.

## Model

| member | source | states |
|---|---|---|
| KLineTicks.TickOfSnoc | service/KLineAnalyze.ts:22-50 | appending a segment changes the tick exactly as that segment's `switch` case does |
| KLineTicks.FillSegment | service/KLineAnalyze.ts:23-49 | one turn of the loop: a segment without ':' leaves the tick alone, otherwise its trimmed key selects the field set to its trimmed value |
| KLineTicks.ParseFuturesLine | service/KLineAnalyze.ts:18-52 | the segment loop returns `LineTick(line)`: null only for the empty line, otherwise the tick the segments describe |
| KLineTicks.SegmentWithoutColonSkipped | service/KLineAnalyze.ts:23-24 | a segment without `:` leaves the tick unchanged |
| KLineTicks.UnknownKeySkipped | service/KLineAnalyze.ts:46-48 | a segment with an unknown key leaves the tick unchanged |
| KLineTicks.FirstColonSeparates | service/KLineAnalyze.ts:23-26 | only the first `:` separates key from value, so `09:30:00` keeps its colons; both sides are trimmed |
| KLineTicks.RepeatedPriceLastWins | service/KLineAnalyze.ts:31-33 | a repeated key takes its last value (a non-number makes the field undefined again); other fields are untouched |
| KLineTicks.EmptyPriceIsZero | service/KLineAnalyze.ts:13-16 | `现价:` with an empty value gives price 0, not undefined |
| KLineTicks.NonBlankLines | service/KLineAnalyze.ts:56 | the kept lines are non-empty |
| KLineTicks.TicksOfNonEmpty | service/KLineAnalyze.ts:57 | no non-empty line is dropped: one tick per line, in order |
| KLineTicks.OneTickPerNonBlankLine | service/KLineAnalyze.ts:54-59 | `parseFuturesText` gives exactly one tick per non-blank line, in file order |
| KLineTicks.LastValueSnoc | service/KLineAnalyze.ts:22-50 | a segment appended after the others decides the value of its own key and leaves every other key's value as it was |
| KLineTicks.LineSeparators | service/KLineAnalyze.ts:56 | `\n` and `\r\n` both end a line: a file's ticks are its first line's ticks followed by the rest's |
| KLineStats.SeqMax | service/KLineAnalyze.ts:100 | `Math.max(...s)` is an element of `s` and at least every element |
| KLineStats.SeqMin | service/KLineAnalyze.ts:101 | `Math.min(...s)` is an element of `s` and at most every element |
| KLineStats.SumBounds | service/KLineAnalyze.ts:122-123 | a sum lies between the length times the least and the length times the greatest element |
| KLineStats.Xs | service/KLineAnalyze.ts:121 | the ranks list has length `n` |
| KLineStats.SumOfRanks | service/KLineAnalyze.ts:121-122 | the mean of the ranks 1..n is (n + 1) / 2 |
| KLineStats.DenominatorPositive | service/KLineAnalyze.ts:124-129 | the regression denominator is positive exactly when there are at least two closes |
| KLineStats.NumeratorIsCentred | service/KLineAnalyze.ts:124-128 | the regression numerator equals the centred weighted sum of the closes |
| KLineStats.CentredPositive | service/KLineAnalyze.ts:124-128 | strictly increasing closes give a positive centred sum |
| KLineStats.CentredNegative | service/KLineAnalyze.ts:124-128 | strictly decreasing closes give a negative centred sum |
| KLineStats.SlopeNeedsTwoCloses | service/KLineAnalyze.ts:129 | with fewer than two closes the slope is 0 |
| KLineStats.SlopeOfFlatCloses | service/KLineAnalyze.ts:119-130 | equal closes give slope 0 |
| KLineStats.SlopeFollowsMonotoneCloses | service/KLineAnalyze.ts:119-130 | strictly rising closes give a positive slope and strictly falling ones a negative slope |
| KLineStats.Sma | service/KLineAnalyze.ts:133-137 | a moving average exists exactly when there are at least `period` values |
| KLineStats.MeanWithinBounds | service/KLineAnalyze.ts:136 | the mean of a non-empty list lies within any bounds of its elements |
| KLineStats.SmaWithinWindow | service/KLineAnalyze.ts:133-137 | a moving average lies between the least and the greatest value of its window |
| KLineStats.Gains | service/KLineAnalyze.ts:155-159 | accumulated gains are never negative |
| KLineStats.Losses | service/KLineAnalyze.ts:155-159 | accumulated losses are never negative |
| KLineStats.LossesZeroIff | service/KLineAnalyze.ts:155-158 | the losses are zero exactly when no delta read is negative |
| KLineStats.RsiBounds | service/KLineAnalyze.ts:160-161 | RSI lies in [0, 100] |
| KLineStats.RsiFullIff | service/KLineAnalyze.ts:160-161 | RSI is 100 exactly when no delta in its window is negative |
| KLineStats.RsiReadsFirstFifteen | service/KLineAnalyze.ts:154-159 | closes after index 14 never affect RSI |
| KLineAnalyze.Present | service/KLineAnalyze.ts:86-94 | the finite-value filter keeps exactly the defined values, never more than it was given |
| KLineAnalyze.PresentMembers | service/KLineAnalyze.ts:86-88 | a value is kept exactly when some entry holds it |
| KLineAnalyze.PresentFirst | service/KLineAnalyze.ts:98 | the first kept value is the first defined one |
| KLineAnalyze.PresentLast | service/KLineAnalyze.ts:99 | the last kept value is the last defined one |
| KLineAnalyze.PresentConcat | service/KLineAnalyze.ts:86-94 | filtering distributes over concatenation |
| KLineAnalyze.Derive | service/KLineAnalyze.ts:102-105 | range is high − low and body is close − open; the two shadows and the body add up to the range |
| KLineAnalyze.Analysis | service/KLineAnalyze.ts:84-165 | null exactly when there are no ticks or a series is empty; otherwise open, close, high and low obey the source's rules, with high and low the extremes of their series |
| KLineAnalyze.ClassifyShape | service/KLineAnalyze.ts:107-117 | the shape assignments give `ShapeOf`, the first matching rule |
| KLineAnalyze.MaSignalByLength | service/KLineAnalyze.ts:138-151 | the crossover needs at least 11 closes; it then compares the short-minus-long gap without and with the last close |
| KLineAnalyze.Indicators | service/KLineAnalyze.ts:119-165 | the RSI, trend, both averages and the crossover of an analysis are those of its closes |
| KLineAnalyze.CrossoverSignal | service/KLineAnalyze.ts:140-151 | the crossover assignments give `MaSignalOf(closes)` |
| KLineAnalyze.RegressionSums | service/KLineAnalyze.ts:124-128 | the loop leaves `num` as the sum of (rank − mean rank)(close − mean close) and `den` as the sum of squared rank deviations |
| KLineAnalyze.LeastSquaresSlope | service/KLineAnalyze.ts:119-129 | the means, the regression loop and the final division compute `Slope(closes)` |
| KLineAnalyze.Rsi14 | service/KLineAnalyze.ts:153-161 | the RSI loop computes `Rsi(closes)` |
| KLineAnalyze.AnalyzeKline | service/KLineAnalyze.ts:84-165 | `analyzeKline` returns `Analysis(ticks)` |
| KLineAnalyze.Measure | service/KLineAnalyze.ts:102-165 | once open, close, high and low are known, the geometry, shape, trend, averages, signal and RSI are `Derive` of them and the closes |
| KLineAnalyze.OpenRule | service/KLineAnalyze.ts:97-98 | open is the first tick's finite `openToday`, else the first finite price |
| KLineAnalyze.CloseRule | service/KLineAnalyze.ts:99 | close is the price of the last tick with a finite price |
| KLineAnalyze.TickValuesInSeries | service/KLineAnalyze.ts:86-94 | every finite value a tick reports enters its series |
| KLineAnalyze.ExtremesOverAllTicks | service/KLineAnalyze.ts:89-101 | high and low are the extremes over every tick, including ticks without a price |
| KLineAnalyze.ShapeEdgeCases | service/KLineAnalyze.ts:108-112 | with no range the shape stays ordinary; a positive range with no body is a doji |
| KLineAnalyze.LongShadows | service/KLineAnalyze.ts:113-114 | a hammer's lower shadow, or a shooting star's upper shadow, is at least half the range |
| KLineAnalyze.StrongCandlesFollowBody | service/KLineAnalyze.ts:115-116 | a strong bullish candle closes above its open, a strong bearish one below |
| KLineAnalyze.TrendOfCloses | service/KLineAnalyze.ts:119-130 | fewer than two or all-equal closes are sideways; monotone closes rise or fall |
| KLineAnalyze.TrendMatchesSlope | service/KLineAnalyze.ts:130 | the trend label reads the sign of the slope |
| KLineAnalyze.MovingAverageRules | service/KLineAnalyze.ts:132-151 | the averages exist from 5 and 10 closes on; a signal needs 11 closes, is a golden cross exactly when the difference turns positive and a death cross exactly when it turns negative |
| KLineAnalyze.AveragesWithinWindows | service/KLineAnalyze.ts:133-139 | MA5 and MA10 each lie between the least and the greatest close of their trailing window |
| KLineAnalyze.RsiOfAnalysis | service/KLineAnalyze.ts:153-161 | the analysis's RSI lies in [0, 100] and reads only the first fifteen closes |
| KLineAnalyze.ReportLines | service/KLineAnalyze.ts:170-177 | the report has five lines |
| KLineAnalyze.MaLineInsufficientIff | service/KLineAnalyze.ts:175 | the average line says "insufficient sample" exactly when either average is undefined |
| KLineAnalyze.ShortDayReportsInsufficientSample | service/KLineAnalyze.ts:138-139 | a day with fewer than ten closes never reports averages |
| KLineAnalyze.ReportSplitsIntoLines | service/KLineAnalyze.ts:170-178 | when printed numbers contain no line break, the report splits back into exactly its five lines |
| KLineAnalyze.AnalyzeFuturesForDate | service/KLineAnalyze.ts:181-192 | a missing file and an unreadable file each give their fixed sentence |
| KLineAnalyze.IncompleteDayReport | service/KLineAnalyze.ts:181-192 | ticks lacking a price, a high or a low give the no-data sentence and the time line |
| KLineAnalyze.SingleTickDoji | service/KLineAnalyze.ts:84-117 | a single flat tick over a range of 2 is a doji |
| KLineAnalyze.SeriesOfPriceTicks | service/KLineAnalyze.ts:86-94 | for price-only ticks the three series are the prices themselves |
| KLineAnalyze.RisingDaySaturatesRsi | service/KLineAnalyze.ts:153-161 | closes 100..104 give RSI 100 and a rising trend |
| KLineAnalyze.PriceIndicators | service/KLineAnalyze.ts:84-165 | for price-only ticks there is an analysis, and its RSI, trend, averages and crossover are those of the prices |
| KLineAnalyze.RisingIndicators | service/KLineAnalyze.ts:119-161 | five to nine strictly rising closes give RSI 100, a positive slope, a 5-period average, no 10-period average and no crossover |
| KLineAnalyze.FallingDay | service/KLineAnalyze.ts:119-130 | closes 10, 9, 8, 7 give a falling trend |
| Paths.Sanitize | lib/paths.ts:32 | the stem is no longer than the input and holds only digits and `-` |
| Paths.SanitizeKeepsSafeInOrder | lib/paths.ts:32 | the stem keeps every digit and `-` of the input, in order and as often as it occurs, and nothing else |
| Paths.SanitizeConcat | lib/paths.ts:32 | sanitising distributes over concatenation |
| Paths.SanitizeFixedPoint | lib/paths.ts:32 | a text is left as it is exactly when it is made only of digits and `-` |
| Paths.SanitizeIdempotent | lib/paths.ts:32 | sanitising twice is sanitising once |
| Paths.PathsShareStem | lib/paths.ts:31-39 | both helpers use the same stem; each file is a direct child of its directory, named stem + `.txt` or `.json` |
| Paths.ListingRecoversDate | routes/futures.ts:13 | the futures listing recovers the sanitised date of every day file |
| FuturesSeries.BuildLineMap | routes/futures.ts:34-42 | the segment loop builds `LineMapOf(ln)` |
| FuturesSeries.LastSegmentWins | routes/futures.ts:35-41 | a key's value comes from the last segment carrying that key |
| FuturesSeries.AbsentKey | routes/futures.ts:34-42 | a key no segment carries is absent |
| FuturesSeries.ColonAtStartSkipped | routes/futures.ts:36-37 | a segment whose first `:` is at position 0 adds nothing |
| FuturesSeries.KeyValueSegment | routes/futures.ts:36-40 | `k:v` splits at its first `:` into `k` and `v`; the value keeps its own colons |
| FuturesSeries.PricePriority | routes/futures.ts:45-49 | the price keys are tried in order `现价`, `最新价`, `收盘价` (open: `今日开盘价`, `开盘价`); an empty value counts as missing |
| FuturesSeries.KeptLines | routes/futures.ts:26 | the kept lines are non-blank lines of the input, left untrimmed |
| FuturesSeries.KeptLinesComplete | routes/futures.ts:26 | every non-blank line is kept |
| FuturesSeries.KeptCons | routes/futures.ts:26 | a line in front is kept exactly when it is non-blank, ahead of the rest's kept lines |
| FuturesSeries.KeptLinesConcat | routes/futures.ts:26 | the filter distributes over concatenation, so the kept lines keep their order |
| FuturesSeries.DayLineBreaks | routes/futures.ts:26 | `\n` and `\r\n` both end a line: a day's kept lines are its first line when non-blank, then those of the rest |
| FuturesSeries.Candles | routes/futures.ts:68-79 | one candle per close |
| FuturesSeries.SynthesizeCandles | routes/futures.ts:69-79 | the candle loop returns `Candles(closes)` |
| FuturesSeries.DayLine | routes/futures.ts:43-65 | one line's step of the day handler equals `DayStep` on that line's map |
| FuturesSeries.FuturesDay | routes/futures.ts:18-84 | the day handler returns `DayReply(file)`: 404 for a missing file, 500 for an unreadable one, else the chart folded over the kept lines |
| FuturesSeries.TimesAlignWithCloses | routes/futures.ts:63-66 | `times` and `closes` grow together, at most one entry per line |
| FuturesSeries.AppendIffNumeric | routes/futures.ts:44-46 | a line is appended exactly when its price text is a number, with that number and its time |
| FuturesSeries.NoPriceKeyAppendsZero | routes/futures.ts:45-46 | a line with none of the price keys still appends, with close 0 (`Number("")` is 0) |
| FuturesSeries.NameFromFirstLine | routes/futures.ts:43 | the name comes from the first line: its `名称`, or `期货` when that is missing or empty |
| FuturesSeries.LastNumericValueWins | routes/futures.ts:48-62 | the opening and previous-close prices come from the last line whose value is a number |
| FuturesSeries.MissingKeyResetsToZero | routes/futures.ts:48-62 | a later line without the opening or previous-close key resets that price to 0 |
| FuturesSeries.OpenLast | routes/futures.ts:48-54 | the last line's opening price, when it is a number, replaces the earlier one; otherwise the earlier one stays |
| FuturesSeries.PrevCloseLast | routes/futures.ts:56-62 | the last line's previous close, when it is a number, replaces the earlier one; otherwise the earlier one stays |
| FuturesSeries.OpenNullOnlyWhenNeverSet | routes/futures.ts:48-54 | `dayOpen` is null exactly when no line's opening text is a number |
| FuturesSeries.LastCloseNullOnlyWhenNeverSet | routes/futures.ts:56-62 | `lastClose` is null exactly when no line's `昨日收盘价` text is a number |
| FuturesSeries.CandlesFollowCloses | routes/futures.ts:68-79 | each candle spans its open and close and opens at the previous close; the first is flat |
| FuturesSeries.CandlesSnoc | routes/futures.ts:70-78 | adding a close adds one candle that opens at the previous close |
| FuturesSeries.Stamped | routes/futures.ts:131 | every time gets its day prefix; the count is kept |
| FuturesSeries.StampedSnoc | routes/futures.ts:131 | stamping distributes over appending one time |
| FuturesSeries.WeekChartOf | routes/futures.ts:152-157 | the change exists exactly when both the Monday open and the last close do; the percentage also needs a non-zero Monday open |
| FuturesSeries.FailureSticks | routes/futures.ts:104-108 | once a day fails, the whole week fails with the same error |
| FuturesSeries.WeekLine | routes/futures.ts:111-138 | one line's step of the weekly handler equals `DayStep` on that line plus the day-stamped time and candle |
| FuturesSeries.ReadWeekDay | routes/futures.ts:107-139 | the loop over one day's lines ends in the day's fold |
| FuturesSeries.WeekDay | routes/futures.ts:104-150 | one present day updates the weekly state as `WeekStep` does |
| FuturesSeries.FuturesWeek | routes/futures.ts:87-173 | the weekly handler returns `WeekReply(days, round2)` |
| FuturesSeries.DayBoundaryIsFlat | routes/futures.ts:132-133 | each day's first candle is flat: the open does not carry over from the day before |
| FuturesSeries.TimesCarryTheirDay | routes/futures.ts:131 | each time a day contributes is that day's date, a space and the line's time |
| FuturesSeries.DayKeepsWeekClose | routes/futures.ts:144-150 | a missing day or a day without closes keeps the week's last close and its date |
| FuturesSeries.DaySetsWeekClose | routes/futures.ts:144-150 | a day with closes sets the week's last close to its own last close and the date to that day |
| FuturesSeries.WeekApplyClose | routes/futures.ts:144-150 | after a day the week's last close is the day's last close, or the earlier one when the day has none |
| FuturesSeries.QuietDaysKeepClose | routes/futures.ts:144-150 | days without closes after the first `k` leave the week's last close and date where the first `k` days put them |
| FuturesSeries.LastCloseFromLastTradingDay | routes/futures.ts:144-150 | the week's last close is the last close of the last day with closes, dated that day |
| FuturesSeries.MondayOpenFromFirstDay | routes/futures.ts:140-143 | the Monday open is the first listed day's opening price, never another day's |
| FuturesSeries.UnreadableDayFails | routes/futures.ts:170-171 | an unreadable file on any listed day makes the week a 500 |
| SinaQuote.FirstQuoted | service/SinaNewsService.ts:27 | the matched payload is non-empty and holds no `"` |
| SinaQuote.QuotedIsInText | service/SinaNewsService.ts:27 | the payload occurs in the reply between two quotes |
| SinaQuote.PayloadAfterPlainPrefix | service/SinaNewsService.ts:27 | after a quote-free prefix, the first quoted run is the payload |
| SinaQuote.EmptyPairSkipped | service/SinaNewsService.ts:27 | an empty `""` does not match, and its closing quote opens the next attempt |
| SinaQuote.EmptyPairThenField | service/SinaNewsService.ts:27 | after a leading `""` the payload is the text up to the next quote, so `"","abc"` matches `,` |
| SinaQuote.Field | service/SinaNewsService.ts:29-40 | a position is defined exactly when it lies within the payload, and then it is that field |
| SinaQuote.GetFutures | service/SinaNewsService.ts:27-60 | the reply fails (TypeError) exactly when no quoted payload exists |
| SinaQuote.NoQuoteThrows | service/SinaNewsService.ts:27-28 | a reply without quotes throws |
| SinaQuote.UnusedPositionsIgnored | service/SinaNewsService.ts:29-40 | positions 1, 7, 9, 10, 11 and from 14 on do not affect the record |
| SinaQuote.ShortPayloadLeavesKeysUndefined | service/SinaNewsService.ts:29-40 | short payloads leave the trailing keys undefined; 14 fields define all nine |
| SinaQuote.ReadsFieldsByPosition | service/SinaNewsService.ts:27-60 | a reply `pre"f0,f1,…"post` reads back each field at its position |
| Schedule.Segments | service/Schedule.ts:22 | nine segments, each a key, `:` and that key's value |
| Schedule.ScheduledWrite | service/Schedule.ts:9-10 | nothing is written exactly when the fetch gave nothing |
| Schedule.QuoteFieldsWritten | service/Schedule.ts:12-20 | a record from `getFutures` writes its own fields, with `''` for each missing one |
| Schedule.PriceFallbackOrder | service/Schedule.ts:13 | a missing keyed price falls back to `price`, then `fields[1]`, then `''` |
| Schedule.LineHasNineSegments | service/Schedule.ts:22 | the line is nine segments joined by `\|` and ends in exactly one line break |
| Schedule.WrittenLineParsesBack | service/Schedule.ts:22 | parsing a written line gives back the time and the price, high, low and opening price (previous close is never written) |
| Schedule.SegmentsTick | service/Schedule.ts:22 | the nine written segments, read in order, give the row's own tick |
| Schedule.RowTickAfterAll | service/Schedule.ts:22 | after the nine keys of a written line the tick holds the time, price, high, low and opening price, and no previous close |
| Schedule.DayFileParsesBack | service/Schedule.ts:22-28 | a day file of clean records parses into one tick per record, in order |
| Schedule.RecordLineTick | service/Schedule.ts:22 | one clean record line contributes exactly its row's tick |
| Schedule.RecordThenRest | service/Schedule.ts:22-28 | a clean record line written in front of any text adds exactly its row's tick in front of that text's ticks |
| Schedule.CleanLineTicks | service/Schedule.ts:22 | a clean written line, read as a file line, gives its row's tick and nothing else |
| Schedule.LineIsTrimmed | service/Schedule.ts:22 | a clean line is left as it is by trimming |
| Schedule.QuoteReplyReadsBack | service/Schedule.ts:9-22 | end to end, a 14-field Sina reply is written and read back with time from position 6 and price, high, low and open from positions 0, 4, 5 and 8 |
| Auth.ParseCookies | lib/auth.ts:3-11 | the part loop returns `Cookies(header, decode)` |
| Auth.FoldFailureSticks | lib/auth.ts:8 | once a part fails to decode, the whole header fails |
| Auth.EmptyHeaderNoCookies | lib/auth.ts:5 | no header, or an empty one, gives no cookies |
| Auth.KeyUpToFirstEquals | lib/auth.ts:7 | the key is the text before the first `=`; the value stops at a second `=` |
| Auth.NoEqualsEmptyValue | lib/auth.ts:8 | a part without `=` is a key with the empty value |
| Auth.EmptyKeySkipped | lib/auth.ts:8 | a part that trims to nothing, or starts with `=`, adds nothing |
| Auth.LaterCookieWins | lib/auth.ts:8 | a later part with the same key overwrites the earlier value |
| Auth.BadValueFails | lib/auth.ts:8 | a value that fails to decode fails the whole header, whatever follows |
| Auth.GateDecisions | lib/auth.ts:19-26 | allowed paths pass; authenticated requests pass; other GETs redirect to `/login.html`; the rest get 401 |
| Auth.AuthOneCookiePasses | lib/auth.ts:13-26 | an `auth=1` cookie passes the gate when "1" decodes to itself |
| Auth.AuthOneCookie | lib/auth.ts:13-15 | a header holding only `auth=1` authenticates |
| Auth.AuthOnePair | lib/auth.ts:6-9 | a header holding only `auth=1` parses to that one cookie |
| Calendar.DaysIn | routes/chats.ts:134-135 | every month has 28 to 31 days |
| Calendar.PrevDay | routes/chats.ts:134-135 | the day before a valid date is a valid date |
| Calendar.NextDay | routes/chats.ts:134-135 | the day after a valid date is a valid date (partner of `PrevDay`) |
| Calendar.PrevNextInverse | routes/chats.ts:134-135 | stepping back then forward, or forward then back, returns to the same date |
| Calendar.AcrossBoundaries | routes/chats.ts:120-136 | month ends, year ends and leap days (2000 and 2024 leap, 1900 and 2023 not) step back correctly |
| Calendar.Trunc | routes/chats.ts:134 | truncation toward zero stays within one of its argument, on the argument's side of zero |
| Calendar.ParseDate | routes/chats.ts:131-134 | an exact date is a valid calendar date within the modelled years |
| Calendar.CalendarDate.constructor | routes/chats.ts:134 | the new `Date` holds the given valid date |
| Calendar.CalendarDate.GetDate | routes/chats.ts:135 | the day of the month lies within the month |
| Calendar.CalendarDate.SetDate | routes/chats.ts:135 | `setDate(d)` with d in 1..days sets the day; 0 moves to the last day of the previous month |
| Calendar.PrevDateStr | routes/chats.ts:120-142 | `prevDateStr`, run on the `Date` class, returns `PrevDateOf(date, today)` |
| Calendar.FormatParses | routes/chats.ts:124-133 | a printed `YYYY-MM-DD` date parses back as the same date |
| Calendar.PrevOfFormatted | routes/chats.ts:120-136 | on a printed calendar date, `prevDateStr` prints the day before |
| Calendar.MissingPartFallsBack | routes/chats.ts:131-141 | with fewer than three `-` parts, the result is the day before the clock's date |
| Calendar.AlwaysAPreviousDay | routes/chats.ts:120-142 | any printed result is the day before some valid date |
| Calendar.LocalExample | routes/chats.ts:121-123 | the day before `2025-11-13` is `2025-11-12` |
| Positions.Or | routes/chats.ts:24-29 | `a \|\| b` is `a` when truthy, else `b` |
| Positions.Coalesce | routes/chats.ts:27-28 | `a ?? b` is `a` unless null or undefined, else `b` |
| Positions.MapOrFail | routes/chats.ts:17-40 | mapping with a callback that may throw gives one result per element in order, and fails exactly when the callback throws on some element |
| Positions.EntryLines | routes/chats.ts:17-40 | one line per entry, in order; it fails exactly when some entry's line throws |
| Positions.NonObjectIsUnknown | routes/chats.ts:17-40 | an array element that is a string, number, boolean or array has none of the properties read, so it prints as an unknown item with no time tag |
| Positions.KindPriority | routes/chats.ts:19-39 | entries are classified in order: asset with finite amount, fund, contract, unknown |
| Positions.LineStartsWithKind | routes/chats.ts:17-40 | every line starts with the time tag and its kind's label |
| Positions.TimeTagOnlyWithTime | routes/chats.ts:18 | the `@time` tag appears exactly when the time is truthy |
| Positions.PercentOnlyWithPositiveTotal | routes/chats.ts:21-22 | the share appears exactly when the total is positive and the amount non-negative |
| Positions.SideUpperCased | routes/chats.ts:34 | a contract's side is printed in upper case |
| Positions.FailsOnNullOrSide | routes/chats.ts:17-40 | formatting throws exactly when some element is `null` (reading `e.time`) or is a contract entry whose side is not text |
| Positions.EmptyFormatsBlank | routes/chats.ts:16 | no entries give the empty text |
| Positions.OneLinePerEntry | routes/chats.ts:41-42 | the text splits into the header, the total line when the total is positive, then one line per entry in order |
| Positions.ReadSnapshot | routes/chats.ts:46-57 | no snapshot without a parsed file; missing entries read as `[]`; a non-numeric total reads as 0 |
| Positions.PositionsSummary | routes/chats.ts:64-67 | no snapshot, or no entries, gives the empty summary |
| Chats.TimeContext | routes/chats.ts:87-91 | the time context is an untagged system message |
| Chats.SummaryMessage | routes/chats.ts:248 | the analysis message is an untagged system message |
| Chats.PositionsMessage | routes/chats.ts:59-62 | none exactly without a non-empty snapshot; it fails exactly when formatting throws; otherwise a system message with the formatted text |
| Chats.Context | routes/chats.ts:249-251 | the context is three messages with positions, two without |
| Chats.MessageTurn | routes/chats.ts:232-264 | a refused turn is a 400, 404 or 500 |
| Chats.BlankTextRefused | routes/chats.ts:234-235 | blank text is a 400, whatever the chat file holds |
| Chats.AnsweredIff | routes/chats.ts:234-246 | a turn is answered exactly when the text is not blank, the chat parses and the positions format; a missing chat is a 404 |
| Chats.TurnKeepsOnlyTheExchange | routes/chats.ts:249-255 | the prompt is the context then the history and the message; the saved history adds exactly the message and the reply, so context is never persisted |
| Chats.TurnsAccumulate | routes/chats.ts:255-256 | two turns append two exchanges, in order |
| Chats.SyncPrevious | routes/chats.ts:145-171 | a refused sync is a 404, 409 or 500 |
| Chats.SyncNeverOverwrites | routes/chats.ts:148-164 | an existing day is a 409; a missing previous day is a 404; otherwise the new history is the time context then yesterday's messages |
| Chats.NewsBase | routes/chats.ts:276-289 | a missing or unparsable chat starts from the strategy prompt |
| Chats.LatestNews | routes/chats.ts:267-309 | the news update fails exactly when the positions fail to format |
| Chats.NewsKeepsItsContext | routes/chats.ts:306-309 | after the history come the request, the news, the summary, the time context and the tagged reply |
| Chats.OnlyTheReplyIsTagged | routes/chats.ts:308-309 | with an untagged history, only the final reply carries a tag |
| Chats.NewsOnEmptyDay | routes/chats.ts:280-289 | without a readable chat the saved history is six messages starting with the strategy |
| Chats.StartChat | routes/chats.ts:190-229 | starting a chat fails exactly when the positions summary fails |
| Chats.StartKeepsThePrompt | routes/chats.ts:204-221 | a new chat saves its whole four-message prompt followed by the advice |
| Chats.OpenerWithoutPositions | routes/chats.ts:201 | without positions the opener is the instruction followed by the news |
| Chats.Chat.constructor | routes/chats.ts:315 | a new chat object holds the given date and messages and no update time |
| Chats.Chat.Save | routes/chats.ts:256-257 | only `messages` and `updatedAt` change |
| Chats.FileOf | routes/chats.ts:237-242 | the history is readable exactly when the file exists and parses |
| Chats.PostMessage | routes/chats.ts:232-264 | the handler answers as `MessageTurn`; an answered turn saves the new history in place, and a refused turn changes nothing |
| Chats.SaveLatestNews | routes/chats.ts:310-318 | the news history replaces the messages of the chat read again before writing, or of a new `{date, messages: []}` |
| StockHq.NumberParam | routes/stockHq.ts:23-26 | an absent or empty number parameter takes its default; otherwise it is `Number(q)` |
| StockHq.TextParam | routes/stockHq.ts:25-28 | an absent text parameter takes its default; otherwise it is passed on as it is |
| StockHq.QueryDefaults | routes/stockHq.ts:23-28 | an empty query asks for page 1, 20 items, market `O`, asc 0, no sort, no id |
| StockHq.TextParamsPassThrough | routes/stockHq.ts:25-28 | a given sort, market or id is passed on unchanged |
| StockHq.Normalize | routes/stockHq.ts:30-39 | fields are kept; `mktcap_billion` is null, and the display is `-`, exactly when `mktcap` is not a number (absent or null counts as NaN) |
| StockHq.NormalizeAll | routes/stockHq.ts:30-39 | normalising keeps the count and order of the items |
| StockHq.Filter | routes/stockHq.ts:40-44 | the filter never returns more items than it was given |
| StockHq.FilterMembers | routes/stockHq.ts:40-44 | an item is kept exactly when it is in the list and the callback accepts it |
| StockHq.ShownIff | routes/stockHq.ts:40-44 | an item is shown exactly when it is in the list and neither name contains a blacklisted name |
| StockHq.FilterConcat | routes/stockHq.ts:40-44 | filtering distributes over concatenation, so order is preserved |
| StockHq.FilterTwice | routes/stockHq.ts:40-44 | filtering twice is filtering once |
| StockHq.BlacklistedHidden | routes/stockHq.ts:7-17 | an item whose Chinese name contains one of the nine blacklisted names is never shown |
| StockHq.ListedShown | routes/stockHq.ts:40-44 | every item without a blacklisted name is shown |
| StockHq.NotAnArrayShowsNothing | routes/stockHq.ts:30 | a reply that is not an array shows nothing |
| JsNumber.BlankIsZero | routes/futures.ts:46 | `Number` of blank text is 0, not NaN |
| JsNumber.NatRoundTrip | routes/chats.ts:125-132 | a printed natural number reads back as itself |
| JsNumber.Pad2RoundTrip | routes/chats.ts:126-127 | a zero-padded two-digit field reads back as its number |

## Left out

- Express, SSE and file-system plumbing are not modelled, and neither is `index.ts`. This
  covers responses, headers, `initSSE`, `mkdirSync` and `appendFileSync`. A file read is an
  input (`FileRead`, `ChatFile`, `AssetFile`), and a write is the value or object handed back.
- The `GET /chats` and `GET /chat/:date` routes are left out: they only relay directory
  listings and file contents.
- The CRUD routes in `routes/assets.ts` and `routes/news.ts`, the login route
  `routes/auth.ts` and the error classes are not part of this model.
- The language model, news mixing (`Agent`, `LLMService`, `NewsService`) and the HTTP
  fetches of Sina and of the US quote service are outside the model. Their results are
  parameters: `llm`, `news` and the quote list. Reply streaming (`accumulateCompletion`) is
  left out; the reply is one string.
- GB18030 decoding is left out; the Sina reply is taken as decoded text.
- The minute timer of `service/Schedule.ts` and its date-named file are left out.
- The clock readings `nowLocal`, `toISOString` and `new Date()` are parameters.
- The moment.js week enumeration of `routes/futures.ts:90-97` is left out. The weekly
  handler receives its list of days.
- IEEE-754 arithmetic is left out: prices are exact reals. This affects `toFixed(2)`,
  `Number(x.toFixed(2))`, `${x}` printing and the `mktcap / 1e8` division. Printing and
  rounding are parameters.
- `Number` of exponent, hex or `Infinity` texts is out of scope: such a text is NaN here.
- KLineAnalyze.ReportLines: the RSI `'N/A'` branch cannot occur with exact reals and is not
  modelled.
- KLineAnalyze.ReportLines: `.filter(Boolean)` is not modelled, because the five lines are
  never empty.
- Calendar.PrevDateOf: `Date` normalisation of out-of-calendar inputs is out of scope, and so
  are years 0-99 (mapped to 1900-1999) and years past 275759. For those inputs the result is
  `None`. Fractional parts are truncated as `Date` does.
- Calendar.PrevDateStr: the fallback to the clock's date uses a `today` parameter.
- Positions.FormatPositions: the non-array guard is not modelled, because callers always pass
  an array.
- Positions.NumberOf: `Number` of an array is not modelled; objects and arrays read as NaN.
- Positions.SideUpperCased: `toUpperCase` is modelled on the ASCII letters a-z only (`Text.Upper`);
  other letters pass through unchanged, so the Unicode case mapping (for example `é` to `É`, or
  `ß` to `SS`, which changes the length) is not modelled.
- Auth.ParseCookies: `decodeURIComponent` is a parameter that may fail (`None`). JavaScript
  prototype keys of the plain-object map are not modelled.
- StockHq.NumberParam: query values are taken as strings; repeated (array) parameters are
  not modelled.
- StockHq.Normalize: the `mktcap` field of the spread object is kept apart from `fields`. NaN
  is `None`, since JSON cannot carry it.
- Chats.MessageTurn: it covers both the POST turn and its streaming twin. In the streaming
  twin, failures after the 400/404 checks end the event stream with an error event instead
  of a 500.
- Chats.LatestNews: a failure of the news fetch or of the language model is not modelled;
  only the positions formatting can fail.
