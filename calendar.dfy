/**
 * `prevDateStr` of routes/chats.ts: read `Y-M-D`, build a local `Date`, step it back one day
 * with `setDate(getDate() - 1)` and print it as `YYYY-MM-DD`.  Calendar dates are the
 * proleptic Gregorian ones JavaScript's `Date` uses.
 */
module Calendar {
  import opened Wrappers
  import opened Text
  import opened JsNumber

  /** A calendar date with a 1-based month, as `getFullYear`, `getMonth() + 1` and `getDate` give it. */
  datatype Ymd = Ymd(year: int, month: int, day: int)

  predicate IsLeap(y: int) {
    y % 4 == 0 && (y % 100 != 0 || y % 400 == 0)
  }

  function DaysIn(y: int, m: int): (r: int)
    ensures 28 <= r <= 31
  {
    if m == 2 then (if IsLeap(y) then 29 else 28)
    else if m == 4 || m == 6 || m == 9 || m == 11 then 30
    else 31
  }

  predicate ValidYmd(d: Ymd) {
    1 <= d.month <= 12 && 1 <= d.day <= DaysIn(d.year, d.month)
  }

  /** The last year whose every day a `Date` can hold (its range ends in September of 275760). */
  const MaxYear := 275759

  /**
   * The dates this model follows `Date` on: `new Date(y, m - 1, d)` treats years 0 to 99 as
   * 1900 to 1999, and dates past the end of the `Date` range are invalid.
   */
  predicate InRange(d: Ymd) {
    100 <= d.year <= MaxYear
  }

  /** The day before. */
  function PrevDay(d: Ymd): (r: Ymd)
    requires ValidYmd(d)
    ensures ValidYmd(r)
  {
    if d.day > 1 then Ymd(d.year, d.month, d.day - 1)
    else if d.month > 1 then Ymd(d.year, d.month - 1, DaysIn(d.year, d.month - 1))
    else Ymd(d.year - 1, 12, 31)
  }

  /** The day after: the independent partner of `PrevDay`. */
  function NextDay(d: Ymd): (r: Ymd)
    requires ValidYmd(d)
    ensures ValidYmd(r)
  {
    if d.day < DaysIn(d.year, d.month) then Ymd(d.year, d.month, d.day + 1)
    else if d.month < 12 then Ymd(d.year, d.month + 1, 1)
    else Ymd(d.year + 1, 1, 1)
  }

  /** Stepping back and then forward, or forward and then back, returns to the same date. */
  lemma PrevNextInverse(d: Ymd)
    requires ValidYmd(d)
    ensures NextDay(PrevDay(d)) == d
    ensures PrevDay(NextDay(d)) == d
  {
  }

  /** Month ends, year ends and leap days. */
  lemma AcrossBoundaries()
    ensures PrevDay(Ymd(2024, 3, 1)) == Ymd(2024, 2, 29)
    ensures PrevDay(Ymd(2023, 3, 1)) == Ymd(2023, 2, 28)
    ensures PrevDay(Ymd(2000, 3, 1)) == Ymd(2000, 2, 29)
    ensures PrevDay(Ymd(1900, 3, 1)) == Ymd(1900, 2, 28)
    ensures PrevDay(Ymd(2025, 1, 1)) == Ymd(2024, 12, 31)
    ensures PrevDay(Ymd(2025, 5, 1)) == Ymd(2025, 4, 30)
    ensures PrevDay(Ymd(2025, 11, 13)) == Ymd(2025, 11, 12)
  {
  }

  /** `formatLocal`: the year as printed, the month and the day padded to two digits. */
  function Format(d: Ymd): (r: string)
    requires ValidYmd(d) && d.year >= 0
  {
    NatToString(d.year) + "-" + Pad2(d.month) + "-" + Pad2(d.day)
  }

  /** `ToIntegerOrInfinity`: a finite number truncated toward zero. */
  function Trunc(x: real): (r: int)
    ensures x >= 0.0 ==> r as real <= x < r as real + 1.0
    ensures x < 0.0 ==> r as real - 1.0 < x <= r as real
  {
    if x >= 0.0 then x.Floor else -((-x).Floor)
  }

  /** `Number(parts[k])`, where a missing part is `undefined` and so NaN. */
  function NumberAt(parts: seq<string>, k: nat): Option<real> {
    if k < |parts| then ToNumber(parts[k]) else None
  }

  /** What `new Date(y, m - 1, day)` is built from. */
  datatype DateArg =
    | NotFinite        // a part is NaN: `prevDateStr` throws and falls back to the clock
    | Normalised       // finite, but `Date` would normalise it (or it lies outside `InRange`)
    | Exact(d: Ymd)    // a date `Date` takes as it is

  function ParseDate(date: string): (r: DateArg)
    ensures r.Exact? ==> ValidYmd(r.d) && InRange(r.d)
  {
    var parts := Split(date, '-');
    var y, m, day := NumberAt(parts, 0), NumberAt(parts, 1), NumberAt(parts, 2);
    if y.None? || m.None? || day.None? then NotFinite
    else
      var d := Ymd(Trunc(y.value), Trunc(m.value - 1.0) + 1, Trunc(day.value));
      if ValidYmd(d) && InRange(d) then Exact(d) else Normalised
  }

  /**
   * `prevDateStr(date)` with the clock's date `today`; `None` where `Date` would normalise an
   * out-of-calendar input, which this model does not follow.
   */
  function PrevDateOf(date: string, today: Ymd): Option<string>
    requires ValidYmd(today) && InRange(today)
  {
    match ParseDate(date)
    case NotFinite => Some(Format(PrevDay(today)))
    case Normalised => None
    case Exact(d) => Some(Format(PrevDay(d)))
  }

  /** The local `Date` that `prevDateStr` builds and then moves with `setDate`. */
  class CalendarDate {
    var year: int
    var month: int
    var day: int

    function Value(): Ymd
      reads this
    {
      Ymd(year, month, day)
    }

    ghost predicate Valid()
      reads this
    {
      ValidYmd(Value())
    }

    constructor (d: Ymd)
      requires ValidYmd(d)
      ensures Valid() && Value() == d
    {
      year, month, day := d.year, d.month, d.day;
    }

    function GetDate(): (r: int)
      reads this
      requires Valid()
      ensures 1 <= r <= DaysIn(year, month)
    {
      day
    }

    /**
     * `setDate(d)` for a day of the current month or 0; 0 is the last day of the month before.
     */
    method SetDate(d: int)
      requires Valid() && 0 <= d <= DaysIn(year, month)
      modifies this
      ensures Valid()
      ensures d >= 1 ==> Value() == Ymd(old(year), old(month), d)
      ensures d == 0 ==> Value() == PrevDay(Ymd(old(year), old(month), 1))
    {
      if d >= 1 {
        day := d;
      } else if month > 1 {
        month := month - 1;
        day := DaysIn(year, month);
      } else {
        year, month, day := year - 1, 12, 31;
      }
    }
  }

  /** Moving a date to `getDate() - 1` is the day before. */
  lemma SetDateBack(d: Ymd)
    requires ValidYmd(d)
    ensures d.day - 1 >= 1 ==> PrevDay(d) == Ymd(d.year, d.month, d.day - 1)
    ensures d.day - 1 == 0 ==> PrevDay(d) == PrevDay(Ymd(d.year, d.month, 1))
  {
  }

  /** `prevDateStr`, step by step on a `Date`. */
  method PrevDateStr(date: string, today: Ymd) returns (r: Option<string>)
    requires ValidYmd(today) && InRange(today)
    ensures r == PrevDateOf(date, today)
  {
    var arg := ParseDate(date);
    if arg.Normalised? {
      return None;
    }
    var start := if arg.Exact? then arg.d else today;
    assert PrevDateOf(date, today) == Some(Format(PrevDay(start)));
    var dt := new CalendarDate(start);
    dt.SetDate(dt.GetDate() - 1);
    SetDateBack(start);
    assert dt.Value() == PrevDay(start);
    r := Some(Format(dt.Value()));
  }

  /** Decimal digits hold no dash. */
  lemma DigitsNoDash(s: string)
    requires forall i :: 0 <= i < |s| ==> IsDigit(s[i])
    ensures '-' !in s
  {
  }

  /** Three dash-free parts joined by dashes split back into those parts. */
  lemma SplitThree(a: string, b: string, c: string)
    requires '-' !in a && '-' !in b && '-' !in c
    ensures Split(a + "-" + b + "-" + c, '-') == [a, b, c]
  {
    assert a + "-" + b + "-" + c == a + ['-'] + (b + ['-'] + c);
    SplitFirst(a, '-', b + ['-'] + c);
    SplitFirst(b, '-', c);
    assert Split(c, '-') == [c];
  }

  /** A date string of three parts holding whole numbers of a calendar date parses as that date. */
  lemma ParseThree(date: string, a: string, b: string, c: string, d: Ymd)
    requires Split(date, '-') == [a, b, c]
    requires ToNumber(a) == Some(d.year as real) && ToNumber(b) == Some(d.month as real)
    requires ToNumber(c) == Some(d.day as real)
    requires ValidYmd(d) && InRange(d)
    ensures ParseDate(date) == Exact(d)
  {
    var parts := Split(date, '-');
    assert NumberAt(parts, 0) == Some(d.year as real);
    assert NumberAt(parts, 1) == Some(d.month as real);
    assert NumberAt(parts, 2) == Some(d.day as real);
    assert Trunc(d.month as real - 1.0) == d.month - 1;
    assert Trunc(d.year as real) == d.year;
    assert Trunc(d.day as real) == d.day;
  }

  /** The printed form of a date reads back as that date. */
  lemma FormatParses(d: Ymd)
    requires ValidYmd(d) && InRange(d)
    ensures ParseDate(Format(d)) == Exact(d)
  {
    var ys, ms, ds := NatToString(d.year), Pad2(d.month), Pad2(d.day);
    DigitsNoDash(ys);
    DigitsNoDash(ms);
    DigitsNoDash(ds);
    SplitThree(ys, ms, ds);
    assert Format(d) == ys + "-" + ms + "-" + ds;
    NatRoundTrip(d.year);
    Pad2RoundTrip(d.month);
    Pad2RoundTrip(d.day);
    ParseThree(Format(d), ys, ms, ds, d);
  }

  /** On a printed calendar date, `prevDateStr` prints the day before. */
  lemma PrevOfFormatted(d: Ymd, today: Ymd)
    requires ValidYmd(d) && InRange(d) && ValidYmd(today) && InRange(today)
    ensures PrevDateOf(Format(d), today) == Some(Format(PrevDay(d)))
  {
    FormatParses(d);
  }

  /** Without two dashes some part is `undefined`, so the clock's yesterday is printed. */
  lemma MissingPartFallsBack(date: string, today: Ymd)
    requires ValidYmd(today) && InRange(today)
    requires |Split(date, '-')| < 3
    ensures PrevDateOf(date, today) == Some(Format(PrevDay(today)))
  {
  }

  /** Whatever the input, a printed result is the day before some calendar date. */
  lemma AlwaysAPreviousDay(date: string, today: Ymd)
    requires ValidYmd(today) && InRange(today)
    ensures PrevDateOf(date, today).Some? ==>
      exists d :: ValidYmd(d) && InRange(d) && PrevDateOf(date, today) == Some(Format(PrevDay(d)))
  {
    match ParseDate(date)
    case NotFinite =>
    case Normalised =>
    case Exact(d) =>
  }

  lemma YearText()
    ensures NatToString(2025) == "2025"
  {
    calc {
      NatToString(2025);
      NatToString(202) + [DigitChar(5)];
      NatToString(20) + [DigitChar(2)] + [DigitChar(5)];
      NatToString(2) + [DigitChar(0)] + [DigitChar(2)] + [DigitChar(5)];
      "2025";
    }
  }

  lemma DayTexts()
    ensures Pad2(11) == "11" && Pad2(12) == "12" && Pad2(13) == "13"
  {
    assert NatToString(1) == "1";
    assert NatToString(11) == NatToString(1) + [DigitChar(1)];
    assert NatToString(12) == NatToString(1) + [DigitChar(2)];
    assert NatToString(13) == NatToString(1) + [DigitChar(3)];
  }

  lemma ExampleTexts()
    ensures Format(Ymd(2025, 11, 13)) == "2025-11-13"
    ensures Format(Ymd(2025, 11, 12)) == "2025-11-12"
  {
    YearText();
    DayTexts();
    assert Format(Ymd(2025, 11, 13)) == "2025" + "-" + "11" + "-" + "13";
    assert Format(Ymd(2025, 11, 12)) == "2025" + "-" + "11" + "-" + "12";
  }

  /** The example from the `formatLocal` comment: the day before 2025-11-13 is 2025-11-12. */
  lemma LocalExample(today: Ymd)
    requires ValidYmd(today) && InRange(today)
    ensures PrevDateOf("2025-11-13", today) == Some("2025-11-12")
  {
    ExampleTexts();
    PrevOfFormatted(Ymd(2025, 11, 13), today);
  }
}
