// Instants and the texts the application formats them into.
//
// An instant is the wall-clock reading a `datetime` carries, counted in
// microseconds from midnight at the start of 1 January 1970 on that same
// clock. Dates are those of the proleptic Gregorian calendar, as `datetime`
// uses; the texts are those `strftime`, `isoformat` and `fromisoformat` write
// and read.
module Clock {
  import opened Wrappers
  import opened Text

  type Time = nat

  const MicrosPerSecond: nat := 1000000
  const SecondsPerDay: nat := 86400
  const MicrosPerDay: nat := 86400000000

  // The functions and lemmas below write these amounts out as numerals, so
  // that the solver reads their products and quotients as linear arithmetic.

  function Seconds(t: Time): nat { t / 1_000_000 }
  function DayNumber(t: Time): nat { Seconds(t) / 86400 }
  function SecondOfDay(t: Time): nat { Seconds(t) % 86400 }
  function Hour(t: Time): nat { SecondOfDay(t) / 3600 }
  function Minute(t: Time): nat { SecondOfDay(t) % 3600 / 60 }
  function Second(t: Time): nat { SecondOfDay(t) % 60 }
  function MicroOfSecond(t: Time): nat { t % 1_000_000 }

  // ------------------------------------------------------------ the calendar

  predicate IsLeap(y: int)
  {
    y % 4 == 0 && (y % 100 != 0 || y % 400 == 0)
  }

  function DaysInYear(y: int): nat
  {
    if IsLeap(y) then 366 else 365
  }

  /** The number of leap years among the years 1 to `y`. */
  function LeapsThrough(y: int): int
  {
    y / 4 - y / 100 + y / 400
  }

  /** The days from 1 January 1970 to 1 January of year `y`, for a year from 1970 on. */
  function DaysBefore(y: int): nat
    decreases y - 1970
  {
    if y <= 1970 then 0 else DaysBefore(y - 1) + DaysInYear(y - 1)
  }

  lemma {:induction false} QuotientStep(y: int, k: int)
    requires k == 4 || k == 100 || k == 400
    ensures y / k - (y - 1) / k == if y % k == 0 then 1 else 0
  {
    if k == 4 {
    } else if k == 100 {
    } else {
    }
  }

  /** `LeapsThrough` counts year `y` exactly when it is a leap year. */
  lemma {:induction false} LeapStep(y: int)
    ensures LeapsThrough(y) - LeapsThrough(y - 1) == if IsLeap(y) then 1 else 0
  {
    QuotientStep(y, 4);
    QuotientStep(y, 100);
    QuotientStep(y, 400);
  }

  lemma {:induction false} DaysBeforeStep(y: int)
    requires y >= 1970
    ensures DaysBefore(y + 1) == DaysBefore(y) + DaysInYear(y)
  {
  }

  /** The closed form: 365 days a year, plus one for each leap year passed. */
  lemma {:induction false} DaysBeforeClosed(y: int)
    requires y >= 1970
    ensures DaysBefore(y) == 365 * (y - 1970) + LeapsThrough(y - 1) - LeapsThrough(1969)
    decreases y - 1970
  {
    if y > 1970 {
      DaysBeforeClosed(y - 1);
      LeapStep(y - 1);
    }
  }

  /** Each year has at least 365 days. */
  lemma {:induction false} DaysBeforeGrows(a: int, b: int)
    requires 1970 <= a <= b
    ensures DaysBefore(a) + 365 * (b - a) <= DaysBefore(b)
    decreases b - a
  {
    if a < b {
      DaysBeforeStep(a);
      DaysBeforeGrows(a + 1, b);
    }
  }

  function DaysInMonth(m: int, leap: bool): nat
  {
    if m == 2 then (if leap then 29 else 28)
    else if m == 4 || m == 6 || m == 9 || m == 11 then 30
    else 31
  }

  /** The days of the year before the first of month `m`. */
  function DaysBeforeMonth(m: int, leap: bool): nat
    requires 1 <= m <= 12
  {
    [0, 31, 59, 90, 120, 151, 181, 212, 243, 273, 304, 334][m - 1] + (if leap && m > 2 then 1 else 0)
  }

  lemma {:induction false} MonthStep(m: int, leap: bool)
    requires 1 <= m <= 12
    ensures m < 12 ==> DaysBeforeMonth(m + 1, leap) == DaysBeforeMonth(m, leap) + DaysInMonth(m, leap)
    ensures m == 12 ==> DaysBeforeMonth(m, leap) + DaysInMonth(m, leap) == if leap then 366 else 365
  {
  }

  lemma {:induction false} DaysBeforeMonthGrows(a: int, b: int, leap: bool)
    requires 1 <= a <= b <= 12
    ensures DaysBeforeMonth(a, leap) + (if a < b then DaysInMonth(a, leap) else 0) <= DaysBeforeMonth(b, leap)
    decreases b - a
  {
    if a < b {
      MonthStep(a, leap);
      DaysBeforeMonthGrows(a + 1, b, leap);
    }
  }

  /** A date of the Gregorian calendar. */
  datatype Date = Date(year: nat, month: nat, day: nat)

  /** A date from 1970 on, with a month of the year and a day of that month. */
  predicate ValidDate(d: Date)
  {
    1970 <= d.year && 1 <= d.month <= 12 && 1 <= d.day <= DaysInMonth(d.month, IsLeap(d.year))
  }

  /** The days from 1 January 1970 to `d`. */
  function DayNumberOf(d: Date): nat
    requires ValidDate(d)
  {
    DaysBefore(d.year) + DaysBeforeMonth(d.month, IsLeap(d.year)) + d.day - 1
  }

  /** The month `n` days after the first of month `m`, and the day of that month (from 1). */
  function MonthAndDay(n: nat, leap: bool, m: nat): (nat, nat)
    requires 1 <= m <= 12
    decreases 12 - m
  {
    if m == 12 || n < DaysInMonth(m, leap) then (m, n + 1)
    else MonthAndDay(n - DaysInMonth(m, leap), leap, m + 1)
  }

  /** The date `n` days after 1 January of year `y`: whole years first, then months. */
  function CivilDate(n: nat, y: nat): Date
    decreases n
  {
    if n < DaysInYear(y) then
      var md := MonthAndDay(n, IsLeap(y), 1);
      Date(y, md.0, md.1)
    else CivilDate(n - DaysInYear(y), y + 1)
  }

  /** The calendar date of an instant. */
  function DateOf(t: Time): Date
  {
    CivilDate(DayNumber(t), 1970)
  }

  lemma {:induction false} MonthAndDayMeaning(n: nat, leap: bool, m: nat)
    requires 1 <= m <= 12 && DaysBeforeMonth(m, leap) + n < (if leap then 366 else 365)
    ensures var r := MonthAndDay(n, leap, m);
      m <= r.0 <= 12 && 1 <= r.1 <= DaysInMonth(r.0, leap) &&
      DaysBeforeMonth(r.0, leap) + r.1 - 1 == DaysBeforeMonth(m, leap) + n
    decreases 12 - m
  {
    MonthStep(m, leap);
    if m < 12 && n >= DaysInMonth(m, leap) {
      MonthAndDayMeaning(n - DaysInMonth(m, leap), leap, m + 1);
    }
  }

  lemma {:induction false} CivilDateMeaning(n: nat, y: nat)
    requires y >= 1970
    ensures var d := CivilDate(n, y); ValidDate(d) && d.year >= y && DayNumberOf(d) == DaysBefore(y) + n
    decreases n
  {
    if n < DaysInYear(y) {
      MonthAndDayMeaning(n, IsLeap(y), 1);
      DaysBeforeGrows(1970, y);
    } else {
      DaysBeforeStep(y);
      CivilDateMeaning(n - DaysInYear(y), y + 1);
    }
  }

  /** The date of an instant is a valid date, and it lies as many days after 1 January 1970 as the instant. */
  lemma {:induction false} DateOfMeaning(t: Time)
    ensures ValidDate(DateOf(t)) && DayNumberOf(DateOf(t)) == DayNumber(t)
  {
    CivilDateMeaning(DayNumber(t), 1970);
  }

  lemma {:induction false} MonthAndDayOf(m0: nat, m: nat, day: nat, leap: bool)
    requires 1 <= m0 <= m <= 12 && 1 <= day <= DaysInMonth(m, leap)
    ensures DaysBeforeMonth(m, leap) - DaysBeforeMonth(m0, leap) + day - 1 >= 0
    ensures MonthAndDay(DaysBeforeMonth(m, leap) - DaysBeforeMonth(m0, leap) + day - 1, leap, m0) == (m, day)
    decreases m - m0
  {
    DaysBeforeMonthGrows(m0, m, leap);
    if m0 < m {
      MonthStep(m0, leap);
      MonthAndDayOf(m0 + 1, m, day, leap);
    }
  }

  /** The day of the year of a valid date, counted from 0, is less than the days in its year. */
  lemma {:induction false} DayOfYearBound(d: Date)
    requires ValidDate(d)
    ensures DaysBeforeMonth(d.month, IsLeap(d.year)) + d.day - 1 < DaysInYear(d.year)
  {
    MonthStep(12, IsLeap(d.year));
    DaysBeforeMonthGrows(d.month, 12, IsLeap(d.year));
  }

  /** A valid date is found again from the first day of its own year. */
  lemma {:induction false} CivilDateInYear(d: Date)
    requires ValidDate(d)
    ensures CivilDate(DaysBeforeMonth(d.month, IsLeap(d.year)) + d.day - 1, d.year) == d
  {
    DayOfYearBound(d);
    MonthAndDayOf(1, d.month, d.day, IsLeap(d.year));
  }

  /** Counting a whole year from its first day moves on to the next year. */
  lemma {:induction false} CivilDateStep(n: nat, y: nat)
    requires n >= DaysInYear(y)
    ensures CivilDate(n, y) == CivilDate(n - DaysInYear(y), y + 1)
  {
  }

  /** Counting from 1 January of `y0`, day `k` of a later year `y` is found in that year. */
  lemma {:induction false} CivilDateFrom(y0: nat, y: nat, k: nat)
    requires 1970 <= y0 <= y && k < DaysInYear(y)
    ensures DaysBefore(y0) <= DaysBefore(y)
    ensures CivilDate(DaysBefore(y) - DaysBefore(y0) + k, y0) == CivilDate(k, y)
    decreases y - y0
  {
    if y0 < y {
      DaysBeforeStep(y0);
      CivilDateFrom(y0 + 1, y, k);
      var n := DaysBefore(y) - DaysBefore(y0) + k;
      assert n - DaysInYear(y0) == DaysBefore(y) - DaysBefore(y0 + 1) + k;
      CivilDateStep(n, y0);
    }
  }

  lemma {:induction false} CivilDateOf(d: Date)
    requires ValidDate(d)
    ensures CivilDate(DayNumberOf(d), 1970) == d
  {
    var k := DaysBeforeMonth(d.month, IsLeap(d.year)) + d.day - 1;
    DayOfYearBound(d);
    assert DayNumberOf(d) == DaysBefore(d.year) + k;
    CivilDateFrom(1970, d.year, k);
    CivilDateInYear(d);
  }

  lemma {:induction false} DateOfDayNumber(t: Time, d: Date)
    requires ValidDate(d) && DayNumber(t) == DayNumberOf(d)
    ensures DateOf(t) == d
  {
    CivilDateOf(d);
  }

  /** The number of days from 1 January 1970 to 1 January 10000. */
  const MaxDay: nat := 2932897

  /** `t` falls before the year 10000: `datetime` represents no later year (`MAXYEAR` is 9999). */
  predicate InRange(t: Time)
  {
    DayNumber(t) < MaxDay
  }

  lemma {:induction false} MaxDayIsYear10000()
    ensures DaysBefore(10000) == MaxDay
  {
    DaysBeforeClosed(10000);
  }

  /** A valid date lies before day `MaxDay` exactly when its year is at most 9999. */
  lemma {:induction false} YearBound(d: Date)
    requires ValidDate(d)
    ensures DayNumberOf(d) < MaxDay <==> d.year <= 9999
  {
    var y := d.year;
    MonthStep(12, IsLeap(y));
    DaysBeforeMonthGrows(d.month, 12, IsLeap(y));
    MaxDayIsYear10000();
    if y <= 9999 {
      DaysBeforeStep(y);
      DaysBeforeGrows(y + 1, 10000);
    } else {
      DaysBeforeGrows(10000, y);
    }
  }

  lemma {:induction false} InRangeMeaning(t: Time)
    ensures InRange(t) <==> DateOf(t).year <= 9999
  {
    DateOfMeaning(t);
    YearBound(DateOf(t));
  }

  // ------------------------------------------------------------- the texts

  /** `%Y%m%d`. */
  function CompactDateText(t: Time): (r: string)
    ensures |r| == 8 && AllDigits(r)
  {
    var d := DateOf(t);
    Pad(d.year, 4) + Pad(d.month, 2) + Pad(d.day, 2)
  }

  /** `%Y-%m-%d`. */
  function DateText(t: Time): (r: string)
    ensures |r| == 10
  {
    var d := DateOf(t);
    Pad(d.year, 4) + "-" + Pad(d.month, 2) + "-" + Pad(d.day, 2)
  }

  /** `%m/%d`. */
  function MonthDayText(t: Time): (r: string)
    ensures |r| == 5
  {
    var d := DateOf(t);
    Pad(d.month, 2) + "/" + Pad(d.day, 2)
  }

  /** `%H%M%S`. */
  function ClockDigits(t: Time): string
  {
    Pad(Hour(t), 2) + Pad(Minute(t), 2) + Pad(Second(t), 2)
  }

  /** `%Y%m%d_%H%M%S`: the stamp in entry ids and default file names. */
  function Stamp(t: Time): (r: string)
    ensures |r| == 15 && r[8] == '_'
  {
    CompactDateText(t) + "_" + ClockDigits(t)
  }

  /** `%H:%M`. */
  function HourMinuteText(t: Time): string
  {
    Pad(Hour(t), 2) + ":" + Pad(Minute(t), 2)
  }

  /** `%H:%M:%S`. */
  function ClockText(t: Time): (r: string)
    ensures |r| == 8
  {
    HourMinuteText(t) + ":" + Pad(Second(t), 2)
  }

  /** `%Y-%m-%d %H:%M:%S`. */
  function DateTimeText(t: Time): string
  {
    DateText(t) + " " + ClockText(t)
  }

  /** The date and the date-and-time texts are single lines. */
  lemma {:induction false} DateTextsOneLine(t: Time)
    ensures '\n' !in DateText(t) && '\n' !in DateTimeText(t)
  {
    var d := DateOf(t);
    var y, m, day := Pad(d.year, 4), Pad(d.month, 2), Pad(d.day, 2);
    var h, mi, sec := Pad(Hour(t), 2), Pad(Minute(t), 2), Pad(Second(t), 2);
    assert '\n' !in y && '\n' !in m && '\n' !in day;
    assert '\n' !in h && '\n' !in mi && '\n' !in sec;
  }

  /** `%Y-%m-%d %H:%M`. */
  function DateMinuteText(t: Time): string
  {
    DateText(t) + " " + HourMinuteText(t)
  }

  /** `%m/%d %H:%M`. */
  function MonthDayMinuteText(t: Time): string
  {
    MonthDayText(t) + " " + HourMinuteText(t)
  }

  /** Instants within the same second get the same stamp: the stamp drops the microseconds. */
  lemma {:induction false} StampIgnoresMicroseconds(t1: Time, t2: Time)
    requires Seconds(t1) == Seconds(t2)
    ensures Stamp(t1) == Stamp(t2)
  {
  }

  lemma {:induction false} StampParts(t: Time)
    ensures Stamp(t)[..4] == Pad(DateOf(t).year, 4)
    ensures Stamp(t)[4..6] == Pad(DateOf(t).month, 2)
    ensures Stamp(t)[6..8] == Pad(DateOf(t).day, 2)
    ensures Stamp(t)[9..11] == Pad(Hour(t), 2)
    ensures Stamp(t)[11..13] == Pad(Minute(t), 2)
    ensures Stamp(t)[13..] == Pad(Second(t), 2)
  {
  }

  lemma {:induction false} SecondsFromParts(t: Time)
    ensures Seconds(t) == DayNumber(t) * 86400 + Hour(t) * 3600 + Minute(t) * 60 + Second(t)
    ensures Hour(t) < 24 && Minute(t) < 60 && Second(t) < 60
  {
    var s := SecondOfDay(t);
    assert s == (s / 3600) * 3600 + (s % 3600 / 60) * 60 + s % 60;
  }

  /** Two in-range instants with the same date text fall on the same day. */
  lemma {:induction false} SameDateSameDay(t1: Time, t2: Time)
    requires InRange(t1) && InRange(t2)
    requires Pad(DateOf(t1).year, 4) == Pad(DateOf(t2).year, 4)
    requires Pad(DateOf(t1).month, 2) == Pad(DateOf(t2).month, 2)
    requires Pad(DateOf(t1).day, 2) == Pad(DateOf(t2).day, 2)
    ensures DayNumber(t1) == DayNumber(t2)
  {
    var d1, d2 := DateOf(t1), DateOf(t2);
    InRangeMeaning(t1);
    InRangeMeaning(t2);
    DateOfMeaning(t1);
    DateOfMeaning(t2);
    assert Pow10(2) == 100 && Pow10(4) == 10000;
    PadInjective(d1.year, d2.year, 4);
    PadInjective(d1.month, d2.month, 2);
    PadInjective(d1.day, d2.day, 2);
  }

  /** Instants in different seconds get different stamps. */
  lemma {:induction false} StampInjective(t1: Time, t2: Time)
    requires InRange(t1) && InRange(t2)
    requires Stamp(t1) == Stamp(t2)
    ensures Seconds(t1) == Seconds(t2)
  {
    StampParts(t1);
    StampParts(t2);
    SameDateSameDay(t1, t2);
    SecondsFromParts(t1);
    SecondsFromParts(t2);
    assert Pow10(2) == 100;
    PadInjective(Hour(t1), Hour(t2), 2);
    PadInjective(Minute(t1), Minute(t2), 2);
    PadInjective(Second(t1), Second(t2), 2);
  }

  /** `datetime.isoformat()`: the microseconds are written only when they are not zero. */
  function IsoText(t: Time): (r: string)
    ensures |r| == 19 || |r| == 26
  {
    DateText(t) + "T" + ClockText(t) + IsoFraction(t)
  }

  // ------------------------------------------------------ `fromisoformat`

  /** The `n` digits at position `i` of `s`, if they are all digits. */
  function DigitsAt(s: string, i: nat, n: nat): (r: Option<nat>)
    requires i + n <= |s|
  {
    if IsDigitText(s[i..i + n]) then Some(DigitsValue(s[i..i + n])) else None
  }

  /** `YYYY-MM-DD`, read as a date of the calendar (a date before 1970 is not an instant of this model). */
  function ParseDate(s: string): (r: Option<Date>)
    requires |s| == 10
    ensures r.Some? ==> ValidDate(r.value)
  {
    if s[4] != '-' || s[7] != '-' then None
    else
      var y, m, d := DigitsAt(s, 0, 4), DigitsAt(s, 5, 2), DigitsAt(s, 8, 2);
      if y.None? || m.None? || d.None? then None
      else if ValidDate(Date(y.value, m.value, d.value)) then Some(Date(y.value, m.value, d.value))
      else None
  }

  /**
   * `HH[:MM[:SS[.fff[fff]]]]`, the time of day `fromisoformat` reads after
   * the date, as microseconds into the day; three digits of fraction are
   * milliseconds.
   */
  function ParseTime(s: string): (r: Option<nat>)
  {
    if |s| != 2 && |s| != 5 && |s| != 8 && |s| != 12 && |s| != 15 then None
    else if (|s| > 2 && s[2] != ':') || (|s| > 5 && s[5] != ':') || (|s| > 8 && s[8] != '.') then None
    else
      var h := DigitsAt(s, 0, 2);
      var m := if |s| > 2 then DigitsAt(s, 3, 2) else Some(0);
      var sec := if |s| > 5 then DigitsAt(s, 6, 2) else Some(0);
      var frac := if |s| == 12 then DigitsAt(s, 9, 3) else if |s| == 15 then DigitsAt(s, 9, 6) else Some(0);
      if h.None? || m.None? || sec.None? || frac.None? then None
      else if h.value >= 24 || m.value >= 60 || sec.value >= 60 then None
      else
        var micro := if |s| == 12 then frac.value * 1000 else frac.value;
        Some(((h.value * 60 + m.value) * 60 + sec.value) * 1_000_000 + micro)
  }

  /**
   * `datetime.fromisoformat`: `YYYY-MM-DD`, optionally followed by any one
   * separator character and a time of day.
   */
  function ParseIso(s: string): (r: Option<Time>)
  {
    if |s| < 10 then None
    else
      var date := ParseDate(s[..10]);
      var time := if |s| == 10 then Some(0) else ParseTime(s[11..]);
      if date.None? || time.None? then None
      else Some(DayNumberOf(date.value) * 86_400_000_000 + time.value)
  }

  lemma {:induction false} PadRead(s: string, i: nat, n: nat, v: nat)
    requires i + n <= |s| && n > 0 && v < Pow10(n) && s[i..i + n] == Pad(v, n)
    ensures DigitsAt(s, i, n) == Some(v)
  {
    PadValue(v, n);
  }

  /** The date text of an in-range instant reads back as its date. */
  lemma {:induction false} ParseDateText(t: Time)
    requires InRange(t)
    ensures ParseDate(DateText(t)) == Some(DateOf(t))
    ensures DayNumberOf(DateOf(t)) == DayNumber(t)
  {
    InRangeMeaning(t);
    DateOfMeaning(t);
    DateTextLayout(t);
    DateFieldsRead(DateText(t), DateOf(t));
  }

  /** Where the fields of `%Y-%m-%d` sit in the text. */
  lemma {:induction false} DateTextLayout(t: Time)
    ensures var s, d := DateText(t), DateOf(t);
      && s[4] == '-' && s[7] == '-'
      && s[0..4] == Pad(d.year, 4) && s[5..7] == Pad(d.month, 2) && s[8..10] == Pad(d.day, 2)
  {
  }

  /** Ten characters holding the padded fields of a valid date read as that date. */
  lemma {:induction false} DateFieldsRead(s: string, d: Date)
    requires |s| == 10 && s[4] == '-' && s[7] == '-' && ValidDate(d) && d.year <= 9999
    requires s[0..4] == Pad(d.year, 4) && s[5..7] == Pad(d.month, 2) && s[8..10] == Pad(d.day, 2)
    ensures ParseDate(s) == Some(d)
  {
    assert Pow10(2) == 100 && Pow10(4) == 10000;
    PadRead(s, 0, 4, d.year);
    PadRead(s, 5, 2, d.month);
    PadRead(s, 8, 2, d.day);
  }

  /** `HH:MM:SS`, optionally followed by `.` and six digits, is read field by field. */
  lemma {:induction false} ParseTimeFields(s: string, h: nat, m: nat, sec: nat, micro: nat)
    requires |s| == 8 || |s| == 15
    requires s[2] == ':' && s[5] == ':' && (|s| == 15 ==> s[8] == '.')
    requires DigitsAt(s, 0, 2) == Some(h) && DigitsAt(s, 3, 2) == Some(m) && DigitsAt(s, 6, 2) == Some(sec)
    requires if |s| == 15 then DigitsAt(s, 9, 6) == Some(micro) else micro == 0
    requires h < 24 && m < 60 && sec < 60
    ensures ParseTime(s) == Some(((h * 60 + m) * 60 + sec) * 1_000_000 + micro)
  {
  }

  /** The seconds of the day, rebuilt from the hour, minute and second. */
  lemma {:induction false} SecondOfDayParts(t: Time)
    ensures (Hour(t) * 60 + Minute(t)) * 60 + Second(t) == SecondOfDay(t)
    ensures Hour(t) < 24 && Minute(t) < 60 && Second(t) < 60
  {
    var s := SecondOfDay(t);
    assert s == (s / 3600) * 3600 + (s % 3600 / 60) * 60 + s % 60;
  }

  /** Where the fields of `%H:%M:%S` sit in the text, whatever follows it. */
  lemma {:induction false} ClockTextLayout(t: Time, frac: string)
    ensures var s := ClockText(t) + frac;
      && |s| == 8 + |frac| && s[2] == ':' && s[5] == ':' && s[8..] == frac
      && s[0..2] == Pad(Hour(t), 2) && s[3..5] == Pad(Minute(t), 2) && s[6..8] == Pad(Second(t), 2)
  {
  }

  /** The hour, minute and second fields of `%H:%M:%S`, whatever follows it. */
  lemma {:induction false} ClockTextDigits(t: Time, frac: string)
    ensures var s := ClockText(t) + frac;
      && |s| == 8 + |frac| && s[2] == ':' && s[5] == ':'
      && DigitsAt(s, 0, 2) == Some(Hour(t)) && DigitsAt(s, 3, 2) == Some(Minute(t)) && DigitsAt(s, 6, 2) == Some(Second(t))
  {
    var s := ClockText(t) + frac;
    SecondOfDayParts(t);
    ClockTextLayout(t, frac);
    assert Pow10(2) == 100;
    PadRead(s, 0, 2, Hour(t));
    PadRead(s, 3, 2, Minute(t));
    PadRead(s, 6, 2, Second(t));
  }

  /** The fraction `.` and six digits, read after `%H:%M:%S`. */
  lemma {:induction false} FractionDigits(t: Time, micro: nat)
    requires micro < 1_000_000
    ensures var s := ClockText(t) + ("." + Pad(micro, 6));
      |s| == 15 && s[8] == '.' && DigitsAt(s, 9, 6) == Some(micro)
  {
    var s := ClockText(t) + ("." + Pad(micro, 6));
    assert Pow10(6) == 1000000;
    assert s[9..15] == Pad(micro, 6);
    PadRead(s, 9, 6, micro);
  }

  /** `%H:%M:%S`, followed by nothing or by `.` and six digits, reads back as the time of day. */
  lemma {:induction false} ParseClockText(t: Time, frac: string, micro: nat)
    requires (frac == [] && micro == 0) || (micro < 1_000_000 && frac == "." + Pad(micro, 6))
    ensures ParseTime(ClockText(t) + frac) == Some(SecondOfDay(t) * 1_000_000 + micro)
  {
    SecondOfDayParts(t);
    ClockTextDigits(t, frac);
    if frac != [] {
      FractionDigits(t, micro);
    }
    ParseTimeFields(ClockText(t) + frac, Hour(t), Minute(t), Second(t), micro);
  }

  lemma {:induction false} InstantFromParts(t: Time)
    ensures t == DayNumber(t) * 86_400_000_000 + SecondOfDay(t) * 1_000_000 + MicroOfSecond(t)
  {
  }

  /**
   * A date, a separator and a time of day are read part by part: the day of
   * `t`, its seconds of the day and the microseconds `micro` make an instant.
   */
  lemma {:induction false} ParseIsoSplit(s: string, t: Time, micro: nat)
    requires |s| > 10 && ParseDate(s[..10]) == Some(DateOf(t)) && DayNumberOf(DateOf(t)) == DayNumber(t)
    requires ParseTime(s[11..]) == Some(SecondOfDay(t) * 1_000_000 + micro)
    ensures ParseIso(s) == Some(t - MicroOfSecond(t) + micro)
  {
    InstantFromParts(t);
  }

  lemma {:induction false} IsoTextParts(t: Time)
    ensures |IsoText(t)| > 10 && IsoText(t)[..10] == DateText(t) && IsoText(t)[11..] == ClockText(t) + IsoFraction(t)
  {
    assert IsoText(t) == DateText(t) + ['T'] + (ClockText(t) + IsoFraction(t));
  }

  lemma {:induction false} DateTimeTextParts(t: Time)
    ensures |DateTimeText(t)| > 10 && DateTimeText(t)[..10] == DateText(t) && DateTimeText(t)[11..] == ClockText(t)
  {
    assert DateTimeText(t) == DateText(t) + [' '] + ClockText(t);
  }

  /** The fraction `isoformat` appends: nothing, or `.` and six digits of microseconds. */
  function IsoFraction(t: Time): string
  {
    if MicroOfSecond(t) == 0 then "" else "." + Pad(MicroOfSecond(t), 6)
  }

  /** The time of day `isoformat` writes reads back as the time of day. */
  lemma {:induction false} IsoClockRead(t: Time)
    ensures ParseTime(ClockText(t) + IsoFraction(t)) == Some(SecondOfDay(t) * 1_000_000 + MicroOfSecond(t))
  {
    ParseClockText(t, IsoFraction(t), MicroOfSecond(t));
  }

  /** The date and the time of day `isoformat` writes each read back. */
  lemma {:induction false} IsoTextFields(t: Time)
    requires InRange(t)
    ensures |IsoText(t)| > 10 && ParseDate(IsoText(t)[..10]) == Some(DateOf(t)) && DayNumberOf(DateOf(t)) == DayNumber(t)
    ensures ParseTime(IsoText(t)[11..]) == Some(SecondOfDay(t) * 1_000_000 + MicroOfSecond(t))
  {
    IsoTextParts(t);
    ParseDateText(t);
    IsoClockRead(t);
  }

  lemma {:induction false} IsoTextRead(t: Time)
    requires |IsoText(t)| > 10 && ParseDate(IsoText(t)[..10]) == Some(DateOf(t)) && DayNumberOf(DateOf(t)) == DayNumber(t)
    requires ParseTime(IsoText(t)[11..]) == Some(SecondOfDay(t) * 1_000_000 + MicroOfSecond(t))
    ensures ParseIso(IsoText(t)) == Some(t)
  {
    ParseIsoSplit(IsoText(t), t, MicroOfSecond(t));
  }

  /** `datetime.fromisoformat(t.isoformat()) == t`. */
  lemma {:induction false} IsoRoundTrip(t: Time)
    requires InRange(t)
    ensures ParseIso(IsoText(t)) == Some(t)
  {
    IsoTextFields(t);
    IsoTextRead(t);
  }

  /** The date and the time of day of `%Y-%m-%d %H:%M:%S` each read back. */
  lemma {:induction false} DateTimeTextFields(t: Time)
    requires InRange(t)
    ensures |DateTimeText(t)| > 10 && ParseDate(DateTimeText(t)[..10]) == Some(DateOf(t)) && DayNumberOf(DateOf(t)) == DayNumber(t)
    ensures ParseTime(DateTimeText(t)[11..]) == Some(SecondOfDay(t) * 1_000_000)
  {
    DateTimeTextParts(t);
    ParseDateText(t);
    ParseClockText(t, "", 0);
    assert ClockText(t) + "" == ClockText(t);
  }

  lemma {:induction false} DateTimeTextReadBack(t: Time)
    requires |DateTimeText(t)| > 10 && ParseDate(DateTimeText(t)[..10]) == Some(DateOf(t)) && DayNumberOf(DateOf(t)) == DayNumber(t)
    requires ParseTime(DateTimeText(t)[11..]) == Some(SecondOfDay(t) * 1_000_000)
    ensures ParseIso(DateTimeText(t)) == Some(t - MicroOfSecond(t))
  {
    ParseIsoSplit(DateTimeText(t), t, 0);
  }

  /** The `%Y-%m-%d %H:%M:%S` text read back gives the instant, less its microseconds. */
  lemma {:induction false} DateTimeTextRead(t: Time)
    requires InRange(t)
    ensures ParseIso(DateTimeText(t)) == Some(t - MicroOfSecond(t))
  {
    DateTimeTextFields(t);
    DateTimeTextReadBack(t);
  }

  /** A date alone reads as midnight at the start of that day. */
  lemma {:induction false} DateTextRead(t: Time)
    requires InRange(t)
    ensures ParseIso(DateText(t)) == Some(DayNumber(t) * 86_400_000_000)
  {
    ParseDateText(t);
    DateOnlyRead(DateText(t), DateOf(t), DayNumber(t));
  }

  /** Ten characters that read as a date read as midnight of that date. */
  lemma {:induction false} DateOnlyRead(s: string, d: Date, n: nat)
    requires |s| == 10 && ParseDate(s) == Some(d) && DayNumberOf(d) == n
    ensures ParseIso(s) == Some(n * 86_400_000_000)
  {
    assert s[..10] == s;
  }
}
