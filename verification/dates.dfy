/**
  Calendar dates in the proleptic Gregorian calendar, the day numbers that order them,
  local instants (a date and a time of day) and the "yyyy-MM-dd" text form the
  application stores.
*/
module Dates {
  import opened Wrappers
  import opened Text

  datatype CivilDate = CivilDate(year: int, month: int, day: int)

  predicate IsLeapYear(y: int)
  {
    y % 4 == 0 && (y % 100 != 0 || y % 400 == 0)
  }

  function DaysInMonth(y: int, m: int): (n: int)
    ensures 28 <= n <= 31
  {
    if m == 2 then (if IsLeapYear(y) then 29 else 28)
    else if m == 4 || m == 6 || m == 9 || m == 11 then 30
    else 31
  }

  predicate ValidCivil(c: CivilDate)
  {
    1 <= c.month <= 12 && 1 <= c.day <= DaysInMonth(c.year, c.month)
  }

  /** A date that exists in the calendar. */
  type Date = c: CivilDate | ValidCivil(c) witness CivilDate(2000, 1, 1)

  /** Days in the months of year `y` before month `m`. */
  function DaysBeforeMonth(y: int, m: int): int
    requires 1 <= m <= 12
  {
    var common :=
      if m == 1 then 0 else if m == 2 then 31 else if m == 3 then 59 else if m == 4 then 90
      else if m == 5 then 120 else if m == 6 then 151 else if m == 7 then 181 else if m == 8 then 212
      else if m == 9 then 243 else if m == 10 then 273 else if m == 11 then 304 else 334;
    common + (if m > 2 && IsLeapYear(y) then 1 else 0)
  }

  /** Days from 0001-01-01 to the first day of year `y`. */
  function DaysBeforeYear(y: int): int
  {
    var p := y - 1;
    365 * p + p / 4 - p / 100 + p / 400
  }

  /** The date's position on the line of days; 0001-01-01 is day 0. */
  function DayNumber(d: Date): int
  {
    DaysBeforeYear(d.year) + DaysBeforeMonth(d.year, d.month) + d.day - 1
  }

  lemma DivStep4(y: int)
    ensures y / 4 - (y - 1) / 4 == if y % 4 == 0 then 1 else 0
  {
  }

  lemma DivStep100(y: int)
    ensures y / 100 - (y - 1) / 100 == if y % 100 == 0 then 1 else 0
  {
  }

  lemma DivStep400(y: int)
    ensures y / 400 - (y - 1) / 400 == if y % 400 == 0 then 1 else 0
  {
  }

  lemma YearLength(y: int)
    ensures DaysBeforeYear(y + 1) == DaysBeforeYear(y) + 365 + (if IsLeapYear(y) then 1 else 0)
  {
    DivStep4(y);
    DivStep100(y);
    DivStep400(y);
    assert DaysBeforeYear(y + 1) == 365 * y + y / 4 - y / 100 + y / 400;
    assert DaysBeforeYear(y) == 365 * (y - 1) + (y - 1) / 4 - (y - 1) / 100 + (y - 1) / 400;
    assert 365 * y == 365 * (y - 1) + 365;
  }

  /** The day after `d`, as `setDate(getDate() + 1)` computes it. */
  function NextDay(d: Date): (e: Date)
    ensures DayNumber(e) == DayNumber(d) + 1
  {
    if d.day < DaysInMonth(d.year, d.month) then CivilDate(d.year, d.month, d.day + 1)
    else if d.month < 12 then CivilDate(d.year, d.month + 1, 1)
    else
      YearLength(d.year);
      CivilDate(d.year + 1, 1, 1)
  }

  /** The day before `d`. */
  function PrevDay(d: Date): (e: Date)
    ensures NextDay(e) == d
    ensures DayNumber(e) == DayNumber(d) - 1
  {
    if d.day > 1 then CivilDate(d.year, d.month, d.day - 1)
    else if d.month > 1 then CivilDate(d.year, d.month - 1, DaysInMonth(d.year, d.month - 1))
    else CivilDate(d.year - 1, 12, 31)
  }

  /** `subDays(d, n)`, on the date part. */
  function SubDays(d: Date, n: nat): (e: Date)
    ensures DayNumber(e) == DayNumber(d) - n
  {
    if n == 0 then d else PrevDay(SubDays(d, n - 1))
  }

  /** The date `n` days after `d`. */
  function AddDays(d: Date, n: nat): (e: Date)
    ensures DayNumber(e) == DayNumber(d) + n
  {
    if n == 0 then d else NextDay(AddDays(d, n - 1))
  }

  function FirstOfMonth(d: Date): (e: Date)
    ensures e.year == d.year && e.month == d.month && e.day == 1
  {
    CivilDate(d.year, d.month, 1)
  }

  function LastOfMonth(d: Date): (e: Date)
    ensures e.year == d.year && e.month == d.month && e.day == DaysInMonth(d.year, d.month)
  {
    CivilDate(d.year, d.month, DaysInMonth(d.year, d.month))
  }

  const MsPerDay: int := 86_400_000

  /** A local time: a date and the milliseconds elapsed since its midnight. */
  datatype Instant = Instant(date: Date, ms: int)

  predicate ValidInstant(t: Instant)
  {
    0 <= t.ms < MsPerDay
  }

  /** Local midnight of `d`, which is what `parseISO` gives for a "yyyy-MM-dd" string. */
  function Midnight(d: Date): Instant
  {
    Instant(d, 0)
  }

  /** The last millisecond of `d`, as `endOfMonth` and `endOfWeek` give it. */
  function EndOfDay(d: Date): Instant
  {
    Instant(d, MsPerDay - 1)
  }

  predicate InstantLe(a: Instant, b: Instant)
  {
    DayNumber(a.date) < DayNumber(b.date) || (DayNumber(a.date) == DayNumber(b.date) && a.ms <= b.ms)
  }

  /** `format(d, 'yyyy-MM-dd')`. */
  function FormatIso(d: Date): (s: string)
    requires d.year >= 0
    ensures |s| >= 10
  {
    PadNat(d.year, 4) + "-" + PadNat(d.month, 2) + "-" + PadNat(d.day, 2)
  }

  /** `format(d, 'dd/MM')`, the chart's day label. */
  function FormatDayMonth(d: Date): (s: string)
    ensures |s| == 5 && s[2] == '/'
    ensures AllDigits(s[0..2]) && DigitsValue(s[0..2]) == d.day
    ensures AllDigits(s[3..5]) && DigitsValue(s[3..5]) == d.month
  {
    PadLength(d.day, 2);
    PadLength(d.month, 2);
    NatToStringLength(d.day, 2);
    NatToStringLength(d.month, 2);
    var s := PadNat(d.day, 2) + "/" + PadNat(d.month, 2);
    assert s[0..2] == PadNat(d.day, 2) && s[3..5] == PadNat(d.month, 2);
    s
  }

  /** A two-digit number is written as its two digits. */
  lemma TwoDigitPad(n: nat)
    requires 10 <= n < 100
    ensures PadNat(n, 2) == [DigitChar(n / 10), DigitChar(n % 10)]
  {
    assert NatToString(n / 10) == [DigitChar(n / 10)];
  }

  /** A one-digit number is written with a leading zero. */
  lemma OneDigitPad(n: nat)
    requires n < 10
    ensures PadNat(n, 2) == ['0', DigitChar(n)]
  {
    assert PadNat(n, 1) == [DigitChar(n)];
  }

  /** Reading a stored "yyyy-MM-dd" string as a date; any other text, or a date the calendar
      does not have, gives `None`. */
  function ParseIso(s: string): (r: Option<Date>)
    ensures r.Some? ==> |s| == 10 && s[4] == '-' && s[7] == '-'
  {
    if |s| == 10 && AllDigits(s[0..4]) && s[4] == '-' && AllDigits(s[5..7]) && s[7] == '-'
       && AllDigits(s[8..10])
    then
      var c := CivilDate(DigitsValue(s[0..4]), DigitsValue(s[5..7]), DigitsValue(s[8..10]));
      if ValidCivil(c) then Some(c) else None
    else None
  }

  lemma {:induction false} PadLength(n: nat, w: nat)
    ensures |PadNat(n, w)| == if |NatToString(n)| >= w then |NatToString(n)| else w
    decreases w
  {
    if |NatToString(n)| < w {
      PadLength(n, w - 1);
    }
  }

  lemma {:induction false} NatToStringLength(n: nat, k: nat)
    requires k >= 1 && n < Pow10(k)
    ensures |NatToString(n)| <= k
    decreases n
  {
    if n >= 10 {
      assert k >= 2;
      NatToStringLength(n / 10, k - 1);
    }
  }

  /** Writing a date with four-digit year and reading it back gives the same date. */
  lemma IsoRoundTrip(d: Date)
    requires 0 <= d.year <= 9999
    ensures ParseIso(FormatIso(d)) == Some(d)
  {
    assert Pow10(4) == 10000 && Pow10(2) == 100;
    PaddedLength(d.year, 4);
    PaddedLength(d.month, 2);
    PaddedLength(d.day, 2);
    IsoSlices(PadNat(d.year, 4), PadNat(d.month, 2), PadNat(d.day, 2));
  }

  /** A number below `10^w` is padded to exactly `w` digits. */
  lemma PaddedLength(n: nat, w: nat)
    requires w >= 1 && n < Pow10(w)
    ensures |PadNat(n, w)| == w
  {
    NatToStringLength(n, w);
    PadLength(n, w);
  }

  /** The fields of "yyyy-MM-dd" sit at fixed positions. */
  lemma IsoSlices(a: string, b: string, c: string)
    requires |a| == 4 && |b| == 2 && |c| == 2
    ensures var s := a + "-" + b + "-" + c;
      && |s| == 10 && s[4] == '-' && s[7] == '-'
      && s[0..4] == a && s[5..7] == b && s[8..10] == c
  {
  }

  /** Two dates with the same day number are the same date. */
  lemma DayNumberInjective(a: Date, b: Date)
    requires DayNumber(a) == DayNumber(b)
    ensures a == b
  {
    if a.year < b.year {
      YearsApart(a.year, b.year);
    } else if b.year < a.year {
      YearsApart(b.year, a.year);
    } else if a.month < b.month {
      MonthsApart(a.year, a.month, b.month);
    } else if b.month < a.month {
      MonthsApart(a.year, b.month, a.month);
    }
  }

  lemma MonthsApart(y: int, m1: int, m2: int)
    requires 1 <= m1 < m2 <= 12
    ensures DaysBeforeMonth(y, m2) >= DaysBeforeMonth(y, m1) + DaysInMonth(y, m1)
  {
  }

  lemma {:induction false} YearsApart(y1: int, y2: int)
    requires y1 < y2
    ensures DaysBeforeYear(y2) >= DaysBeforeYear(y1) + 365 + (if IsLeapYear(y1) then 1 else 0)
    decreases y2 - y1
  {
    YearLength(y1);
    if y1 + 1 < y2 {
      YearsApart(y1 + 1, y2);
    }
  }
}
