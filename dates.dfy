/**
 * Calendar dates of the proleptic Gregorian calendar (chrono's `NaiveDate`):
 * validity, successor and predecessor, day numbers, day arithmetic and weekdays.
 */
module Dates {
  import opened Wrappers

  datatype Date = Date(year: int, month: int, day: int)
  {
    predicate Valid()
    {
      1 <= month <= 12 && 1 <= day <= DaysInMonth(year, month)
    }
  }

  /** A date that exists in the calendar. */
  type NaiveDate = d: Date | d.Valid() witness Date(2000, 1, 1)

  predicate IsLeapYear(y: int)
  {
    y % 4 == 0 && (y % 100 != 0 || y % 400 == 0)
  }

  function DaysInYear(y: int): int
  {
    if IsLeapYear(y) then 366 else 365
  }

  function DaysInMonth(y: int, m: int): int
  {
    if m == 2 then (if IsLeapYear(y) then 29 else 28)
    else if m == 4 || m == 6 || m == 9 || m == 11 then 30
    else 31
  }

  /** chrono's `NaiveDate::from_ymd_opt`: the date if it exists. */
  function FromYmd(y: int, m: int, d: int): (r: Option<NaiveDate>)
    ensures r.Some? <==> Date(y, m, d).Valid()
    ensures r.Some? ==> r.value == Date(y, m, d)
  {
    if Date(y, m, d).Valid() then
      var date: NaiveDate := Date(y, m, d);
      Some(date)
    else
      None
  }

  /** Lexicographic (chronological) order of dates. */
  predicate Less(a: Date, b: Date)
  {
    a.year < b.year
    || (a.year == b.year && a.month < b.month)
    || (a.year == b.year && a.month == b.month && a.day < b.day)
  }

  predicate LessEq(a: Date, b: Date)
  {
    a == b || Less(a, b)
  }

  function Min(a: NaiveDate, b: NaiveDate): NaiveDate
  {
    if LessEq(a, b) then a else b
  }

  function Max(a: NaiveDate, b: NaiveDate): NaiveDate
  {
    if LessEq(a, b) then b else a
  }

  predicate IsLastDayOfMonth(d: NaiveDate)
  {
    d.day == DaysInMonth(d.year, d.month)
  }

  /** The next day (`NaiveDate::succ`). */
  function Succ(d: NaiveDate): NaiveDate
  {
    if d.day < DaysInMonth(d.year, d.month) then Date(d.year, d.month, d.day + 1)
    else if d.month < 12 then Date(d.year, d.month + 1, 1)
    else Date(d.year + 1, 1, 1)
  }

  /** The previous day (`NaiveDate::pred`). */
  function Pred(d: NaiveDate): NaiveDate
  {
    if d.day > 1 then Date(d.year, d.month, d.day - 1)
    else if d.month > 1 then Date(d.year, d.month - 1, DaysInMonth(d.year, d.month - 1))
    else Date(d.year - 1, 12, 31)
  }

  /** Days before January 1 of year `y`, counted from January 1 of year 1. */
  function DaysBeforeYear(y: int): int
  {
    365 * (y - 1) + (y - 1) / 4 - (y - 1) / 100 + (y - 1) / 400
  }

  /** Days of year `y` before the first day of month `m`. */
  function DaysBeforeMonth(y: int, m: int): int
  {
    var leap := if m > 2 && IsLeapYear(y) then 1 else 0;
    leap + (
      if m <= 1 then 0 else if m == 2 then 31 else if m == 3 then 59
      else if m == 4 then 90 else if m == 5 then 120 else if m == 6 then 151
      else if m == 7 then 181 else if m == 8 then 212 else if m == 9 then 243
      else if m == 10 then 273 else if m == 11 then 304 else 334)
  }

  /** The day number of a date: 0 for January 1 of year 1, counting up by one per day. */
  function DayNumber(d: Date): int
  {
    DaysBeforeYear(d.year) + DaysBeforeMonth(d.year, d.month) + d.day - 1
  }

  /** The signed number of days from `a` to `b` (chrono's `b - a` in days). */
  function DaysBetween(a: Date, b: Date): int
  {
    DayNumber(b) - DayNumber(a)
  }

  /** Days from Monday (chrono's `num_days_from_monday`): 0 is Monday, 6 is Sunday. */
  function Weekday(d: Date): (w: int)
    ensures 0 <= w < 7
  {
    DayNumber(d) % 7
  }

  predicate IsWeekend(d: Date)
  {
    Weekday(d) >= 5
  }

  /** The date `n` days after `d` (`d + Duration::days(n)`). */
  function AddDays(d: NaiveDate, n: int): NaiveDate
    decreases if n >= 0 then n else -n
  {
    if n == 0 then d
    else if n > 0 then AddDays(Succ(d), n - 1)
    else AddDays(Pred(d), n + 1)
  }

  /** Leap days are the multiples of 4, less those of 100, plus those of 400. */
  lemma {:induction false} YearLength(y: int)
    ensures DaysBeforeYear(y + 1) == DaysBeforeYear(y) + DaysInYear(y)
  {
    assert y / 4 - (y - 1) / 4 == (if y % 4 == 0 then 1 else 0);
    assert y / 100 - (y - 1) / 100 == (if y % 100 == 0 then 1 else 0);
    assert y / 400 - (y - 1) / 400 == (if y % 400 == 0 then 1 else 0);
    assert y % 400 == 0 ==> y % 100 == 0;
    assert y % 100 == 0 ==> y % 4 == 0;
  }

  lemma {:induction false} YearsMonotone(y1: int, y2: int)
    requires y1 < y2
    ensures DaysBeforeYear(y1 + 1) <= DaysBeforeYear(y2)
    decreases y2 - y1
  {
    if y1 + 1 < y2 {
      YearsMonotone(y1 + 1, y2);
      YearLength(y1 + 1);
    }
  }

  lemma DayNumberWithinYear(d: NaiveDate)
    ensures DaysBeforeYear(d.year) <= DayNumber(d) < DaysBeforeYear(d.year + 1)
  {
    YearLength(d.year);
  }

  /** The successor is the day whose number is one more. */
  lemma {:induction false} SuccDayNumber(d: NaiveDate)
    ensures DayNumber(Succ(d)) == DayNumber(d) + 1
  {
    if d.day == DaysInMonth(d.year, d.month) && d.month == 12 {
      YearLength(d.year);
    }
  }

  lemma PredSucc(d: NaiveDate)
    ensures Pred(Succ(d)) == d
    ensures Succ(Pred(d)) == d
  {
  }

  /** Chronological order is the order of day numbers. */
  lemma {:induction false} LessDayNumber(a: NaiveDate, b: NaiveDate)
    ensures Less(a, b) <==> DayNumber(a) < DayNumber(b)
  {
    forall a: NaiveDate, b: NaiveDate | Less(a, b) ensures DayNumber(a) < DayNumber(b) {
      LessImpliesSmaller(a, b);
    }
    if !Less(a, b) && a != b {
      LessImpliesSmaller(b, a);
    }
  }

  lemma LessImpliesSmaller(a: NaiveDate, b: NaiveDate)
    requires Less(a, b)
    ensures DayNumber(a) < DayNumber(b)
  {
    if a.year < b.year {
      DayNumberWithinYear(a);
      DayNumberWithinYear(b);
      if a.year + 1 < b.year {
        YearsMonotone(a.year, b.year);
      }
    }
  }

  /** Two dates with the same day number are the same date. */
  lemma DayNumberInjective(a: NaiveDate, b: NaiveDate)
    requires DayNumber(a) == DayNumber(b)
    ensures a == b
  {
    LessDayNumber(a, b);
    LessDayNumber(b, a);
  }

  /** Adding days moves the day number by exactly that many days. */
  lemma {:induction false} AddDaysNumber(d: NaiveDate, n: int)
    ensures DayNumber(AddDays(d, n)) == DayNumber(d) + n
    decreases if n >= 0 then n else -n
  {
    if n > 0 {
      SuccDayNumber(d);
      AddDaysNumber(Succ(d), n - 1);
    } else if n < 0 {
      PredSucc(d);
      SuccDayNumber(Pred(d));
      AddDaysNumber(Pred(d), n + 1);
    }
  }

  /** The date `n` days after `d` is the only date that many days after it. */
  lemma AddDaysUnique(d: NaiveDate, n: int, e: NaiveDate)
    requires DaysBetween(d, e) == n
    ensures AddDays(d, n) == e
  {
    AddDaysNumber(d, n);
    DayNumberInjective(AddDays(d, n), e);
  }

  /** Calendar facts that pin the day numbering to the real calendar. */
  lemma CalendarAnchors()
    ensures Weekday(Date(2024, 1, 1)) == 0
    ensures Weekday(Date(2021, 2, 27)) == 5
    ensures DaysBetween(Date(2020, 1, 1), Date(2021, 1, 1)) == 366
    ensures DaysBetween(Date(2021, 1, 1), Date(2022, 1, 1)) == 365
  {
  }
}
