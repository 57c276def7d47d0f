/**
 * The rules that decide whether two consecutive broker statements may be merged
 * (src/broker_statement/merging.rs). A period is a half-open `[start, end)` date pair.
 */
module StatementsMerging {
  import opened Wrappers
  import opened Dates

  datatype StatementsMergingStrategy =
    | ContinuousOnly
      /** Gaps are tolerated when they cover at most this many weekdays. */
    | SparseOnHolidays(maxDays: nat)
      /** A gap is tolerated before a one-day statement in the month of the last statement's last day. */
    | SparseSingleDaysLastMonth

  /** The number of weekdays (Monday to Friday) in `[from, to)`. */
  function WeekdaysBetween(from: NaiveDate, to: NaiveDate): nat
    decreases DayNumber(to) - DayNumber(from)
  {
    if !Dates.Less(from, to) then 0
    else
      LessDayNumber(from, to);
      SuccDayNumber(from);
      (if IsWeekend(from) then 0 else 1) + WeekdaysBetween(Succ(from), to)
  }

  /** `(year, month)` of the day before `lastEndDate`: the month the last statement ends in. */
  function LastMonth(lastEndDate: NaiveDate): (int, int)
  {
    var lastDay := Pred(lastEndDate);
    (lastDay.year, lastDay.month)
  }

  /** The periods `validate` accepts: no overlap, and a gap only where the strategy tolerates it. */
  predicate Accepts(strategy: StatementsMergingStrategy, first: (NaiveDate, NaiveDate), second: (NaiveDate, NaiveDate), lastEndDate: NaiveDate)
  {
    !Dates.Less(second.0, first.1) &&
    match strategy
    case ContinuousOnly => second.0 == first.1
    case SparseSingleDaysLastMonth =>
      second.0 == first.1
      || (DaysBetween(second.0, second.1) == 1 && (second.0.year, second.0.month) == LastMonth(lastEndDate))
    case SparseOnHolidays(maxDays) => WeekdaysBetween(first.1, second.0) <= maxDays
  }

  /**
   * `validate`: checks that `second` may follow `first`. Overlapping periods are always
   * an error; a gap is an error unless the strategy tolerates it.
   */
  method Validate(strategy: StatementsMergingStrategy, first: (NaiveDate, NaiveDate), second: (NaiveDate, NaiveDate), lastEndDate: NaiveDate)
    returns (r: Result<()>)
    ensures r.Ok? <==> Accepts(strategy, first, second, lastEndDate)
    ensures r.Err? ==> r.error == (if Dates.Less(second.0, first.1) then "Overlapping periods" else "Non-continuous periods")
  {
    if Dates.Less(second.0, first.1) {
      return Err("Overlapping periods");
    }

    match strategy {
      case ContinuousOnly =>
        if second.0 != first.1 {
          return Err("Non-continuous periods");
        }

      case SparseSingleDaysLastMonth =>
        if second.0 != first.1 {
          var lastMonth := LastMonth(lastEndDate);
          if !(DaysBetween(second.0, second.1) == 1 && (second.0.year, second.0.month) == lastMonth) {
            return Err("Non-continuous periods");
          }
        }

      case SparseOnHolidays(maxDays) =>
        var date := first.1;
        var missingDays := 0;
        while Dates.Less(date, second.0)
          invariant missingDays + WeekdaysBetween(date, second.0) == WeekdaysBetween(first.1, second.0)
          invariant missingDays <= maxDays
          decreases DayNumber(second.0) - DayNumber(date)
        {
          if !IsWeekend(date) {
            if missingDays >= maxDays {
              return Err("Non-continuous periods");
            }
            missingDays := missingDays + 1;
          }
          LessDayNumber(date, second.0);
          SuccDayNumber(date);
          date := Succ(date);
        }
    }

    return Ok(());
  }

  /** A gap never holds more weekdays than days. */
  lemma {:induction false} WeekdaysAtMostDays(from: NaiveDate, to: NaiveDate)
    requires !Dates.Less(to, from)
    ensures WeekdaysBetween(from, to) <= DaysBetween(from, to)
    decreases DayNumber(to) - DayNumber(from)
  {
    LessDayNumber(from, to);
    LessDayNumber(to, from);
    if Dates.Less(from, to) {
      SuccDayNumber(from);
      LessDayNumber(Succ(from), to);
      LessDayNumber(to, Succ(from));
      if Succ(from) != to {
        WeekdaysAtMostDays(Succ(from), to);
      }
    }
  }

  /** With holidays tolerated, any gap of at most `maxDays` calendar days is accepted. */
  lemma ShortGapAccepted(maxDays: nat, first: (NaiveDate, NaiveDate), second: (NaiveDate, NaiveDate), lastEndDate: NaiveDate)
    requires !Dates.Less(second.0, first.1) && DaysBetween(first.1, second.0) <= maxDays
    ensures Accepts(SparseOnHolidays(maxDays), first, second, lastEndDate)
  {
    WeekdaysAtMostDays(first.1, second.0);
  }

  /** Periods that `ContinuousOnly` accepts are accepted by every strategy. */
  lemma ContinuousIsStrictest(strategy: StatementsMergingStrategy, first: (NaiveDate, NaiveDate), second: (NaiveDate, NaiveDate), lastEndDate: NaiveDate)
    requires Accepts(ContinuousOnly, first, second, lastEndDate)
    ensures Accepts(strategy, first, second, lastEndDate)
  {
  }

  /** Saturday 2021-02-27 and Sunday 2021-02-28 are weekend days; Friday 2021-02-26 is not. */
  lemma LastFebruaryWeekend()
    ensures Succ(Date(2021, 2, 26)) == Date(2021, 2, 27) && Succ(Date(2021, 2, 27)) == Date(2021, 2, 28)
    ensures Succ(Date(2021, 2, 28)) == Date(2021, 3, 1)
    ensures !IsWeekend(Date(2021, 2, 26)) && IsWeekend(Date(2021, 2, 27)) && IsWeekend(Date(2021, 2, 28))
  {
    CalendarAnchors();
    assert DayNumber(Date(2021, 2, 26)) == DayNumber(Date(2021, 2, 27)) - 1;
    assert DayNumber(Date(2021, 2, 28)) == DayNumber(Date(2021, 2, 27)) + 1;
  }

  /** A statement ending on Saturday 2021-02-27 may be followed by one starting on Monday even with no missing weekdays allowed. */
  lemma WeekendGapIsFree(start: NaiveDate, end: NaiveDate, lastEndDate: NaiveDate)
    ensures !Accepts(ContinuousOnly, (start, Date(2021, 2, 27)), (Date(2021, 3, 1), end), lastEndDate)
    ensures Accepts(SparseOnHolidays(0), (start, Date(2021, 2, 27)), (Date(2021, 3, 1), end), lastEndDate)
  {
    LastFebruaryWeekend();
    assert WeekdaysBetween(Date(2021, 2, 28), Date(2021, 3, 1)) == 0;
  }

  /** A gap on Friday 2021-02-26 is a missing weekday. */
  lemma FridayGapIsMissing(start: NaiveDate, end: NaiveDate, lastEndDate: NaiveDate)
    ensures !Accepts(SparseOnHolidays(0), (start, Date(2021, 2, 26)), (Date(2021, 3, 1), end), lastEndDate)
  {
    LastFebruaryWeekend();
  }

  /** A one-day statement in the last month may follow a gap; the same day in another month may not. */
  lemma SingleDayInLastMonth(start: NaiveDate)
    ensures Accepts(SparseSingleDaysLastMonth, (start, Date(2024, 3, 1)), (Date(2024, 3, 5), Date(2024, 3, 6)), Date(2024, 3, 6))
    ensures !Accepts(SparseSingleDaysLastMonth, (start, Date(2024, 3, 1)), (Date(2024, 3, 5), Date(2024, 3, 6)), Date(2024, 4, 2))
    ensures !Accepts(SparseSingleDaysLastMonth, (start, Date(2024, 3, 1)), (Date(2024, 3, 5), Date(2024, 3, 7)), Date(2024, 3, 6))
  {
  }
}
