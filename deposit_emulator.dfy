/**
 * The bank deposit emulator (src/analysis/deposit_emulator.rs): a deposit earns a daily
 * interest of `interest / 100 / 365` on its assets inside interest periods, the income
 * is capitalized monthly (or at the period's end), and transactions move money in and out.
 *
 * Each step of the emulator is specified by a function on `EmulatorState`, a value
 * holding the emulator's fields; the class `DepositEmulator` performs the same steps on
 * its fields and is proved to agree with those functions.
 */
module DepositEmulation {
  import opened Wrappers
  import opened Dates

  datatype Transaction = Transaction(date: NaiveDate, amount: real)

  /** An interest period `[start, end)`. */
  datatype InterestPeriod = InterestPeriod(start: NaiveDate, end: NaiveDate)

  /** The interest period the deposit is currently in. */
  datatype ActiveInterestPeriod = ActiveInterestPeriod(
    startDate: NaiveDate, monthlyCapitalization: bool,
    nextCapitalizationDate: NaiveDate, accumulatedIncome: real, endDate: NaiveDate)

  /**
   * The emulator's fields. `interestPeriods` is a stack: its last element is the next
   * period to enter.
   */
  datatype EmulatorState = EmulatorState(
    date: NaiveDate, endDate: NaiveDate,
    monthlyCapitalization: bool, interestPeriods: seq<InterestPeriod>, interestPeriod: Option<ActiveInterestPeriod>,
    dailyInterest: real, assets: real)

  // Date helpers.

  /** `get_next_year_month`. */
  function NextYearMonth(year: int, month: int): (int, int)
  {
    if month == 12 then (year + 1, 1) else (year, month + 1)
  }

  /** The first day after the end of a month is the first day of the month `NextYearMonth` gives. */
  lemma NextYearMonthFollowsMonthEnd(d: NaiveDate)
    requires IsLastDayOfMonth(d)
    ensures var (year, month) := NextYearMonth(d.year, d.month);
      Succ(d) == Date(year, month, 1)
  {
  }

  /** The capitalization day `day` fits `current`: it is its day, or a later day the month is too short for. */
  predicate CapitalizationDayFits(current: NaiveDate, day: int)
  {
    current.day == day || (current.day < day && Succ(current).month != current.month)
  }

  /**
   * `get_next_capitalization_date`: the capitalization day of the next month, or that
   * month's last day when it is shorter.
   */
  function NextCapitalizationDate(current: NaiveDate, capitalizationDay: int): (r: Result<NaiveDate>)
    ensures r.Ok? <==> CapitalizationDayFits(current, capitalizationDay)
    ensures r.Ok? ==> (r.value.year, r.value.month) == NextYearMonth(current.year, current.month)
    ensures r.Ok? ==> r.value.day == Min2(capitalizationDay, DaysInMonth(r.value.year, r.value.month))
  {
    if !CapitalizationDayFits(current, capitalizationDay) then
      Err("Got an unexpected current capitalization date for the specified capitalization day")
    else
      var (year, month) := NextYearMonth(current.year, current.month);
      match FromYmd(year, month, capitalizationDay)
      case Some(date) => Ok(date)
      case None =>
        var (nextYear, nextMonth) := NextYearMonth(year, month);
        Ok(Pred(Date(nextYear, nextMonth, 1)))
  }

  function Min2(a: int, b: int): int
  {
    if a <= b then a else b
  }

  /** Days from a date to a day of the next month: the rest of this month plus that day. */
  lemma {:induction false} NextMonthDays(current: NaiveDate, next: NaiveDate)
    requires (next.year, next.month) == NextYearMonth(current.year, current.month)
    ensures DaysBetween(current, next) == DaysInMonth(current.year, current.month) - current.day + next.day
  {
    if current.month == 12 {
      YearLength(current.year);
    }
  }

  /** The next capitalization date is 28 to 31 days later, as the source asserts for the month-end case. */
  lemma NextCapitalizationWithinMonth(current: NaiveDate, capitalizationDay: int)
    requires NextCapitalizationDate(current, capitalizationDay).Ok?
    ensures var next := NextCapitalizationDate(current, capitalizationDay).value;
      28 <= DaysBetween(current, next) <= 31
  {
    NextMonthDays(current, NextCapitalizationDate(current, capitalizationDay).value);
  }

  /** The unit-test cases: December to January, including the days February lacks. */
  lemma NextCapitalizationTestValues()
    ensures forall day | 1 <= day <= 31 :: NextCapitalizationDate(Date(2018, 12, day), day).Ok? && NextCapitalizationDate(Date(2018, 12, day), day).value == Date(2019, 1, day)
    ensures forall day | 1 <= day <= 28 :: NextCapitalizationDate(Date(2019, 1, day), day).Ok? && NextCapitalizationDate(Date(2019, 1, day), day).value == Date(2019, 2, day)
    ensures forall day | 29 <= day <= 31 :: NextCapitalizationDate(Date(2019, 1, day), day).Ok? && NextCapitalizationDate(Date(2019, 1, day), day).value == Date(2019, 2, 28)
    ensures forall day | 1 <= day <= 28 :: NextCapitalizationDate(Date(2019, 2, day), day).Ok? && NextCapitalizationDate(Date(2019, 2, day), day).value == Date(2019, 3, day)
    ensures forall day | 28 <= day <= 31 :: NextCapitalizationDate(Date(2019, 2, 28), day).Ok? && NextCapitalizationDate(Date(2019, 2, 28), day).value == Date(2019, 3, day)
    ensures forall day | 1 <= day <= 27 :: NextCapitalizationDate(Date(2019, 2, 28), day).Err?
  {
  }

  // Interest periods.

  /** `InterestPeriod::days`: the number of days from the period's start to its end. */
  function Days(period: InterestPeriod): (days: nat)
    requires Less(period.start, period.end)
    ensures days > 0 && AddDays(period.start, days) == period.end
  {
    LessDayNumber(period.start, period.end);
    AddDaysUnique(period.start, DaysBetween(period.start, period.end), period.end);
    DaysBetween(period.start, period.end)
  }

  /** The income of `days` days on `assets` at a daily rate. */
  function Income(assets: real, dailyInterest: real, days: int): real
  {
    assets * dailyInterest * days as real
  }

  // The emulator's invariants.

  /**
   * The stacked periods, top first, are well-formed and end by `until`, none starts
   * before `from`, and each starts no earlier than the one above it ends.
   */
  predicate Upcoming(periods: seq<InterestPeriod>, from: NaiveDate, until: NaiveDate)
  {
    |periods| == 0 ||
    var top := periods[|periods| - 1];
    LessEq(from, top.start) && Less(top.start, top.end) && LessEq(top.end, until)
    && Upcoming(periods[..|periods| - 1], top.end, until)
  }

  /**
   * An active period that has started and whose next capitalization is ahead; a
   * capitalization date before the period's end fits the capitalization day.
   */
  predicate ActiveValid(period: ActiveInterestPeriod, date: NaiveDate)
  {
    LessEq(period.startDate, date) && Less(date, period.nextCapitalizationDate)
    && LessEq(period.nextCapitalizationDate, period.endDate)
    && (period.nextCapitalizationDate != period.endDate ==>
          period.monthlyCapitalization && CapitalizationDayFits(period.nextCapitalizationDate, period.startDate.day))
  }

  /** The state before `emulate` selects the first period. */
  predicate Fresh(s: EmulatorState)
  {
    s.interestPeriod.None? && LessEq(s.date, s.endDate) && Upcoming(s.interestPeriods, s.date, s.endDate)
  }

  /** The state `process_to` keeps between its steps. */
  predicate Running(s: EmulatorState)
  {
    match s.interestPeriod
    case Some(period) =>
      ActiveValid(period, s.date) && LessEq(period.endDate, s.endDate)
      && Upcoming(s.interestPeriods, period.endDate, s.endDate)
    case None =>
      Upcoming(s.interestPeriods, s.date, s.endDate)
      && (|s.interestPeriods| > 0 ==> Less(s.date, s.interestPeriods[|s.interestPeriods| - 1].start))
  }

  /** Everything but the date, the active period and the assets stays as it was. */
  predicate SameSettings(s: EmulatorState, r: EmulatorState)
  {
    r.endDate == s.endDate && r.monthlyCapitalization == s.monthlyCapitalization && r.dailyInterest == s.dailyInterest
  }

  // The emulator's steps.

  /** `DepositEmulator::new`: a single interest period over the whole term unless the term is empty. */
  function NewEmulator(startDate: NaiveDate, endDate: NaiveDate, interest: real): (s: EmulatorState)
    requires LessEq(startDate, endDate)
    ensures Fresh(s)
    ensures s.interestPeriods == (if startDate == endDate then [] else [InterestPeriod(startDate, endDate)])
    ensures s.dailyInterest == interest / 100.0 / 365.0 && s.assets == 0.0 && s.date == startDate
  {
    EmulatorState(startDate, endDate, true,
      if startDate != endDate then [InterestPeriod(startDate, endDate)] else [],
      None, interest / 100.0 / 365.0, 0.0)
  }

  /** `with_interest_periods`: the custom periods, stacked so that the first is on top. */
  function Reversed(periods: seq<InterestPeriod>): (r: seq<InterestPeriod>)
    ensures |r| == |periods| && forall i :: 0 <= i < |r| ==> r[i] == periods[|periods| - 1 - i]
  {
    if |periods| == 0 then [] else Reversed(periods[1..]) + [periods[0]]
  }

  /** Periods in ascending order, none before `from`, each starting no earlier than the previous one ends, all by `until`. */
  predicate Ascending(periods: seq<InterestPeriod>, from: NaiveDate, until: NaiveDate)
  {
    |periods| == 0 ||
    (LessEq(from, periods[0].start) && Less(periods[0].start, periods[0].end) && LessEq(periods[0].end, until)
     && Ascending(periods[1..], periods[0].end, until))
  }

  /** Ascending custom periods, once stacked by `with_interest_periods`, are upcoming in the same order. */
  lemma {:induction false} AscendingPeriodsStack(periods: seq<InterestPeriod>, from: NaiveDate, until: NaiveDate)
    requires Ascending(periods, from, until)
    ensures Upcoming(Reversed(periods), from, until)
  {
    if |periods| > 0 {
      AscendingPeriodsStack(periods[1..], periods[0].end, until);
      var r := Reversed(periods);
      assert r[..|r| - 1] == Reversed(periods[1..]);
    }
  }

  /** `set_next_capitalization_date`: a month later (clamped to the period's end), or the end itself. */
  function SetNextCapitalizationDate(period: ActiveInterestPeriod): (r: ActiveInterestPeriod)
    requires Less(period.nextCapitalizationDate, period.endDate)
    requires period.monthlyCapitalization ==> CapitalizationDayFits(period.nextCapitalizationDate, period.startDate.day)
    ensures r == period.(nextCapitalizationDate := r.nextCapitalizationDate)
    ensures Less(period.nextCapitalizationDate, r.nextCapitalizationDate) && LessEq(r.nextCapitalizationDate, period.endDate)
    ensures r.nextCapitalizationDate != r.endDate ==>
      r.monthlyCapitalization && CapitalizationDayFits(r.nextCapitalizationDate, r.startDate.day)
  {
    if period.monthlyCapitalization then
      var next := NextCapitalizationDate(period.nextCapitalizationDate, period.startDate.day).value;
      period.(nextCapitalizationDate := if Less(period.endDate, next) then period.endDate else next)
    else
      period.(nextCapitalizationDate := period.endDate)
  }

  /** `select_interest_period`: enters the next period if it starts today. */
  function AfterSelect(s: EmulatorState): (r: EmulatorState)
    requires s.interestPeriod.None? && Upcoming(s.interestPeriods, s.date, s.endDate)
    ensures Running(r) && SameSettings(s, r) && r.date == s.date && r.assets == s.assets
    ensures r.interestPeriod.Some? ==> r.interestPeriod.value.accumulatedIncome == 0.0
  {
    var periods := s.interestPeriods;
    if |periods| == 0 || s.date != periods[|periods| - 1].start then s
    else
      var period := periods[|periods| - 1];
      var active := SetNextCapitalizationDate(
        ActiveInterestPeriod(period.start, s.monthlyCapitalization, period.start, 0.0, period.end));
      s.(interestPeriods := periods[..|periods| - 1], interestPeriod := Some(active))
  }

  /** `accumulate_income_to`: moves the date on, accruing interest unless the assets are negative. */
  function AfterAccumulate(s: EmulatorState, date: NaiveDate): (r: EmulatorState)
    requires s.interestPeriod.Some?
    requires LessEq(s.date, date) && LessEq(s.interestPeriod.value.startDate, s.date)
    requires LessEq(date, s.interestPeriod.value.nextCapitalizationDate)
    ensures r.date == date && r.interestPeriod.Some?
    ensures r == s.(date := date, interestPeriod := Some(s.interestPeriod.value.(accumulatedIncome := r.interestPeriod.value.accumulatedIncome)))
  {
    var period := s.interestPeriod.value;
    var period :=
      if s.assets >= 0.0 then
        period.(accumulatedIncome := period.accumulatedIncome + Income(s.assets, s.dailyInterest, DaysBetween(s.date, date)))
      else period;
    s.(interestPeriod := Some(period), date := date)
  }

  /** `capitalize`: the accrued income joins the assets and the next capitalization date is set. */
  function AfterCapitalize(s: EmulatorState): (r: EmulatorState)
    requires s.interestPeriod.Some? && s.date == s.interestPeriod.value.nextCapitalizationDate
    requires s.date != s.interestPeriod.value.endDate && LessEq(s.interestPeriod.value.startDate, s.date)
    requires ActiveInvariantAtCapitalization(s.interestPeriod.value)
    ensures r.assets == s.assets + s.interestPeriod.value.accumulatedIncome
    ensures r.interestPeriod.Some? && r.interestPeriod.value.accumulatedIncome == 0.0
    ensures Less(s.date, r.interestPeriod.value.nextCapitalizationDate)
    ensures r.date == s.date && r.interestPeriods == s.interestPeriods && SameSettings(s, r)
    ensures ActiveValid(r.interestPeriod.value, r.date) && r.interestPeriod.value.endDate == s.interestPeriod.value.endDate
  {
    var period := s.interestPeriod.value;
    s.(assets := s.assets + period.accumulatedIncome,
       interestPeriod := Some(SetNextCapitalizationDate(period.(accumulatedIncome := 0.0))))
  }

  /** What the invariant says of a period whose capitalization date is reached before its end. */
  predicate ActiveInvariantAtCapitalization(period: ActiveInterestPeriod)
  {
    Less(period.nextCapitalizationDate, period.endDate)
    && period.monthlyCapitalization && CapitalizationDayFits(period.nextCapitalizationDate, period.startDate.day)
  }

  /** `close_interest_period`: the period's income joins the assets and the next period is selected. */
  function AfterClose(s: EmulatorState): (r: EmulatorState)
    requires s.interestPeriod.Some? && s.date == s.interestPeriod.value.endDate
    requires Upcoming(s.interestPeriods, s.date, s.endDate)
    ensures Running(r) && SameSettings(s, r) && r.date == s.date
    ensures r.assets == s.assets + s.interestPeriod.value.accumulatedIncome
  {
    var period := s.interestPeriod.value;
    AfterSelect(s.(assets := s.assets + period.accumulatedIncome, interestPeriod := None))
  }

  /** One iteration of the loop of `process_to`. */
  function AfterStep(s: EmulatorState, target: NaiveDate): (r: EmulatorState)
    requires Running(s) && Less(s.date, target)
    ensures Running(r) && SameSettings(s, r) && Less(s.date, r.date) && LessEq(r.date, target)
  {
    if s.interestPeriod.Some? then AfterStepInside(s, target) else AfterStepOutside(s, target)
  }

  /** Inside an interest period: accrue up to the next capitalization date and capitalize or close there, or accrue up to the target. */
  function AfterStepInside(s: EmulatorState, target: NaiveDate): (r: EmulatorState)
    requires Running(s) && Less(s.date, target) && s.interestPeriod.Some?
    ensures Running(r) && SameSettings(s, r) && Less(s.date, r.date) && LessEq(r.date, target)
  {
    var period := s.interestPeriod.value;
    if !Less(target, period.nextCapitalizationDate) then
      var accrued := AfterAccumulate(s, period.nextCapitalizationDate);
      if accrued.date == period.endDate then AfterClose(accrued) else AfterCapitalize(accrued)
    else
      AfterAccumulate(s, target)
  }

  /** Outside an interest period: move to the target, or to the next period's start and enter it. */
  function AfterStepOutside(s: EmulatorState, target: NaiveDate): (r: EmulatorState)
    requires Running(s) && Less(s.date, target) && s.interestPeriod.None?
    ensures Running(r) && SameSettings(s, r) && Less(s.date, r.date) && LessEq(r.date, target)
  {
    if |s.interestPeriods| > 0 then
      var next := s.interestPeriods[|s.interestPeriods| - 1];
      if Less(target, next.start) then s.(date := target)
      else AfterSelect(s.(date := next.start))
    else
      s.(date := target)
  }

  /** `process_to`: steps until the emulator's date is `target`. */
  function AfterProcessTo(s: EmulatorState, target: NaiveDate): (r: EmulatorState)
    requires Running(s) && LessEq(s.date, target)
    ensures Running(r) && SameSettings(s, r) && r.date == target
    decreases DayNumber(target) - DayNumber(s.date)
  {
    if s.date == target then s
    else
      var next := AfterStep(s, target);
      LessDayNumber(s.date, target);
      LessDayNumber(s.date, next.date);
      LessDayNumber(next.date, target);
      AfterProcessTo(next, target)
  }

  /** `process_transaction`: the deposit is brought to the transaction's date, then the amount is applied. */
  function AfterTransaction(s: EmulatorState, transaction: Transaction): (r: EmulatorState)
    requires Running(s) && LessEq(s.date, transaction.date)
    ensures Running(r) && SameSettings(s, r) && r.date == transaction.date
  {
    var reached := AfterProcessTo(s, transaction.date);
    reached.(assets := reached.assets + transaction.amount)
  }

  /** The date of the last transaction, or `from` when there is none. */
  function LastDate(transactions: seq<Transaction>, from: NaiveDate): NaiveDate
  {
    if |transactions| == 0 then from else transactions[|transactions| - 1].date
  }

  /** Transactions in date order, none before `from`. */
  predicate Chronological(transactions: seq<Transaction>, from: NaiveDate)
  {
    if |transactions| == 0 then true
    else
      var n := |transactions| - 1;
      Chronological(transactions[..n], from) && LessEq(LastDate(transactions[..n], from), transactions[n].date)
  }

  /** Every prefix of chronological transactions is chronological. */
  lemma {:induction false} ChronologicalPrefix(transactions: seq<Transaction>, from: NaiveDate, i: nat)
    requires Chronological(transactions, from) && i <= |transactions|
    ensures Chronological(transactions[..i], from)
    decreases |transactions| - i
  {
    if i < |transactions| {
      var n := |transactions| - 1;
      assert Chronological(transactions[..n], from);
      ChronologicalPrefix(transactions[..n], from, i);
      assert transactions[..n][..i] == transactions[..i];
    } else {
      assert transactions[..i] == transactions;
    }
  }

  /** The transaction loop of `emulate`. */
  function AfterTransactions(s: EmulatorState, transactions: seq<Transaction>): (r: EmulatorState)
    requires Running(s) && Chronological(transactions, s.date)
    ensures Running(r) && SameSettings(s, r) && r.date == LastDate(transactions, s.date)
  {
    if |transactions| == 0 then s
    else
      var n := |transactions| - 1;
      AfterTransaction(AfterTransactions(s, transactions[..n]), transactions[n])
  }

  /**
   * `emulate`: selects the first period, applies the transactions and runs to the end
   * date, where no period is active any more.
   */
  function Emulation(s: EmulatorState, transactions: seq<Transaction>): (r: EmulatorState)
    requires Fresh(s) && Chronological(transactions, s.date) && LessEq(LastDate(transactions, s.date), s.endDate)
    ensures r.date == s.endDate && r.interestPeriod.None?
  {
    var selected := AfterSelect(s);
    var processed := AfterTransactions(selected, transactions);
    AfterProcessTo(processed, processed.endDate)
  }

  // Properties of the emulation.

  /** Interest accrues only on positive assets and over at least one day. */
  lemma IncomeOnlyOnPositiveAssets(s: EmulatorState, date: NaiveDate)
    requires s.interestPeriod.Some?
    requires LessEq(s.date, date) && LessEq(s.interestPeriod.value.startDate, s.date)
    requires LessEq(date, s.interestPeriod.value.nextCapitalizationDate)
    ensures var r := AfterAccumulate(s, date);
      r.interestPeriod.value.accumulatedIncome != s.interestPeriod.value.accumulatedIncome ==>
        s.assets > 0.0 && Less(s.date, date)
  {
    var r := AfterAccumulate(s, date);
    if s.assets == 0.0 {
      assert Income(s.assets, s.dailyInterest, DaysBetween(s.date, date)) == 0.0;
    }
    if s.date == date {
      assert Income(s.assets, s.dailyInterest, DaysBetween(s.date, date)) == 0.0;
    }
  }

  /** The sum of the transactions' amounts. */
  function Sum(transactions: seq<Transaction>): real
  {
    if |transactions| == 0 then 0.0 else Sum(transactions[..|transactions| - 1]) + transactions[|transactions| - 1].amount
  }

  /** A deposit that earns nothing: no interest rate, or no interest period left, and no pending income. */
  predicate EarnsNothing(s: EmulatorState)
  {
    (s.dailyInterest == 0.0 || (s.interestPeriods == [] && s.interestPeriod.None?))
    && (s.interestPeriod.Some? ==> s.interestPeriod.value.accumulatedIncome == 0.0)
  }

  lemma StepEarnsNothing(s: EmulatorState, target: NaiveDate)
    requires Running(s) && Less(s.date, target) && EarnsNothing(s)
    ensures EarnsNothing(AfterStep(s, target)) && AfterStep(s, target).assets == s.assets
  {
    if s.interestPeriod.Some? {
      var period := s.interestPeriod.value;
      assert Income(s.assets, 0.0, DaysBetween(s.date, target)) == 0.0;
      assert Income(s.assets, 0.0, DaysBetween(s.date, period.nextCapitalizationDate)) == 0.0;
    }
  }

  lemma {:induction false} ProcessToEarnsNothing(s: EmulatorState, target: NaiveDate)
    requires Running(s) && LessEq(s.date, target) && EarnsNothing(s)
    ensures EarnsNothing(AfterProcessTo(s, target)) && AfterProcessTo(s, target).assets == s.assets
    decreases DayNumber(target) - DayNumber(s.date)
  {
    if s.date != target {
      var next := AfterStep(s, target);
      StepEarnsNothing(s, target);
      LessDayNumber(s.date, target);
      LessDayNumber(s.date, next.date);
      LessDayNumber(next.date, target);
      ProcessToEarnsNothing(next, target);
    }
  }

  lemma {:induction false} TransactionsEarnNothing(s: EmulatorState, transactions: seq<Transaction>)
    requires Running(s) && Chronological(transactions, s.date) && EarnsNothing(s)
    ensures EarnsNothing(AfterTransactions(s, transactions))
    ensures AfterTransactions(s, transactions).assets == s.assets + Sum(transactions)
  {
    if |transactions| > 0 {
      var n := |transactions| - 1;
      TransactionsEarnNothing(s, transactions[..n]);
      ProcessToEarnsNothing(AfterTransactions(s, transactions[..n]), transactions[n].date);
    }
  }

  /**
   * A deposit that earns nothing (a zero rate, or a term without interest periods) ends
   * with exactly its deposits less its withdrawals.
   */
  lemma EarningNothingKeepsDeposits(s: EmulatorState, transactions: seq<Transaction>)
    requires Fresh(s) && Chronological(transactions, s.date) && LessEq(LastDate(transactions, s.date), s.endDate) && EarnsNothing(s)
    ensures Emulation(s, transactions).assets == s.assets + Sum(transactions)
  {
    var selected := AfterSelect(s);
    TransactionsEarnNothing(selected, transactions);
    var processed := AfterTransactions(selected, transactions);
    ProcessToEarnsNothing(processed, processed.endDate);
  }

  /** At a zero rate a new deposit returns the sum of its transactions. */
  lemma ZeroRateReturnsDeposits(startDate: NaiveDate, endDate: NaiveDate, transactions: seq<Transaction>)
    requires LessEq(startDate, endDate) && Chronological(transactions, startDate) && LessEq(LastDate(transactions, startDate), endDate)
    ensures Emulation(NewEmulator(startDate, endDate, 0.0), transactions).assets == Sum(transactions)
  {
    EarningNothingKeepsDeposits(NewEmulator(startDate, endDate, 0.0), transactions);
  }

  /** A deposit opened and closed on the same day has no interest period and returns its transactions' sum. */
  lemma EmptyTermReturnsDeposits(date: NaiveDate, interest: real, transactions: seq<Transaction>)
    requires Chronological(transactions, date) && LessEq(LastDate(transactions, date), date)
    ensures Emulation(NewEmulator(date, date, interest), transactions).assets == Sum(transactions)
  {
    EarningNothingKeepsDeposits(NewEmulator(date, date, interest), transactions);
  }

  /** Withdrawing the emulated result on the end date leaves nothing, as the unit tests check. */
  lemma ClosingWithdrawalLeavesZero(s: EmulatorState, transactions: seq<Transaction>)
    requires Fresh(s) && Chronological(transactions, s.date) && LessEq(LastDate(transactions, s.date), s.endDate)
    ensures var closing := transactions + [Transaction(s.endDate, -Emulation(s, transactions).assets)];
      Chronological(closing, s.date) && LessEq(LastDate(closing, s.date), s.endDate) && Emulation(s, closing).assets == 0.0
  {
    var result := Emulation(s, transactions);
    var closing := transactions + [Transaction(s.endDate, -result.assets)];
    assert closing[..|transactions|] == transactions;
    TransactionsAppend(AfterSelect(s), transactions, closing[|transactions|]);
  }

  /** Applying one more transaction after the others. */
  lemma TransactionsAppend(s: EmulatorState, transactions: seq<Transaction>, last: Transaction)
    requires Running(s) && Chronological(transactions + [last], s.date)
    ensures Chronological(transactions, s.date)
    ensures AfterTransactions(s, transactions + [last]) == AfterTransaction(AfterTransactions(s, transactions), last)
  {
    assert (transactions + [last])[..|transactions|] == transactions;
  }

  class DepositEmulator {
    var date: NaiveDate
    var endDate: NaiveDate
    var monthlyCapitalization: bool
    var interestPeriods: seq<InterestPeriod>
    var interestPeriod: Option<ActiveInterestPeriod>
    var dailyInterest: real
    var assets: real

    /** The emulator's fields as a value. */
    function State(): EmulatorState
      reads this
    {
      EmulatorState(date, endDate, monthlyCapitalization, interestPeriods, interestPeriod, dailyInterest, assets)
    }

    /** `new`: the start date must not be after the end date. */
    constructor (startDate: NaiveDate, endDate: NaiveDate, interest: real)
      requires LessEq(startDate, endDate)
      ensures State() == NewEmulator(startDate, endDate, interest)
    {
      date := startDate;
      this.endDate := endDate;
      monthlyCapitalization := true;
      interestPeriods := if startDate != endDate then [InterestPeriod(startDate, endDate)] else [];
      interestPeriod := None;
      dailyInterest := interest / 100.0 / 365.0;
      assets := 0.0;
    }

    /** `with_monthly_capitalization`. */
    method WithMonthlyCapitalization(monthlyCapitalization: bool)
      modifies this
      ensures State() == old(State()).(monthlyCapitalization := monthlyCapitalization)
    {
      this.monthlyCapitalization := monthlyCapitalization;
    }

    /** `with_interest_periods`: the custom periods replace the default one, first period on top. */
    method WithInterestPeriods(customInterestPeriods: seq<InterestPeriod>)
      modifies this
      ensures State() == old(State()).(interestPeriods := Reversed(customInterestPeriods))
    {
      interestPeriods := Reversed(customInterestPeriods);
    }

    /** `emulate`: the deposit's assets on the end date. */
    method Emulate(transactions: seq<Transaction>) returns (result: real)
      requires Fresh(State()) && Chronological(transactions, date) && LessEq(LastDate(transactions, date), endDate)
      modifies this
      ensures State() == Emulation(old(State()), transactions) && result == assets
    {
      SelectInterestPeriod();
      ProcessTransactions(transactions);
      ProcessTo(endDate);
      assert interestPeriod.None?;
      result := assets;
    }

    /** The transaction loop of `emulate`. */
    method ProcessTransactions(transactions: seq<Transaction>)
      requires Running(State()) && Chronological(transactions, date)
      modifies this
      ensures State() == AfterTransactions(old(State()), transactions)
    {
      for i := 0 to |transactions|
        invariant Chronological(transactions[..i], old(date))
        invariant State() == AfterTransactions(old(State()), transactions[..i])
      {
        ChronologicalPrefix(transactions, old(date), i + 1);
        assert transactions[..i + 1][..i] == transactions[..i];
        ProcessTransaction(transactions[i]);
      }
      assert transactions[..|transactions|] == transactions;
    }

    method SelectInterestPeriod()
      requires interestPeriod.None? && Upcoming(interestPeriods, date, endDate)
      modifies this
      ensures State() == AfterSelect(old(State()))
    {
      if |interestPeriods| == 0 {
        return;
      }
      var period := interestPeriods[|interestPeriods| - 1];
      if date != period.start {
        return;
      }
      interestPeriods := interestPeriods[..|interestPeriods| - 1];
      var active := ActiveInterestPeriod(period.start, monthlyCapitalization, period.start, 0.0, period.end);
      active := SetNextCapitalizationDate(active);
      interestPeriod := Some(active);
    }

    method ProcessTransaction(transaction: Transaction)
      requires Running(State()) && LessEq(date, transaction.date)
      modifies this
      ensures State() == AfterTransaction(old(State()), transaction)
    {
      ProcessTo(transaction.date);
      assets := assets + transaction.amount;
    }

    method ProcessTo(target: NaiveDate)
      requires Running(State()) && LessEq(date, target)
      modifies this
      ensures State() == AfterProcessTo(old(State()), target)
    {
      while Less(date, target)
        invariant Running(State()) && LessEq(date, target)
        invariant AfterProcessTo(State(), target) == AfterProcessTo(old(State()), target)
        decreases DayNumber(target) - DayNumber(date)
      {
        ghost var before := State();
        if interestPeriod.Some? {
          ProcessInsidePeriod(target);
        } else {
          ProcessOutsidePeriod(target);
        }
        LessDayNumber(before.date, target);
        LessDayNumber(before.date, date);
        LessDayNumber(date, target);
      }
    }

    /** The loop body of `process_to` inside an interest period: up to the next capitalization or to the target. */
    method ProcessInsidePeriod(target: NaiveDate)
      requires Running(State()) && Less(date, target) && interestPeriod.Some?
      modifies this
      ensures State() == AfterStep(old(State()), target)
    {
      var period := interestPeriod.value;
      if !Less(target, period.nextCapitalizationDate) {
        AccumulateIncomeTo(period.nextCapitalizationDate);
        if date == period.endDate {
          CloseInterestPeriod();
        } else {
          Capitalize();
        }
      } else {
        AccumulateIncomeTo(target);
      }
    }

    /** The loop body of `process_to` outside an interest period: up to the next period's start or to the target. */
    method ProcessOutsidePeriod(target: NaiveDate)
      requires Running(State()) && Less(date, target) && interestPeriod.None?
      modifies this
      ensures State() == AfterStep(old(State()), target)
    {
      if |interestPeriods| > 0 {
        var nextPeriod := interestPeriods[|interestPeriods| - 1];
        assert Less(date, nextPeriod.start);
        if Less(target, nextPeriod.start) {
          date := target;
        } else {
          date := nextPeriod.start;
          SelectInterestPeriod();
        }
      } else {
        date := target;
      }
    }

    method AccumulateIncomeTo(target: NaiveDate)
      requires interestPeriod.Some?
      requires LessEq(date, target) && LessEq(interestPeriod.value.startDate, date)
      requires LessEq(target, interestPeriod.value.nextCapitalizationDate)
      modifies this
      ensures State() == AfterAccumulate(old(State()), target)
    {
      var period := interestPeriod.value;
      if assets >= 0.0 {
        var days := DaysBetween(date, target);
        var income := Income(assets, dailyInterest, days);
        period := period.(accumulatedIncome := period.accumulatedIncome + income);
      }
      interestPeriod := Some(period);
      date := target;
    }

    method Capitalize()
      requires interestPeriod.Some? && date == interestPeriod.value.nextCapitalizationDate
      requires date != interestPeriod.value.endDate && LessEq(interestPeriod.value.startDate, date)
      requires ActiveInvariantAtCapitalization(interestPeriod.value)
      modifies this
      ensures State() == AfterCapitalize(old(State()))
    {
      var period := interestPeriod.value;
      assets := assets + period.accumulatedIncome;
      period := period.(accumulatedIncome := 0.0);
      period := SetNextCapitalizationDate(period);
      interestPeriod := Some(period);
    }

    method CloseInterestPeriod()
      requires interestPeriod.Some? && date == interestPeriod.value.endDate
      requires Upcoming(interestPeriods, date, endDate)
      modifies this
      ensures State() == AfterClose(old(State()))
    {
      var period := interestPeriod.value;
      interestPeriod := None;
      assets := assets + period.accumulatedIncome;
      SelectInterestPeriod();
    }
  }
}
