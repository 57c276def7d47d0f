/**
 * The tax rules of a country (src/localities/mod.rs): rates by income type and year,
 * the tax to pay on an income with the credit for tax already withheld, and the
 * settlement-date rules of the Russian stock exchange.
 */
module Localities {
  import opened Wrappers
  import opened Dates
  import opened Currency
  import opened Taxes
  import Decimals

  /** A `BTreeMap<i32, Decimal>` as its entries in ascending key order. */
  type RateTable = seq<(int, real)>

  predicate Ascending(table: RateTable)
  {
    forall i, j :: 0 <= i < j < |table| ==> table[i].0 < table[j].0
  }

  datatype Country = Country(
    currency: string,
    defaultTaxRate: real,
    taxRates: map<IncomeType, RateTable>,
    taxPrecision: nat)
  {
    predicate Valid()
    {
      forall t :: t in taxRates ==> Ascending(taxRates[t])
    }
  }

  function Percents(table: RateTable): (r: RateTable)
    ensures |r| == |table|
    ensures forall i :: 0 <= i < |table| ==> r[i].0 == table[i].0 && r[i].1 * 100.0 == table[i].1
  {
    if |table| == 0 then [] else [(table[0].0, table[0].1 / 100.0)] + Percents(table[1..])
  }

  /** `Country::new`: the configuration gives percents; the country keeps fractions. */
  function NewCountry(currency: string, defaultTaxRate: real, taxRates: map<IncomeType, RateTable>,
                      taxPrecision: nat): (c: Country)
    requires forall t :: t in taxRates ==> Ascending(taxRates[t])
    ensures c.Valid() && c.currency == currency && c.taxPrecision == taxPrecision
    ensures c.defaultTaxRate * 100.0 == defaultTaxRate
    ensures c.taxRates.Keys == taxRates.Keys
    ensures forall t :: t in taxRates ==> |c.taxRates[t]| == |taxRates[t]|
    ensures forall t, i :: t in taxRates && 0 <= i < |taxRates[t]| ==>
      c.taxRates[t][i].0 == taxRates[t][i].0 && c.taxRates[t][i].1 * 100.0 == taxRates[t][i].1
  {
    var rates := map t | t in taxRates :: Percents(taxRates[t]);
    forall t | t in rates
      ensures Ascending(rates[t])
    {
      assert Ascending(taxRates[t]);
    }
    Country(currency, defaultTaxRate / 100.0, rates, taxPrecision)
  }

  /** The value of the last entry whose key is at most `year`, if any. */
  function LastAtMost(table: RateTable, year: int): (r: Option<real>)
    requires Ascending(table)
    ensures r.None? <==> forall i :: 0 <= i < |table| ==> table[i].0 > year
    ensures r.Some? ==> (exists i :: 0 <= i < |table| && table[i].0 <= year && r.value == table[i].1 &&
                                    (i + 1 == |table| || table[i + 1].0 > year))
  {
    if |table| == 0 then None
    else if table[|table| - 1].0 <= year then Some(table[|table| - 1].1)
    else LastAtMost(table[..|table| - 1], year)
  }

  /**
   * `Country::tax_rate`: the rate of the latest year not after `year`, or the
   * default rate when there is none.
   */
  function TaxRate(country: Country, incomeType: IncomeType, year: int): (r: real)
    requires country.Valid()
    ensures incomeType !in country.taxRates ==> r == country.defaultTaxRate
  {
    if incomeType in country.taxRates then
      match LastAtMost(country.taxRates[incomeType], year)
      case Some(rate) => rate
      case None => country.defaultTaxRate
    else
      country.defaultTaxRate
  }

  /** The rate picked is the one of the greatest year not after the requested one. */
  lemma {:induction false} TaxRateIsLatest(country: Country, incomeType: IncomeType, year: int, i: int)
    requires country.Valid() && incomeType in country.taxRates
    requires 0 <= i < |country.taxRates[incomeType]|
    requires country.taxRates[incomeType][i].0 <= year
    requires i + 1 == |country.taxRates[incomeType]| || country.taxRates[incomeType][i + 1].0 > year
    ensures TaxRate(country, incomeType, year) == country.taxRates[incomeType][i].1
  {
    LastAtMostIsLatest(country.taxRates[incomeType], year, i);
  }

  /** The entry found is the one whose year is the greatest not after `year`. */
  lemma LastAtMostIsLatest(table: RateTable, year: int, i: int)
    requires Ascending(table) && 0 <= i < |table| && table[i].0 <= year
    requires i + 1 == |table| || table[i + 1].0 > year
    ensures LastAtMost(table, year) == Some(table[i].1)
  {
    var r := LastAtMost(table, year);
    var k :| 0 <= k < |table| && table[k].0 <= year && r.value == table[k].1 &&
      (k + 1 == |table| || table[k + 1].0 > year);
    LatestUnique(table, year, i, k);
  }

  /** At most one entry is the latest one not after `year`. */
  lemma LatestUnique(table: RateTable, year: int, i: int, k: int)
    requires Ascending(table) && 0 <= i < |table| && 0 <= k < |table|
    requires table[i].0 <= year && (i + 1 == |table| || table[i + 1].0 > year)
    requires table[k].0 <= year && (k + 1 == |table| || table[k + 1].0 > year)
    ensures i == k
  {
    if i + 1 < |table| {
      assert table[i + 1].0 > year;
    }
    if k + 1 < |table| {
      assert table[k + 1].0 > year;
    }
  }

  /** Every year before the first entry of a table gets the default rate. */
  lemma TaxRateBeforeFirstYear(country: Country, incomeType: IncomeType, year: int)
    requires country.Valid() && incomeType in country.taxRates
    requires forall i :: 0 <= i < |country.taxRates[incomeType]| ==> country.taxRates[incomeType][i].0 > year
    ensures TaxRate(country, incomeType, year) == country.defaultTaxRate
  {
  }

  /** `Country::round_tax`: the tax amount rounded to kopecks, then to the country's precision. */
  function CountryRoundTax(country: Country, tax: Cash): (r: Cash)
    requires tax.currency == country.currency
    ensures r.currency == country.currency
    ensures r.amount == RoundTax(tax.amount, country.taxPrecision)
  {
    Cash(tax.currency, RoundTax(tax.amount, country.taxPrecision))
  }

  /**
   * The tax on an income before any credit (the first half of `Country::tax_to_pay`):
   * zero unless the income rounded to cents is positive.
   */
  function GrossTax(country: Country, incomeType: IncomeType, year: int, income: Cash): (r: Cash)
    requires country.Valid()
    requires income.currency == country.currency
    ensures r.currency == country.currency
    ensures Round(income).amount <= 0.0 ==> r.amount == 0.0
  {
    Cash(country.currency, TaxOnIncome(income.amount, TaxRate(country, incomeType, year), country.taxPrecision))
  }

  /**
   * `Country::tax_to_pay`: the tax on `income`, less the tax already paid abroad
   * (rounded the same way), never below zero.
   */
  function TaxToPay(country: Country, incomeType: IncomeType, year: int, income: Cash,
                    paidTax: Option<Cash>): (r: Cash)
    requires country.Valid()
    requires income.currency == country.currency
    requires Round(income).amount > 0.0 && paidTax.Some? ==>
      !IsNegative(paidTax.value) && paidTax.value.currency == country.currency
    ensures r.currency == country.currency
    ensures Round(income).amount <= 0.0 ==> r.amount == 0.0
    ensures paidTax.None? ==> r == GrossTax(country, incomeType, year, income)
    ensures paidTax.Some? && Round(income).amount > 0.0 ==>
      var credit := RoundTax(paidTax.value.amount, country.taxPrecision);
      var gross := GrossTax(country, incomeType, year, income).amount;
      r.amount == (if credit < gross then gross - credit else 0.0)
  {
    if Round(income).amount <= 0.0 then
      Cash(country.currency, 0.0)
    else
      var tax := GrossTax(country, incomeType, year, income);
      match paidTax
      case Some(paid) =>
        var deduction := CountryRoundTax(country, paid);
        if deduction.amount < tax.amount then Sub(tax, deduction).value else Cash(country.currency, 0.0)
      case None => tax
  }

  /**
   * With a non-negative rate, the credit for paid tax never makes the tax negative
   * and never raises it above the tax without the credit.
   */
  lemma {:induction false} TaxToPayBounds(country: Country, incomeType: IncomeType, year: int, income: Cash,
                                          paidTax: Option<Cash>)
    requires country.Valid()
    requires income.currency == country.currency
    requires Round(income).amount > 0.0 && paidTax.Some? ==>
      !IsNegative(paidTax.value) && paidTax.value.currency == country.currency
    requires TaxRate(country, incomeType, year) >= 0.0
    ensures 0.0 <= TaxToPay(country, incomeType, year, income, paidTax).amount
    ensures TaxToPay(country, incomeType, year, income, paidTax).amount
      <= TaxToPay(country, incomeType, year, income, None).amount
  {
    TaxOnIncomeMonotone(income.amount, income.amount, TaxRate(country, incomeType, year), country.taxPrecision);
    if paidTax.Some? && Round(income).amount > 0.0 {
      RoundTaxSign(paidTax.value.amount, country.taxPrecision);
    }
  }

  /** With a non-negative rate, a larger income never gets a smaller tax. */
  lemma {:induction false} TaxToPayMonotone(country: Country, incomeType: IncomeType, year: int, a: Cash, b: Cash)
    requires country.Valid()
    requires a.currency == country.currency && b.currency == country.currency
    requires TaxRate(country, incomeType, year) >= 0.0
    requires a.amount <= b.amount
    ensures TaxToPay(country, incomeType, year, a, None).amount <= TaxToPay(country, incomeType, year, b, None).amount
  {
    TaxOnIncomeMonotone(a.amount, b.amount, TaxRate(country, incomeType, year), country.taxPrecision);
  }

  /**
   * `Country::deduce_income`: the gross income that leaves `resultIncome` once the
   * tax is withheld, rounded to cents. A rate of 100% divides by zero in the source.
   */
  function DeduceIncome(country: Country, incomeType: IncomeType, year: int, resultIncome: Cash): (r: Cash)
    requires country.Valid() && resultIncome.currency == country.currency
    requires TaxRate(country, incomeType, year) != 1.0
    ensures r.currency == country.currency
  {
    Round(DivBy(resultIncome, 1.0 - TaxRate(country, incomeType, year)))
  }

  /**
   * The deduced income is within half a cent of the exact gross income, that is of
   * the amount whose untaxed share is `resultIncome`.
   */
  lemma {:induction false} DeduceIncomeIsGross(country: Country, incomeType: IncomeType, year: int, resultIncome: Cash)
    requires country.Valid() && resultIncome.currency == country.currency
    requires TaxRate(country, incomeType, year) != 1.0
    ensures var gross := DivBy(resultIncome, 1.0 - TaxRate(country, incomeType, year)).amount;
      gross * (1.0 - TaxRate(country, incomeType, year)) == resultIncome.amount
      && -0.005 <= DeduceIncome(country, incomeType, year, resultIncome).amount - gross <= 0.005
  {
    var gross := DivBy(resultIncome, 1.0 - TaxRate(country, incomeType, year)).amount;
    Decimals.RoundError(gross, 2);
    assert Decimals.Scale(2) == 100.0;
  }

  /** Russia: roubles, 13% unless the configured tables say otherwise, taxes to whole roubles. */
  function RussiaCountry(trading: RateTable, dividends: RateTable, interest: RateTable): (c: Country)
    requires Ascending(trading) && Ascending(dividends) && Ascending(interest)
    ensures c.Valid() && c.currency == "RUB" && c.taxPrecision == 0 && c.defaultTaxRate == 0.13
    ensures c.taxRates.Keys == {Trading, Dividends, Interest}
  {
    NewCountry("RUB", 13.0, map[Trading := trading, Dividends := dividends, Interest := interest], 0)
  }

  /** The USA: dollars, dividends taxed at 10% from year 0 on, nothing else, taxes to cents. */
  function UsCountry(): (c: Country)
    ensures c.Valid() && c.currency == "USD" && c.taxPrecision == 2
    ensures forall year :: year >= 0 ==> TaxRate(c, Dividends, year) == 0.1
    ensures forall year :: TaxRate(c, Trading, year) == 0.0 && TaxRate(c, Interest, year) == 0.0
  {
    NewCountry("USD", 0.0, map[Dividends := [(0, 10.0)]], 2)
  }

  /**
   * The earliest last working day a trade settling on `today` may have been
   * concluded on: three days back, with wider windows over the New Year, 8 March
   * and May holidays and the spring 2020 lockdown.
   */
  function MinLastWorkingDay(today: NaiveDate): (r: NaiveDate)
    ensures !InHolidayWindow(today) ==> r == AddDays(today, -3)
    ensures today.year == 2020 && today.month == 4 && today.day <= 6 ==> r == Date(2020, 3, 28)
  {
    if today.month == 1 && today.day < 12 then
      Max(AddDays(today, -10), Date(today.year - 1, 12, 30))
    else if today.month == 3 && today.day == 12 then
      AddDays(today, -4)
    else if today.month == 5 && 3 <= today.day <= 13 then
      AddDays(today, -5)
    else if today.year == 2020 && today.month == 4 && today.day <= 6 then
      Date(2020, 3, 28)
    else
      AddDays(today, -3)
  }

  predicate InHolidayWindow(today: NaiveDate)
  {
    (today.month == 1 && today.day < 12) || (today.month == 3 && today.day == 12)
    || (today.month == 5 && 3 <= today.day <= 13) || (today.year == 2020 && today.month == 4 && today.day <= 6)
  }

  /** Over the New Year the window reaches back ten days, but not before 30 December. */
  lemma NewYearWindow(today: NaiveDate)
    requires today.month == 1 && today.day < 12
    ensures 2 <= DaysBetween(MinLastWorkingDay(today), today) <= 10
  {
    var back, eve := AddDays(today, -10), Date(today.year - 1, 12, 30);
    var start := DaysBeforeYear(today.year);
    assert DayNumber(today) == start + today.day - 1;
    assert DayNumber(eve) == start - 2 by {
      NewYearEve(today.year);
    }
    assert DayNumber(back) == DayNumber(today) - 10 by {
      AddDaysNumber(today, -10);
    }
    assert MinLastWorkingDay(today) == Max(back, eve);
    LessDayNumber(back, eve);
  }

  /** 30 December is two days before the next year starts. */
  lemma NewYearEve(year: int)
    ensures DayNumber(Date(year - 1, 12, 30)) == DaysBeforeYear(year) - 2
  {
    YearLength(year - 1);
  }

  /** The window is always two to ten days back, and exactly three days outside the holidays. */
  lemma {:induction false} MinLastWorkingDayBounds(today: NaiveDate)
    ensures 2 <= DaysBetween(MinLastWorkingDay(today), today) <= 10
    ensures !InHolidayWindow(today) ==> MinLastWorkingDay(today) == AddDays(today, -3)
  {
    if today.month == 1 && today.day < 12 {
      NewYearWindow(today);
    } else if today.month == 3 && today.day == 12 {
      AddDaysNumber(today, -4);
    } else if today.month == 5 && 3 <= today.day <= 13 {
      AddDaysNumber(today, -5);
    } else if today.year == 2020 && today.month == 4 && today.day <= 6 {
    } else {
      AddDaysNumber(today, -3);
    }
  }

  /**
   * A trade concluded on `conclusion` can settle on `execution` when it is not
   * earlier and the exchange's last working day before execution is within the
   * regular two-day settlement.
   */
  function IsValidExecutionDate(conclusion: NaiveDate, execution: NaiveDate): (r: bool)
    ensures r ==> LessEq(conclusion, execution)
    ensures r ==> DaysBetween(MinLastWorkingDay(execution), AddDays(conclusion, 2)) >= 0
  {
    var expected := AddDays(conclusion, 2);
    LessDayNumber(MinLastWorkingDay(execution), expected);
    LessEq(conclusion, execution) && LessEq(MinLastWorkingDay(execution), expected)
  }

  /** Regular settlement: an execution two days after the conclusion is valid outside holiday windows. */
  lemma {:induction false} RegularSettlementIsValid(conclusion: NaiveDate)
    requires !InHolidayWindow(AddDays(conclusion, 2))
    ensures IsValidExecutionDate(conclusion, AddDays(conclusion, 2))
  {
    var e := AddDays(conclusion, 2);
    AddDaysNumber(conclusion, 2);
    MinLastWorkingDayBounds(e);
    LessDayNumber(conclusion, e);
    LessDayNumber(MinLastWorkingDay(e), e);
  }

  /** None of the first `n` days from `executionDate` can close the account yet. */
  predicate AllTooEarly(executionDate: NaiveDate, n: int)
  {
    forall k :: 0 <= k < n ==> Dates.Less(MinLastWorkingDay(AddDays(executionDate, k)), executionDate)
  }

  lemma AllTooEarlyStep(executionDate: NaiveDate, n: int)
    requires AllTooEarly(executionDate, n)
    requires Dates.Less(MinLastWorkingDay(AddDays(executionDate, n)), executionDate)
    ensures AllTooEarly(executionDate, n + 1)
  {
  }

  /** One more day of the search: it stays within ten days of the execution date. */
  lemma {:induction false} CloseDateStep(executionDate: NaiveDate, n: int, closeDate: NaiveDate)
    requires DaysBetween(executionDate, closeDate) == n
    requires Dates.Less(MinLastWorkingDay(closeDate), executionDate)
    ensures n < 10
    ensures AddDays(closeDate, 1) == AddDays(executionDate, n + 1)
    ensures DaysBetween(executionDate, AddDays(closeDate, 1)) == n + 1
  {
    MinLastWorkingDayBounds(closeDate);
    LessDayNumber(MinLastWorkingDay(closeDate), executionDate);
    AddDaysNumber(closeDate, 1);
    AddDaysUnique(executionDate, n + 1, AddDays(closeDate, 1));
  }

  /** The search has looked at the first `n` days, all too early, and stands on day `n`. */
  predicate Searched(executionDate: NaiveDate, n: int, closeDate: NaiveDate)
  {
    0 <= n <= 10 && closeDate == AddDays(executionDate, n)
    && DaysBetween(executionDate, closeDate) == n && AllTooEarly(executionDate, n)
  }

  lemma SearchStep(executionDate: NaiveDate, n: int, closeDate: NaiveDate)
    requires Searched(executionDate, n, closeDate) && Dates.Less(MinLastWorkingDay(closeDate), executionDate)
    ensures 10 - (n + 1) < 10 - n && 10 - n >= 0
    ensures Searched(executionDate, n + 1, AddDays(closeDate, 1))
  {
    CloseDateStep(executionDate, n, closeDate);
    AllTooEarlyStep(executionDate, n);
  }

  lemma SearchDone(executionDate: NaiveDate, n: int, closeDate: NaiveDate)
    requires Searched(executionDate, n, closeDate)
    ensures LessEq(executionDate, closeDate) && DaysBetween(executionDate, closeDate) <= 10
    ensures AllTooEarly(executionDate, DaysBetween(executionDate, closeDate))
  {
    LessDayNumber(executionDate, closeDate);
  }

  /**
   * `nearest_possible_account_close_date`: the first day, counting from the trade
   * execution date of today, whose earliest last working day is not before that
   * execution date.
   */
  method NearestPossibleAccountCloseDate(executionDate: NaiveDate) returns (closeDate: NaiveDate)
    ensures LessEq(executionDate, closeDate) && DaysBetween(executionDate, closeDate) <= 10
    ensures !Dates.Less(MinLastWorkingDay(closeDate), executionDate)
    ensures AllTooEarly(executionDate, DaysBetween(executionDate, closeDate))
  {
    closeDate := executionDate;
    ghost var n := 0;
    AddDaysUnique(executionDate, 0, closeDate);
    while Dates.Less(MinLastWorkingDay(closeDate), executionDate)
      invariant Searched(executionDate, n, closeDate)
      decreases 10 - n
    {
      SearchStep(executionDate, n, closeDate);
      closeDate := AddDays(closeDate, 1);
      n := n + 1;
    }
    SearchDone(executionDate, n, closeDate);
  }
}
