/**
 * The inflation adjuster (src/analysis/inflation.rs): brings an amount of money dated
 * in the past to its value today by compounding the yearly consumer price inflation of
 * the amount's currency, a year (or the part of it the amount spans) at a time.
 */
module Inflation {
  import opened Wrappers
  import opened Dates

  /** `russia_inflation`: the yearly inflation in percent, where the table has the year. */
  function RussiaInflation(year: int): Option<real>
  {
    match year
    case 1991 => Some(160.40)
    case 1992 => Some(2508.85)
    case 1993 => Some(839.87)
    case 1994 => Some(215.02)
    case 1995 => Some(131.33)
    case 1996 => Some(21.81)
    case 1997 => Some(11.03)
    case 1998 => Some(84.44)
    case 1999 => Some(36.56)
    case 2000 => Some(20.20)
    case 2001 => Some(18.58)
    case 2002 => Some(15.06)
    case 2003 => Some(11.99)
    case 2004 => Some(11.74)
    case 2005 => Some(10.91)
    case 2006 => Some(9.00)
    case 2007 => Some(11.87)
    case 2008 => Some(13.28)
    case 2009 => Some(8.80)
    case 2010 => Some(8.78)
    case 2011 => Some(6.10)
    case 2012 => Some(6.58)
    case 2013 => Some(6.45)
    case 2014 => Some(11.36)
    case 2015 => Some(12.91)
    case 2016 => Some(5.38)
    case 2017 => Some(2.52)
    case 2018 => Some(4.27)
    case 2019 => Some(3.05)
    case 2020 => Some(4.91)
    case 2021 => Some(8.39)
    case 2022 => Some(11.92)
    case 2023 => Some(7.42)
    case 2024 => Some(9.51)
    case _ => None
  }

  /** `us_inflation`: the yearly inflation in percent, where the table has the year. */
  function UsInflation(year: int): Option<real>
  {
    match year
    case 1960 => Some(1.45797598627786)
    case 1961 => Some(1.07072414764723)
    case 1962 => Some(1.19877334820185)
    case 1963 => Some(1.2396694214876)
    case 1964 => Some(1.27891156462583)
    case 1965 => Some(1.58516926383669)
    case 1966 => Some(3.01507537688439)
    case 1967 => Some(2.77278562259307)
    case 1968 => Some(4.27179615288534)
    case 1969 => Some(5.4623862002875)
    case 1970 => Some(5.83825533848253)
    case 1971 => Some(4.29276668813045)
    case 1972 => Some(3.27227824655283)
    case 1973 => Some(6.17776006377041)
    case 1974 => Some(11.0548048048048)
    case 1975 => Some(9.14314686496534)
    case 1976 => Some(5.74481263549085)
    case 1977 => Some(6.50168399472839)
    case 1978 => Some(7.63096383885602)
    case 1979 => Some(11.2544711292795)
    case 1980 => Some(13.5492019749684)
    case 1981 => Some(10.3347153402771)
    case 1982 => Some(6.13142700027494)
    case 1983 => Some(3.21243523316063)
    case 1984 => Some(4.30053547523427)
    case 1985 => Some(3.54564415209369)
    case 1986 => Some(1.89804772234275)
    case 1987 => Some(3.66456321751691)
    case 1988 => Some(4.07774110744408)
    case 1989 => Some(4.82700303008949)
    case 1990 => Some(5.39795643990322)
    case 1991 => Some(4.23496396453853)
    case 1992 => Some(3.0288196781497)
    case 1993 => Some(2.95165696638554)
    case 1994 => Some(2.6074415921546)
    case 1995 => Some(2.80541968853655)
    case 1996 => Some(2.9312041999344)
    case 1997 => Some(2.33768993730741)
    case 1998 => Some(1.55227909874362)
    case 1999 => Some(2.18802719697358)
    case 2000 => Some(3.37685727149935)
    case 2001 => Some(2.82617111885402)
    case 2002 => Some(1.58603162650603)
    case 2003 => Some(2.27009497336113)
    case 2004 => Some(2.67723669309173)
    case 2005 => Some(3.39274684549547)
    case 2006 => Some(3.22594410070407)
    case 2007 => Some(2.85267248150136)
    case 2008 => Some(3.83910029665101)
    case 2009 => Some(-0.35554626629975)
    case 2010 => Some(1.64004344238989)
    case 2011 => Some(3.15684156862206)
    case 2012 => Some(2.06933726526059)
    case 2013 => Some(1.46483265562714)
    case 2014 => Some(1.62222297740821)
    case 2015 => Some(0.118627135552435)
    case 2016 => Some(1.26158320570537)
    case 2017 => Some(2.13011000365963)
    case 2018 => Some(2.44258329692818)
    case 2019 => Some(1.81221007526015)
    case 2020 => Some(1.23358439630637)
    case 2021 => Some(4.69785886363739)
    case 2022 => Some(8.00279982052117)
    case 2023 => Some(4.11633838374488)
    case 2024 => Some(2.9)
    case _ => None
  }

  /** `tests::test_inflation`: the US table cut off before 2023. */
  function TestInflation(year: int): Option<real>
  {
    if year < 2023 then UsInflation(year) else None
  }

  /** The calculator: today's date and the inflation table (`get_inflation`) of its currency. */
  datatype InflationCalc = InflationCalc(today: NaiveDate, getInflation: int -> Option<real>)

  /** `InflationCalc::new`: only roubles and dollars have an inflation table. */
  function NewInflationCalc(currency: string, today: NaiveDate): (r: Result<InflationCalc>)
    ensures r.Ok? <==> currency == "RUB" || currency == "USD"
    ensures r.Ok? ==> r.value.today == today
    ensures r.Ok? ==> r.value.getInflation == (if currency == "RUB" then RussiaInflation else UsInflation)
    ensures r.Err? ==> r.error == "The currency is not supported by inflation calculator"
  {
    match currency
    case "RUB" => Ok(InflationCalc(today, RussiaInflation))
    case "USD" => Ok(InflationCalc(today, UsInflation))
    case _ => Err("The currency is not supported by inflation calculator")
  }

  /** The end of the step that starts at `date`: January 1 of the next year, or today in today's year. */
  function PeriodEnd(today: NaiveDate, date: NaiveDate): (end: NaiveDate)
    requires Dates.Less(date, today)
    ensures Dates.Less(date, end) && LessEq(end, today)
    ensures date.year == today.year ==> end == today
    ensures date.year < today.year ==> end == Date(date.year + 1, 1, 1)
  {
    if date.year == today.year then today else Date(date.year + 1, 1, 1)
  }

  /** The length of `year` in days, measured as the source does: from its January 1 to the next one. */
  function YearDays(year: int): (days: int)
    ensures days == DaysInYear(year)
  {
    YearLength(year);
    DaysBetween(Date(year, 1, 1), Date(year + 1, 1, 1))
  }

  /** One step's growth: `amount += amount * inflation / 100 * days / days_in_year`. */
  function Grow(amount: real, inflation: real, days: int, daysInYear: int): real
    requires daysInYear > 0
  {
    amount + amount * inflation / 100.0 * days as real / daysInYear as real
  }

  /** The number of steps `adjust` takes from `date`: one per year up to today's, none from today on. */
  function StepsLeft(today: NaiveDate, date: NaiveDate): int
  {
    today.year - date.year + (if Dates.Less(date, today) then 1 else 0)
  }

  /** The amount after the step from `date` to `end`: grown by the year's inflation, if the table has it. */
  function StepAmount(calculator: InflationCalc, date: NaiveDate, end: NaiveDate, amount: real): real
  {
    match calculator.getInflation(date.year)
    case None => amount
    case Some(inflation) => Grow(amount, inflation, DaysBetween(date, end), YearDays(date.year))
  }

  /** The value `adjust` computes: one step per calendar year from `date` up to today. */
  function Adjusted(calculator: InflationCalc, date: NaiveDate, amount: real): real
    decreases StepsLeft(calculator.today, date)
  {
    if !Dates.Less(date, calculator.today) then amount
    else
      var end := PeriodEnd(calculator.today, date);
      Adjusted(calculator, end, StepAmount(calculator, date, end, amount))
  }

  /** One step of `Adjusted`. */
  lemma AdjustedStep(calculator: InflationCalc, date: NaiveDate, amount: real)
    requires Dates.Less(date, calculator.today)
    ensures var end := PeriodEnd(calculator.today, date);
      Adjusted(calculator, date, amount) == Adjusted(calculator, end, StepAmount(calculator, date, end, amount))
  {
  }

  /** `adjust`: steps the date to the next year boundary (or today), growing the amount by each year's inflation. */
  method Adjust(calculator: InflationCalc, date: NaiveDate, amount: real) returns (r: real)
    ensures r == Adjusted(calculator, date, amount)
    ensures !Dates.Less(date, calculator.today) ==> r == amount
  {
    var current := date;
    r := amount;
    while Dates.Less(current, calculator.today)
      invariant Adjusted(calculator, current, r) == Adjusted(calculator, date, amount)
      decreases StepsLeft(calculator.today, current)
    {
      var year := current.year;
      var end := PeriodEnd(calculator.today, current);
      AdjustedStep(calculator, current, r);
      var inflation := calculator.getInflation(year);
      if inflation.Some? {
        var daysInYear := YearDays(year);
        r := Grow(r, inflation.value, DaysBetween(current, end), daysInYear);
      }
      current := end;
    }
  }

  /** Years without inflation data leave the amount as it is. */
  lemma {:induction false} NoDataNoChange(calculator: InflationCalc, date: NaiveDate, amount: real)
    requires forall year :: date.year <= year <= calculator.today.year ==> calculator.getInflation(year).None?
    ensures Adjusted(calculator, date, amount) == amount
    decreases StepsLeft(calculator.today, date)
  {
    if Dates.Less(date, calculator.today) {
      AdjustedStep(calculator, date, amount);
      NoDataNoChange(calculator, PeriodEnd(calculator.today, date), amount);
    }
  }

  /** The fraction of the year's inflation a step of `days` days earns. */
  function Prorated(inflation: real, days: int, daysInYear: int): real
    requires daysInYear > 0
  {
    inflation / 100.0 * days as real / daysInYear as real
  }

  /** A step's growth is the amount times one plus the prorated inflation. */
  lemma GrowFactor(amount: real, inflation: real, days: int, daysInYear: int)
    requires daysInYear > 0
    ensures Grow(amount, inflation, days, daysInYear) == amount * (1.0 + Prorated(inflation, days, daysInYear))
  {
    var n := daysInYear as real;
    var z := amount * inflation / 100.0 * days as real;
    var p := inflation / 100.0 * days as real;
    assert z == amount * p;
    assert z / n * n == z;
    assert p / n * n == p;
    assert amount * (p / n) * n == amount * p;
    assert z / n == amount * (p / n);
  }

  /** An amount grown by a whole year's inflation. */
  function Compounded(amount: real, inflation: real): real
  {
    amount * (1.0 + inflation / 100.0)
  }

  /** A whole year before today's grows by exactly that year's inflation. */
  lemma FullYearCompounds(calculator: InflationCalc, year: int, amount: real)
    requires year < calculator.today.year && calculator.getInflation(year).Some?
    ensures Adjusted(calculator, Date(year, 1, 1), amount)
      == Adjusted(calculator, Date(year + 1, 1, 1), Compounded(amount, calculator.getInflation(year).value))
  {
    YearLength(year);
    AdjustedStep(calculator, Date(year, 1, 1), amount);
    var inflation := calculator.getInflation(year).value;
    GrowFactor(amount, inflation, DaysInYear(year), DaysInYear(year));
    assert Prorated(inflation, DaysInYear(year), DaysInYear(year)) == inflation / 100.0;
    assert PeriodEnd(calculator.today, Date(year, 1, 1)) == Date(year + 1, 1, 1);
    assert StepAmount(calculator, Date(year, 1, 1), Date(year + 1, 1, 1), amount) == Compounded(amount, inflation);
  }

  /** In today's year the amount grows by the year's inflation prorated by the days up to today. */
  lemma LastYearProrated(calculator: InflationCalc, date: NaiveDate, amount: real)
    requires date.year == calculator.today.year && Dates.Less(date, calculator.today)
    ensures var inflation := calculator.getInflation(date.year);
      Adjusted(calculator, date, amount) == if inflation.None? then amount
        else amount * (1.0 + Prorated(inflation.value, DaysBetween(date, calculator.today), DaysInYear(date.year)))
  {
    AdjustedStep(calculator, date, amount);
    var inflation := calculator.getInflation(date.year);
    if inflation.Some? {
      GrowFactor(amount, inflation.value, DaysBetween(date, calculator.today), DaysInYear(date.year));
    }
  }

  /** Growth at a non-negative rate does not shrink a non-negative amount. */
  lemma GrowNoLoss(amount: real, inflation: real, days: int, daysInYear: int)
    requires amount >= 0.0 && inflation >= 0.0 && days > 0 && daysInYear > 0
    ensures Grow(amount, inflation, days, daysInYear) >= amount
  {
    var x := amount * inflation;
    assert x >= 0.0;
    var y := x / 100.0 * days as real;
    assert y >= 0.0;
    assert y / daysInYear as real >= 0.0;
  }

  /** Without deflation a step does not shrink a non-negative amount. */
  lemma StepNoLoss(calculator: InflationCalc, date: NaiveDate, end: NaiveDate, amount: real)
    requires amount >= 0.0 && Dates.Less(date, end)
    requires calculator.getInflation(date.year).Some? ==> calculator.getInflation(date.year).value >= 0.0
    ensures StepAmount(calculator, date, end, amount) >= amount
  {
    match calculator.getInflation(date.year)
    case None =>
    case Some(inflation) =>
      LessDayNumber(date, end);
      GrowNoLoss(amount, inflation, DaysBetween(date, end), YearDays(date.year));
  }

  /** With no deflation on the way, a non-negative amount never shrinks. */
  lemma {:induction false} NoDeflationNoLoss(calculator: InflationCalc, date: NaiveDate, amount: real)
    requires amount >= 0.0
    requires forall year :: (date.year <= year <= calculator.today.year && calculator.getInflation(year).Some?
      ==> calculator.getInflation(year).value >= 0.0)
    ensures Adjusted(calculator, date, amount) >= amount
    decreases StepsLeft(calculator.today, date)
  {
    if Dates.Less(date, calculator.today) {
      var end := PeriodEnd(calculator.today, date);
      AdjustedStep(calculator, date, amount);
      StepNoLoss(calculator, date, end, amount);
      NoDeflationNoLoss(calculator, end, StepAmount(calculator, date, end, amount));
    }
  }

  /** Days from `date` to the next January 1. */
  lemma DaysToNewYear(date: NaiveDate)
    ensures DaysBetween(date, Date(date.year + 1, 1, 1)) == DaysInYear(date.year) - DaysBeforeMonth(date.year, date.month) - date.day + 1
  {
    YearLength(date.year);
  }

  /** The test table's rates for the first unit test's years. */
  lemma TestRatesFrom1958()
    ensures TestInflation(1958) == None && TestInflation(1959) == None
    ensures TestInflation(1960) == Some(1.45797598627786) && TestInflation(1961) == Some(1.07072414764723)
    ensures TestInflation(1962) == Some(1.19877334820185)
  {
  }

  /** The test table's rates for the second unit test's years. */
  lemma TestRatesFrom2007()
    ensures TestInflation(2007) == Some(2.85267248150136) && TestInflation(2008) == Some(3.83910029665101)
    ensures TestInflation(2009) == Some(-0.35554626629975) && TestInflation(2010) == Some(1.64004344238989)
  {
  }

  /** The test table's rates for the third unit test's years: the table stops before 2023. */
  lemma TestRatesFrom2020()
    ensures TestInflation(2020) == Some(1.23358439630637) && TestInflation(2021) == Some(4.69785886363739)
    ensures TestInflation(2022) == Some(8.00279982052117) && TestInflation(2023) == None
  {
  }

  /** A step with known inflation, length and year length. */
  lemma StepValue(calculator: InflationCalc, date: NaiveDate, end: NaiveDate, amount: real, inflation: real, days: int, daysInYear: int)
    requires calculator.getInflation(date.year) == Some(inflation)
    requires DaysBetween(date, end) == days && DaysInYear(date.year) == daysInYear
    ensures StepAmount(calculator, date, end, amount) == amount * (1.0 + inflation / 100.0 * days as real / daysInYear as real)
  {
    GrowFactor(amount, inflation, days, daysInYear);
  }

  /** Days between two dates of the same year. */
  lemma DaysWithinYear(a: NaiveDate, b: NaiveDate)
    requires a.year == b.year
    ensures DaysBetween(a, b) == DaysBeforeMonth(b.year, b.month) + b.day - DaysBeforeMonth(a.year, a.month) - a.day
  {
  }

  /** The first unit test: 1958 and 1959 have no data, 1960 is a leap year, 4 days of 1962. */
  lemma AdjustTestFrom1958(calculator: InflationCalc)
    requires calculator == InflationCalc(Date(1962, 1, 5), TestInflation)
    ensures Adjusted(calculator, Date(1958, 3, 4), 123.0)
      == 123.0 * (1.0 + 1.45797598627786 / 100.0) * (1.0 + 1.07072414764723 / 100.0)
        * (1.0 + 1.19877334820185 / 100.0 * 4.0 / 365.0)
  {
    TestRatesFrom1958();
    AdjustedStep(calculator, Date(1958, 3, 4), 123.0);
    AdjustedStep(calculator, Date(1959, 1, 1), 123.0);
    FullYearCompounds(calculator, 1960, 123.0);
    var after1960 := Compounded(123.0, 1.45797598627786);
    FullYearCompounds(calculator, 1961, after1960);
    var after1961 := Compounded(after1960, 1.07072414764723);
    LastYearProrated(calculator, Date(1962, 1, 1), after1961);
    DaysWithinYear(Date(1962, 1, 1), Date(1962, 1, 5));
  }

  /** The first step of the second unit test: 182 of 2007's 365 days. */
  lemma AdjustTest2007FirstStep(calculator: InflationCalc)
    requires calculator == InflationCalc(Date(2010, 4, 6), TestInflation)
    ensures Adjusted(calculator, Date(2007, 7, 3), 123.0)
      == Adjusted(calculator, Date(2008, 1, 1), 123.0 * (1.0 + 2.85267248150136 / 100.0 * 182.0 / 365.0))
  {
    TestRatesFrom2007();
    AdjustedStep(calculator, Date(2007, 7, 3), 123.0);
    assert PeriodEnd(calculator.today, Date(2007, 7, 3)) == Date(2008, 1, 1);
    DaysToNewYear(Date(2007, 7, 3));
    StepValue(calculator, Date(2007, 7, 3), Date(2008, 1, 1), 123.0, 2.85267248150136, 182, 365);
  }

  /** The second unit test: 182 days of 2007, the deflation of 2009 and 95 days of 2010. */
  lemma AdjustTestFrom2007(calculator: InflationCalc)
    requires calculator == InflationCalc(Date(2010, 4, 6), TestInflation)
    ensures Adjusted(calculator, Date(2007, 7, 3), 123.0)
      == 123.0 * (1.0 + 2.85267248150136 / 100.0 * 182.0 / 365.0) * (1.0 + 3.83910029665101 / 100.0)
        * (1.0 + -0.35554626629975 / 100.0) * (1.0 + 1.64004344238989 / 100.0 * 95.0 / 365.0)
  {
    TestRatesFrom2007();
    AdjustTest2007FirstStep(calculator);
    var after2007 := 123.0 * (1.0 + 2.85267248150136 / 100.0 * 182.0 / 365.0);
    FullYearCompounds(calculator, 2008, after2007);
    var after2008 := Compounded(after2007, 3.83910029665101);
    FullYearCompounds(calculator, 2009, after2008);
    var after2009 := Compounded(after2008, -0.35554626629975);
    LastYearProrated(calculator, Date(2010, 1, 1), after2009);
    DaysWithinYear(Date(2010, 1, 1), Date(2010, 4, 6));
  }

  /** The first step of the third unit test: 182 of 2020's 366 days. */
  lemma AdjustTest2020FirstStep(calculator: InflationCalc)
    requires calculator == InflationCalc(Date(2023, 10, 7), TestInflation)
    ensures Adjusted(calculator, Date(2020, 7, 3), 123.0)
      == Adjusted(calculator, Date(2021, 1, 1), 123.0 * (1.0 + 1.23358439630637 / 100.0 * 182.0 / 366.0))
  {
    TestRatesFrom2020();
    AdjustedStep(calculator, Date(2020, 7, 3), 123.0);
    assert PeriodEnd(calculator.today, Date(2020, 7, 3)) == Date(2021, 1, 1);
    DaysToNewYear(Date(2020, 7, 3));
    StepValue(calculator, Date(2020, 7, 3), Date(2021, 1, 1), 123.0, 1.23358439630637, 182, 366);
  }

  /** The third unit test: 182 of 2020's 366 days, and no data for 2023. */
  lemma AdjustTestFrom2020(calculator: InflationCalc)
    requires calculator == InflationCalc(Date(2023, 10, 7), TestInflation)
    ensures Adjusted(calculator, Date(2020, 7, 3), 123.0)
      == 123.0 * (1.0 + 1.23358439630637 / 100.0 * 182.0 / 366.0) * (1.0 + 4.69785886363739 / 100.0)
        * (1.0 + 8.00279982052117 / 100.0)
  {
    TestRatesFrom2020();
    AdjustTest2020FirstStep(calculator);
    var after2020 := 123.0 * (1.0 + 1.23358439630637 / 100.0 * 182.0 / 366.0);
    FullYearCompounds(calculator, 2021, after2020);
    var after2021 := Compounded(after2020, 4.69785886363739);
    FullYearCompounds(calculator, 2022, after2021);
    var after2022 := Compounded(after2021, 8.00279982052117);
    NoDataNoChange(calculator, Date(2023, 1, 1), after2022);
  }
}
