/**
 * Deposit interest rate statistics of the Bank of Russia (src/quotes/cbr/deposits.rs):
 * a series of monthly rates kept by year, and the month names of the statistics table.
 */
module CbrDeposits {
  import opened Wrappers
  import opened Texts

  const I32Min: int := -0x8000_0000
  const I32Max: int := 0x7FFF_FFFF

  /** The source's `i32` years. */
  newtype I32 = x: int | I32Min <= x <= I32Max

  /** Rates by year: the rate of month `m` of year `y` is `rates[y][m - 1]`. */
  type Rates = map<I32, seq<real>>

  // Error messages.

  function TwoDigits(n: nat): string
  {
    if n < 10 then "0" + Digits(n) else Digits(n)
  }

  /** The decimal text of an integer, with a leading `-` when it is negative. */
  function IntText(n: int): string
  {
    if n < 0 then "-" + Digits(-n) else Digits(n)
  }

  function HumanMonth(year: int, month: nat): string
  {
    IntText(year) + "." + TwoDigits(month)
  }

  function OutOfOrderError(year: int, month: nat, lastYear: int, lastMonths: nat): string
  {
    "Got " + HumanMonth(year, month) + " interest rates after " + HumanMonth(lastYear, lastMonths) + " interest rates"
  }

  function NoPreviousError(year: int, month: nat): string
  {
    "Got " + HumanMonth(year, month) + " interest rates having no interest rates for the previous months"
  }

  // `DepositStatistics::add`.

  /** `y` is the latest year with rates: the key `last_key_value` of the ordered map finds. */
  ghost predicate IsLastYear(rates: Rates, y: I32)
  {
    y in rates && forall k :: k in rates ==> k <= y
  }

  ghost predicate IsMax(years: set<I32>, y: I32)
  {
    y in years && forall k :: k in years ==> k <= y
  }

  lemma {:induction false} LastYearExists(years: set<I32>)
    requires years != {}
    ensures exists y :: IsMax(years, y)
    decreases years
  {
    var x :| x in years;
    if years != {x} {
      LastYearExists(years - {x});
      var y :| IsMax(years - {x}, y);
      var top := if x > y then x else y;
      forall k | k in years
        ensures k <= top
      {
        if k != x {
          assert k in years - {x};
        }
      }
      assert IsMax(years, top);
    } else {
      assert IsMax(years, x);
    }
  }

  ghost function LastYear(rates: Rates): (y: I32)
    requires rates != map[]
    ensures IsLastYear(rates, y)
  {
    LastYearExists(rates.Keys);
    var y :| IsMax(rates.Keys, y);
    y
  }

  lemma LastYearUnique(rates: Rates, y: I32)
    requires IsLastYear(rates, y)
    ensures LastYear(rates) == y
  {
  }

  /**
   * What `add` does with the rate of `year.month`: a known year takes the month after
   * its last one; a new year must follow the latest year, which must be complete, and
   * start in January; the first year must start in January.
   */
  ghost function AddSpec(rates: Rates, year: I32, month: nat, interest: real): Result<Rates>
  {
    if year in rates then
      if month != |rates[year]| + 1 then
        var lastYear := LastYear(rates);
        Err(OutOfOrderError(year as int, month, lastYear as int, |rates[lastYear]|))
      else
        Ok(rates[year := rates[year] + [interest]])
    else if rates != map[] then
      var lastYear := LastYear(rates);
      if year as int != lastYear as int + 1 || |rates[lastYear]| != 12 || month != 1 then
        Err(OutOfOrderError(year as int, month, lastYear as int, |rates[lastYear]|))
      else
        Ok(rates[year := [interest]])
    else if month != 1 then
      Err(NoPreviousError(year as int, month))
    else
      Ok(map[year := [interest]])
  }

  class DepositStatistics {
    const name: string
    const currency: string
    /** The deposit term in days. */
    const duration: nat
    var interestRates: Rates

    constructor (name: string, currency: string, duration: nat)
      ensures this.name == name && this.currency == currency && this.duration == duration
      ensures interestRates == map[]
    {
      this.name := name;
      this.currency := currency;
      this.duration := duration;
      interestRates := map[];
    }

    /** `last_key_value`: the latest year and its rates. */
    method LastKeyValue() returns (r: Option<(I32, seq<real>)>)
      ensures r.None? <==> interestRates == map[]
      ensures r.Some? ==> IsLastYear(interestRates, r.value.0) && r.value.1 == interestRates[r.value.0]
    {
      var pending := interestRates.Keys;
      if pending == {} {
        return None;
      }
      var last :| last in pending;
      while pending != {}
        invariant pending <= interestRates.Keys && last in interestRates
        invariant forall k :: k in interestRates && k !in pending ==> k <= last
        decreases pending
      {
        var year :| year in pending;
        if year > last {
          last := year;
        }
        pending := pending - {year};
      }
      r := Some((last, interestRates[last]));
    }

    method Add(year: I32, month: nat, interest: real) returns (r: Result<()>)
      modifies this
      ensures var expected := AddSpec(old(interestRates), year, month, interest);
        (r.Ok? <==> expected.Ok?)
        && (expected.Ok? ==> interestRates == expected.value)
        && (expected.Err? ==> r.error == expected.error && interestRates == old(interestRates))
    {
      if year in interestRates {
        var rates := interestRates[year];
        if month != |rates| + 1 {
          var last := LastKeyValue();
          LastYearUnique(interestRates, last.value.0);
          return Err(OutOfOrderError(year as int, month, last.value.0 as int, |last.value.1|));
        }
        interestRates := interestRates[year := rates + [interest]];
        return Ok(());
      }

      var last := LastKeyValue();
      if last.Some? {
        var (lastYear, lastRates) := last.value;
        LastYearUnique(interestRates, lastYear);
        if year as int != lastYear as int + 1 || |lastRates| != 12 || month != 1 {
          return Err(OutOfOrderError(year as int, month, lastYear as int, |lastRates|));
        }
      } else if month != 1 {
        return Err(NoPreviousError(year as int, month));
      }

      interestRates := interestRates[year := [interest]];
      r := Ok(());
    }
  }

  // The series the statistics hold.

  function YearsOf(months: nat): nat
  {
    (months + 11) / 12
  }

  /** A series of `months` months from January of `first` ends in a 32-bit year. */
  predicate Fits(first: I32, months: nat)
  {
    first as int + YearsOf(months) <= I32Max + 1
  }

  /** `y` is one of the `count` years from `first` on. */
  predicate InYears(first: I32, count: nat, y: I32)
  {
    first <= y && (y as int) < first as int + count
  }

  /** The rates of the `k`-th year of a series. */
  function YearRates(series: seq<real>, k: nat): seq<real>
    requires 12 * k <= |series|
  {
    series[12 * k .. if 12 * k + 12 <= |series| then 12 * k + 12 else |series|]
  }

  /**
   * A monthly series starting in January of `first`, split by year: every year but
   * the last has twelve rates.
   */
  function Layout(first: I32, series: seq<real>): Rates
    requires Fits(first, |series|)
  {
    map y: I32 | InYears(first, YearsOf(|series|), y) :: YearRates(series, y as int - first as int)
  }

  lemma LayoutAt(first: I32, series: seq<real>, y: I32)
    requires Fits(first, |series|) && first <= y && (y as int) < first as int + YearsOf(|series|)
    ensures y in Layout(first, series)
    ensures 12 * (y as int - first as int) <= |series|
    ensures Layout(first, series)[y] == YearRates(series, y as int - first as int)
  {
    assert InYears(first, YearsOf(|series|), y);
  }

  /** The month after the `months`-th month of a series starting in January of `first`. */
  function NextMonth(first: I32, months: nat): (int, nat)
  {
    (first as int + months / 12, months % 12 + 1)
  }

  lemma LayoutLastYear(first: I32, series: seq<real>)
    requires |series| > 0 && Fits(first, |series|)
    ensures var last := (first as int + (|series| - 1) / 12) as I32;
      IsLastYear(Layout(first, series), last)
      && |Layout(first, series)[last]| == (|series| - 1) % 12 + 1
  {
    var n := |series|;
    var q := (n - 1) / 12;
    assert n - 1 == 12 * q + (n - 1) % 12;
    assert YearsOf(n) == q + 1;
  }

  lemma LayoutYear(first: I32, series: seq<real>, y: I32)
    requires Fits(first, |series|)
    requires y in Layout(first, series) && (y as int) < first as int + (|series| - 1) / 12
    ensures |Layout(first, series)[y]| == 12
  {
  }

  lemma RatesEqual(a: Rates, b: Rates)
    requires a.Keys == b.Keys && forall y :: y in a ==> a[y] == b[y]
    ensures a == b
  {
  }

  /** One more month changes only the rates of the year it falls in. */
  lemma YearRatesAppend(series: seq<real>, interest: real, k: nat)
    requires 12 * k <= |series|
    ensures YearRates(series + [interest], k)
      == if 12 * k + 12 <= |series| then YearRates(series, k) else YearRates(series, k) + [interest]
  {
    var from := 12 * k;
    if from + 12 <= |series| {
      assert series[from..from + 12] == (series + [interest])[from..from + 12];
    } else {
      assert series[from..] + [interest] == (series + [interest])[from..];
    }
  }

  lemma AppendedRates(after: seq<real>, afterRates: seq<real>, before: seq<real>, beforeRates: seq<real>, interest: real)
    requires after == afterRates && before == beforeRates && afterRates == beforeRates + [interest]
    ensures after == before + [interest]
  {
  }

  /** The rates of year `y` once a month within the last year is appended. */
  lemma WithinYearAt(first: I32, series: seq<real>, interest: real, y: I32)
    requires |series| % 12 != 0 && Fits(first, |series| + 1)
    requires y in Layout(first, series + [interest])
    ensures y in Layout(first, series)
    ensures y == (first as int + |series| / 12) as I32 ==>
      Layout(first, series + [interest])[y] == Layout(first, series)[y] + [interest]
    ensures y != (first as int + |series| / 12) as I32 ==>
      Layout(first, series + [interest])[y] == Layout(first, series)[y]
  {
    var n := |series|;
    var q := n / 12;
    assert n == 12 * q + n % 12;
    assert YearsOf(n) == q + 1 && YearsOf(n + 1) == q + 1;
    var k := y as int - first as int;
    assert 0 <= k <= q;
    assert (12 * k + 12 <= n) == (k < q);
    LayoutAt(first, series, y);
    LayoutAt(first, series + [interest], y);
    YearRatesAppend(series, interest, k);
    var last := (first as int + q) as I32;
    if k < q {
      assert y != last;
      assert YearRates(series + [interest], k) == YearRates(series, k);
    } else {
      assert y == last;
      AppendedRates(Layout(first, series + [interest])[y], YearRates(series + [interest], k),
        Layout(first, series)[y], YearRates(series, k), interest);
    }
  }

  /** The rates of year `y` once a January after a complete year is appended. */
  lemma NewYearAt(first: I32, series: seq<real>, interest: real, y: I32)
    requires |series| % 12 == 0 && Fits(first, |series| + 1)
    requires y in Layout(first, series + [interest])
    ensures var year := (first as int + |series| / 12) as I32;
      if y == year then Layout(first, series + [interest])[y] == [interest]
      else y in Layout(first, series) && Layout(first, series + [interest])[y] == Layout(first, series)[y]
  {
    var n := |series|;
    var q := n / 12;
    assert n == 12 * q;
    assert YearsOf(n) == q && YearsOf(n + 1) == q + 1;
    var k := y as int - first as int;
    assert 0 <= k <= q;
    assert (12 * k + 12 <= n) == (k < q);
    LayoutAt(first, series + [interest], y);
    YearRatesAppend(series, interest, k);
    if k < q {
      LayoutAt(first, series, y);
    } else {
      assert YearRates(series, k) == [];
    }
  }

  /** Appending a month adds at most the year it falls in to the years of a series. */
  lemma LayoutKeysAppend(first: I32, series: seq<real>, interest: real)
    requires Fits(first, |series| + 1)
    ensures Layout(first, series + [interest]).Keys
      == Layout(first, series).Keys + {(first as int + |series| / 12) as I32}
  {
    var n := |series|;
    var q := n / 12;
    assert n == 12 * q + n % 12;
    var top := (first as int + q) as I32;
    if n % 12 == 0 {
      assert YearsOf(n) == q && YearsOf(n + 1) == q + 1;
    } else {
      assert YearsOf(n) == q + 1 && YearsOf(n + 1) == q + 1;
    }
  }

  lemma UpdateEqual(m: Rates, after: Rates, key: I32, value: seq<real>)
    requires after.Keys == m.Keys + {key}
    requires key in after && after[key] == value
    requires forall y :: y in m && y != key ==> after[y] == m[y]
    ensures m[key := value] == after
  {
    RatesEqual(m[key := value], after);
  }

  /** Appending a month within the last year extends that year's rates. */
  lemma {:induction false} AppendWithinYear(first: I32, series: seq<real>, interest: real)
    requires |series| > 0 && |series| % 12 != 0 && Fits(first, |series|)
    ensures Fits(first, |series| + 1)
    ensures var m := Layout(first, series);
      var last := (first as int + (|series| - 1) / 12) as I32;
      last in m && m[last := m[last] + [interest]] == Layout(first, series + [interest])
  {
    assert |series| / 12 == (|series| - 1) / 12;
    assert YearsOf(|series| + 1) == YearsOf(|series|);
    var m := Layout(first, series);
    var last := (first as int + |series| / 12) as I32;
    var after := Layout(first, series + [interest]);
    LayoutKeysAppend(first, series, interest);
    WithinYearAt(first, series, interest, last);
    forall y | y in m && y != last
      ensures after[y] == m[y]
    {
      WithinYearAt(first, series, interest, y);
    }
    UpdateEqual(m, after, last, m[last] + [interest]);
  }

  /** Appending a January after a complete year opens the next year. */
  lemma {:induction false} AppendNewYear(first: I32, series: seq<real>, interest: real)
    requires |series| % 12 == 0 && Fits(first, |series| + 1)
    ensures var m := Layout(first, series);
      m[(first as int + |series| / 12) as I32 := [interest]] == Layout(first, series + [interest])
  {
    var m := Layout(first, series);
    var year := (first as int + |series| / 12) as I32;
    var after := Layout(first, series + [interest]);
    LayoutKeysAppend(first, series, interest);
    NewYearAt(first, series, interest, year);
    forall y | y in m && y != year
      ensures after[y] == m[y]
    {
      NewYearAt(first, series, interest, y);
    }
    UpdateEqual(m, after, year, [interest]);
  }

  /** The first rate of empty statistics opens a series, in January only. */
  lemma AddToEmpty(first: I32, year: I32, month: nat, interest: real)
    requires 1 <= month <= 12
    ensures Fits(year, 1)
    ensures var r := AddSpec(Layout(first, []), year, month, interest);
      (r.Ok? <==> month == 1) && (r.Ok? ==> r.value == Layout(year, [interest]))
  {
    var m := Layout(first, []);
    assert m.Keys == {};
    assert m == map[];
    var single := Layout(year, [interest]);
    assert single.Keys == {year};
    assert single[year] == [interest];
    RatesEqual(single, map[year := [interest]]);
  }

  /** A rate for a year the series already has is accepted only as its next month. */
  lemma AddToKnownYear(first: I32, series: seq<real>, year: I32, month: nat, interest: real)
    requires 1 <= month <= 12 && |series| > 0 && Fits(first, |series| + 1)
    requires year in Layout(first, series)
    ensures var r := AddSpec(Layout(first, series), year, month, interest);
      (r.Ok? <==> (year as int, month) == NextMonth(first, |series|))
      && (r.Ok? ==> r.value == Layout(first, series + [interest]))
  {
    var n := |series|;
    var m := Layout(first, series);
    var last := (first as int + (n - 1) / 12) as I32;
    LayoutLastYear(first, series);
    var r := AddSpec(m, year, month, interest);
    if year < last {
      LayoutYear(first, series, year);
      assert r.Err?;
      assert n / 12 >= (n - 1) / 12;
      assert NextMonth(first, n).0 > year as int;
    } else if n % 12 != 0 {
      assert year == last;
      assert n / 12 == (n - 1) / 12 && n % 12 == (n - 1) % 12 + 1;
      assert r.Ok? <==> month == n % 12 + 1;
      AppendWithinYear(first, series, interest);
    } else {
      assert year == last;
      assert r.Err?;
      assert (n - 1) % 12 == 11 && n / 12 == (n - 1) / 12 + 1;
    }
  }

  /** A rate for a year the series does not have is accepted only as the January after a complete year. */
  lemma AddToNewYear(first: I32, series: seq<real>, year: I32, month: nat, interest: real)
    requires 1 <= month <= 12 && |series| > 0 && Fits(first, |series| + 1)
    requires year !in Layout(first, series)
    ensures var r := AddSpec(Layout(first, series), year, month, interest);
      (r.Ok? <==> (year as int, month) == NextMonth(first, |series|))
      && (r.Ok? ==> r.value == Layout(first, series + [interest]))
  {
    var n := |series|;
    var m := Layout(first, series);
    var last := (first as int + (n - 1) / 12) as I32;
    LayoutLastYear(first, series);
    LastYearUnique(m, last);
    if n % 12 != 0 {
      assert n / 12 == (n - 1) / 12;
    } else {
      assert (n - 1) % 12 == 11 && n / 12 == (n - 1) / 12 + 1;
      AppendNewYear(first, series, interest);
    }
  }

  /**
   * The statistics always hold one series of consecutive months from a January: `add`
   * accepts exactly the month after the last one (January when there is none) and
   * appends the rate to the series.
   */
  lemma AddExtendsSeries(first: I32, series: seq<real>, year: I32, month: nat, interest: real)
    requires 1 <= month <= 12 && Fits(first, |series| + 1)
    ensures Fits(year, 1)
    ensures var r := AddSpec(Layout(first, series), year, month, interest);
      (r.Ok? <==> if |series| == 0 then month == 1 else (year as int, month) == NextMonth(first, |series|))
      && (r.Ok? ==> r.value == Layout(if |series| == 0 then year else first, series + [interest]))
  {
    if |series| == 0 {
      AddToEmpty(first, year, month, interest);
      assert series + [interest] == [interest];
    } else if year in Layout(first, series) {
      AddToKnownYear(first, series, year, month, interest);
    } else {
      AddToNewYear(first, series, year, month, interest);
    }
  }

  // `parse_date`.

  /**
   * `str::parse::<i32>`: an optional sign and at least one decimal digit, within the
   * 32-bit range.
   */
  function ParseI32(s: string): (r: Option<I32>)
  {
    var negative := |s| > 0 && s[0] == '-';
    var digits := if |s| > 0 && (s[0] == '-' || s[0] == '+') then s[1..] else s;
    if |digits| == 0 || !AllDigits(digits) then None
    else
      var value: int := if negative then -(DigitsValue(digits) as int) else DigitsValue(digits);
      if I32Min <= value <= I32Max then Some(value as I32) else None
  }

  lemma ParseIntText(n: I32)
    ensures ParseI32(IntText(n as int)) == Some(n)
  {
    if n < 0 {
      DigitsRoundTrip(-(n as int));
      assert IntText(n as int)[1..] == Digits(-(n as int));
    } else {
      DigitsRoundTrip(n as int);
    }
  }

  /** The month names of the statistics table, January first. */
  const MonthNames: seq<string> := ["Январь", "Февраль", "Март", "Апрель", "Май", "Июнь",
                                    "Июль", "Август", "Сентябрь", "Октябрь", "Ноябрь", "Декабрь"]

  function MonthNumber(name: string): (r: Option<nat>)
    ensures r.Some? ==> 1 <= r.value <= 12 && MonthNames[r.value - 1] == name
    ensures r.None? ==> name !in MonthNames
  {
    match name
    case "Январь" => Some(1)
    case "Февраль" => Some(2)
    case "Март" => Some(3)
    case "Апрель" => Some(4)
    case "Май" => Some(5)
    case "Июнь" => Some(6)
    case "Июль" => Some(7)
    case "Август" => Some(8)
    case "Сентябрь" => Some(9)
    case "Октябрь" => Some(10)
    case "Ноябрь" => Some(11)
    case "Декабрь" => Some(12)
    case _ => None
  }

  /**
   * `parse_date`: "<month name> <year>", split on single spaces into exactly two
   * pieces; anything else is `None`.
   */
  function ParseDate(name: string): (r: Option<(I32, nat)>)
    ensures r.Some? ==> 1 <= r.value.1 <= 12
  {
    var parts := Split(name, ' ');
    if |parts| != 2 then None
    else
      match ParseI32(parts[1])
      case None => None
      case Some(year) =>
        match MonthNumber(parts[0])
        case None => None
        case Some(month) => Some((year, month))
  }

  lemma MonthNumberOfName(month: nat)
    requires 1 <= month <= 12
    ensures MonthNumber(MonthNames[month - 1]) == Some(month)
  {
    if month <= 6 {
      if month == 1 {} else if month == 2 {} else if month == 3 {} else if month == 4 {} else if month == 5 {} else {}
    } else {
      if month == 7 {} else if month == 8 {} else if month == 9 {} else if month == 10 {} else if month == 11 {} else {}
    }
  }

  lemma MonthNamesHaveNoSpace(month: nat)
    requires 1 <= month <= 12
    ensures NoChar(MonthNames[month - 1], ' ')
  {
  }

  lemma IntTextHasNoSpace(n: int)
    ensures NoChar(IntText(n), ' ')
  {
    var digits := Digits(if n < 0 then -n else n);
    assert forall i :: 0 <= i < |digits| ==> IsDigit(digits[i]);
  }

  /** Every month of every 32-bit year is read back from its name in the table. */
  lemma ParseDateRoundTrip(year: I32, month: nat)
    requires 1 <= month <= 12
    ensures ParseDate(MonthNames[month - 1] + " " + IntText(year as int)) == Some((year, month))
  {
    MonthNamesHaveNoSpace(month);
    IntTextHasNoSpace(year as int);
    SplitTwo(MonthNames[month - 1], IntText(year as int), ' ');
    ParseIntText(year);
    MonthNumberOfName(month);
  }

  /** Only a month name, one space and a year are accepted. */
  lemma ParseDateAccepts(name: string)
    requires ParseDate(name).Some?
    ensures var (year, month) := ParseDate(name).value;
      exists yearText :: name == MonthNames[month - 1] + " " + yearText && ParseI32(yearText) == Some(year)
  {
    var parts := Split(name, ' ');
    SplitJoin(name, ' ');
    assert Join(parts, ' ') == parts[0] + " " + parts[1];
    var month := MonthNumber(parts[0]).value;
    assert MonthNames[month - 1] == parts[0];
    assert name == MonthNames[month - 1] + " " + parts[1];
  }
}
