/**
 * Parsing of the dates and durations a user writes in the configuration
 * (src/time/parsing.rs).
 */
module TimeParsing {
  import opened Wrappers
  import opened Dates
  import opened Texts

  /** `i64::MAX`: the largest number `str::parse::<i64>` reads. */
  const I64Max: nat := 0x7FFF_FFFF_FFFF_FFFF

  // `parse_duration`.

  predicate IsUnit(c: char)
  {
    c == 'm' || c == 'h' || c == 'd'
  }

  /** The seconds of a minute, an hour and a day. */
  function UnitSeconds(unit: char): nat
    requires IsUnit(unit)
  {
    match unit
    case 'm' => 60
    case 'h' => 60 * 60
    case 'd' => 60 * 60 * 24
  }

  /** `^[1-9]\d*[mhd]$`: a number without a leading zero, then a unit. */
  predicate DurationText(s: string)
  {
    |s| >= 2 && '1' <= s[0] <= '9' && AllDigits(s[..|s| - 1]) && IsUnit(s[|s| - 1])
  }

  /**
   * `parse_duration`: the number of seconds a duration text stands for; a text that
   * does not match, or whose number does not fit in an `i64`, is an error.
   */
  function ParseDuration(s: string): (r: Result<int>)
    ensures r.Ok? <==> DurationText(s) && DigitsValue(s[..|s| - 1]) <= I64Max
    ensures r.Err? ==> r.error == "Invalid duration: " + s
  {
    if !DurationText(s) then Err("Invalid duration: " + s)
    else
      var number := DigitsValue(s[..|s| - 1]);
      if number > I64Max then Err("Invalid duration: " + s)
      else Ok(number * UnitSeconds(s[|s| - 1]))
  }

  /** Appending a digit to a number's decimal form. */
  lemma AppendDigit(a: nat, c: char)
    requires a > 0 && IsDigit(c)
    ensures Digits(a * 10 + (c as int - '0' as int)) == Digits(a) + [c]
  {
    var d := c as int - '0' as int;
    var n := a * 10 + d;
    assert n / 10 == a && n % 10 == d;
    assert ['0' + ((n % 10) as char)] == [c];
  }

  /** A text of digits without a leading zero is the decimal form of its value. */
  lemma {:induction false} DigitsOfValue(s: string)
    requires |s| > 0 && AllDigits(s) && s[0] != '0'
    ensures DigitsValue(s) > 0 && Digits(DigitsValue(s)) == s
    decreases |s|
  {
    var last := s[|s| - 1];
    if |s| == 1 {
      assert DigitsValue(s) == DigitsValue([]) * 10 + (last as int - '0' as int);
      assert ['0' + ((DigitsValue(s) % 10) as char)] == s;
    } else {
      var front := s[..|s| - 1];
      DigitsOfValue(front);
      AppendDigit(DigitsValue(front), last);
      assert s == front + [last];
    }
  }

  /** Every positive number with a unit reads back as that many minutes, hours or days. */
  lemma DurationRoundTrip(n: nat, unit: char)
    requires 1 <= n <= I64Max && IsUnit(unit)
    ensures ParseDuration(Digits(n) + [unit]) == Ok(n * UnitSeconds(unit))
  {
    var s := Digits(n) + [unit];
    assert s[..|s| - 1] == Digits(n);
    DigitsRoundTrip(n);
  }

  /** Only the decimal form of a positive number followed by a unit is accepted. */
  lemma DurationAccepts(s: string)
    requires ParseDuration(s).Ok?
    ensures exists n: nat, unit: char ::
      1 <= n && IsUnit(unit) && s == Digits(n) + [unit] && ParseDuration(s).value == n * UnitSeconds(unit)
  {
    var digits := s[..|s| - 1];
    DigitsOfValue(digits);
    assert s == digits + [s[|s| - 1]];
  }

  /** A zero, a leading zero, a unit other than m, h or d, or a missing number is refused. */
  lemma DurationRejects()
    ensures ParseDuration("0m").Err? && ParseDuration("05m").Err?
    ensures ParseDuration("5s").Err? && ParseDuration("m").Err? && ParseDuration("").Err?
  {
  }

  // `parse_user_date`.

  /** The two formats a user date may take: "%Y.%m.%d" and "%d.%m.%Y". */
  datatype DateFormat = YearMonthDay | DayMonthYear

  /** A number field of chrono's reader: one to `width` decimal digits. */
  function ReadField(text: string, width: nat): (r: Option<nat>)
    ensures r.Some? <==> 1 <= |text| <= width && AllDigits(text)
    ensures r.Some? ==> r.value == DigitsValue(text)
  {
    if 1 <= |text| <= width && AllDigits(text) then Some(DigitsValue(text)) else None
  }

  function InvalidDate(s: string): string
  {
    "Invalid date: \"" + s + "\""
  }

  /**
   * `parse_date(date, format)`: three dot-separated numbers, the year of at most four
   * digits and the month and the day of at most two, that name a day of the calendar.
   */
  function ParseDate(s: string, format: DateFormat): (r: Result<NaiveDate>)
    ensures r.Err? ==> r.error == InvalidDate(s)
  {
    var parts := Split(s, '.');
    if |parts| != 3 then Err(InvalidDate(s))
    else
      var (yearText, dayText) := if format == YearMonthDay then (parts[0], parts[2]) else (parts[2], parts[0]);
      var year, month, day := ReadField(yearText, 4), ReadField(parts[1], 2), ReadField(dayText, 2);
      if year.None? || month.None? || day.None? then Err(InvalidDate(s))
      else
        match FromYmd(year.value, month.value, day.value)
        case Some(date) => Ok(date)
        case None => Err(InvalidDate(s))
  }

  /** `parse_user_date`: the year-first format, and the day-first one when that fails. */
  function ParseUserDate(s: string): (r: Result<NaiveDate>)
    ensures r.Ok? <==> ParseDate(s, YearMonthDay).Ok? || ParseDate(s, DayMonthYear).Ok?
    ensures ParseDate(s, YearMonthDay).Ok? ==> r == ParseDate(s, YearMonthDay)
    ensures r.Err? ==> r.error == InvalidDate(s)
  {
    match ParseDate(s, YearMonthDay)
    case Ok(date) => Ok(date)
    case Err(_) => ParseDate(s, DayMonthYear)
  }

  /** Two digits, with a leading zero below ten. */
  function TwoDigits(n: nat): (s: string)
    requires n < 100
    ensures |s| == 2 && AllDigits(s) && DigitsValue(s) == n
  {
    DigitsRoundTrip(n);
    if n < 10 then
      var s := "0" + Digits(n);
      assert s[..1] == "0";
      s
    else
      assert Digits(n) == Digits(n / 10) + [Digits(n)[1]];
      Digits(n)
  }

  lemma FourDigits(n: nat)
    requires 1000 <= n <= 9999
    ensures |Digits(n)| == 4
  {
    assert |Digits(n / 1000)| == 1;
    assert |Digits(n / 100)| == 2;
    assert |Digits(n / 10)| == 3;
  }

  /** "%Y.%m.%d" of a date of a four-digit year. */
  function FormatYearFirst(date: NaiveDate): string
    requires 1000 <= date.year <= 9999
  {
    Digits(date.year) + "." + TwoDigits(date.month) + "." + TwoDigits(date.day)
  }

  /** "%d.%m.%Y" of a date of a four-digit year. */
  function FormatDayFirst(date: NaiveDate): string
    requires 1000 <= date.year <= 9999
  {
    TwoDigits(date.day) + "." + TwoDigits(date.month) + "." + Digits(date.year)
  }

  /** Three pieces without dots split back into themselves. */
  lemma SplitThree(a: string, b: string, c: string)
    requires NoChar(a, '.') && NoChar(b, '.') && NoChar(c, '.')
    ensures Split(a + "." + b + "." + c, '.') == [a, b, c]
  {
    var s := a + "." + b + "." + c;
    assert forall i :: 0 <= i < |a| ==> s[i] == a[i];
    assert s[|a|] == '.';
    assert Find(s, '.') == Some(|a|);
    assert s[..|a|] == a;
    assert s[|a| + 1..] == b + "." + c;
    SplitTwo(b, c, '.');
  }

  /** A date written year first reads back. */
  lemma YearFirstRoundTrip(date: NaiveDate)
    requires 1000 <= date.year <= 9999
    ensures ParseUserDate(FormatYearFirst(date)) == Ok(date)
  {
    var y, m, d := Digits(date.year), TwoDigits(date.month), TwoDigits(date.day);
    FourDigits(date.year);
    DigitsRoundTrip(date.year);
    assert NoChar(y, '.') && NoChar(m, '.') && NoChar(d, '.');
    SplitThree(y, m, d);
  }

  /** A date written day first fails the year-first format, its last field being too long for a day, and reads back. */
  lemma DayFirstRoundTrip(date: NaiveDate)
    requires 1000 <= date.year <= 9999
    ensures ParseDate(FormatDayFirst(date), YearMonthDay).Err?
    ensures ParseUserDate(FormatDayFirst(date)) == Ok(date)
  {
    var y, m, d := Digits(date.year), TwoDigits(date.month), TwoDigits(date.day);
    FourDigits(date.year);
    DigitsRoundTrip(date.year);
    assert NoChar(y, '.') && NoChar(m, '.') && NoChar(d, '.');
    SplitThree(d, m, y);
  }
}
