/**
 * When the tax on an income is paid (src/taxes/payment_day.rs): either on a fixed
 * day of the year after the tax year, or on the day the account is closed.
 */
module PaymentDays {
  import opened Wrappers
  import opened Dates
  import opened Jurisdictions
  import opened Texts

  /** `u32::MAX + 1`: the day and the month are parsed as unsigned 32-bit numbers. */
  const U32Limit: int := 0x1_0000_0000

  datatype TaxPaymentDaySpec = Day(month: nat, day: nat) | OnClose(closeDate: NaiveDate)

  datatype TaxPaymentDay = TaxPaymentDay(jurisdiction: Jurisdiction, spec: TaxPaymentDaySpec)

  /** `TaxPaymentDaySpec::default`: 15 March. */
  function DefaultSpec(): TaxPaymentDaySpec
  {
    Day(3, 15)
  }

  /** A day spec names a real day of every year: 29 February is refused. */
  predicate ValidDaySpec(month: int, day: int)
  {
    1 <= month <= 12 && 1 <= day <= DaysInMonth(2001, month)
  }

  lemma ValidDaySpecEveryYear(month: int, day: int, year: int)
    requires ValidDaySpec(month, day)
    ensures Date(year, month, day).Valid()
  {
  }

  /** A spec the payment day can work with: a valid day, or any close date. */
  predicate ValidSpec(spec: TaxPaymentDaySpec)
  {
    spec.Day? ==> ValidDaySpec(spec.month, spec.day)
  }

  /**
   * `TaxPaymentDay::get_for`: the day the tax for `taxYear` is paid. Trading income
   * under Russian jurisdiction is paid on 1 January; with an account close date,
   * trading income is paid on closing and the rest on the default day.
   */
  function GetFor(p: TaxPaymentDay, taxYear: int, trading: bool): (r: NaiveDate)
    requires ValidSpec(p.spec)
    requires p.spec.OnClose? ==> taxYear <= p.spec.closeDate.year
    ensures p.spec.Day? && trading && p.jurisdiction == Russia ==> r == Date(taxYear + 1, 1, 1)
    ensures p.spec.Day? && !(trading && p.jurisdiction == Russia) ==> r == Date(taxYear + 1, p.spec.month, p.spec.day)
    ensures p.spec.OnClose? && trading ==> r == p.spec.closeDate
    ensures p.spec.OnClose? && !trading ==> r == Date(taxYear + 1, 3, 15)
    decreases p.spec.OnClose?
  {
    match p.spec
    case Day(month, day) =>
      if trading && p.jurisdiction == Russia then
        Date(taxYear + 1, 1, 1)
      else
        ValidDaySpecEveryYear(month, day, taxYear + 1);
        Date(taxYear + 1, month, day)
    case OnClose(closeDate) =>
      if trading then closeDate else GetFor(TaxPaymentDay(p.jurisdiction, DefaultSpec()), taxYear, trading)
  }

  /**
   * `TaxPaymentDay::get`: the tax year of an income and the day its tax is paid.
   * Trading income on an account to be closed belongs to the year of closing.
   */
  function Get(p: TaxPaymentDay, incomeDate: NaiveDate, trading: bool): (r: (int, NaiveDate))
    requires ValidSpec(p.spec)
    requires p.spec.OnClose? ==> LessEq(incomeDate, p.spec.closeDate)
    ensures r.0 == (if p.spec.OnClose? && trading then p.spec.closeDate.year else incomeDate.year)
    ensures p.spec.OnClose? ==> r.0 <= p.spec.closeDate.year
    ensures r.1 == GetFor(p, r.0, trading)
  {
    var taxYear := match p.spec
      case Day(_, _) => incomeDate.year
      case OnClose(closeDate) => if trading then closeDate.year else incomeDate.year;
    (taxYear, GetFor(p, taxYear, trading))
  }

  /** The tax is never due before the income it is paid on. */
  lemma {:induction false} PaymentNotBeforeIncome(p: TaxPaymentDay, incomeDate: NaiveDate, trading: bool)
    requires ValidSpec(p.spec)
    requires p.spec.OnClose? ==> LessEq(incomeDate, p.spec.closeDate)
    ensures LessEq(incomeDate, Get(p, incomeDate, trading).1)
    ensures p.spec.Day? ==> Less(incomeDate, Get(p, incomeDate, trading).1)
  {
  }

  // Parsing of the configuration value: "on-close" or "<day>.<month>".

  /** `str::parse::<u32>` of a string of digits: fails above `u32::MAX`. */
  function ParseU32(s: string): (r: Option<nat>)
    requires AllDigits(s)
    ensures r.Some? <==> DigitsValue(s) < U32Limit
    ensures r.Some? ==> r.value == DigitsValue(s)
  {
    var n := DigitsValue(s);
    if n < U32Limit then Some(n) else None
  }

  /**
   * `TaxPaymentDaySpec::deserialize`: "on-close" closes on `closeDate` (the nearest
   * possible account close date); otherwise the value must be `<day>.<month>` in
   * decimal digits, naming a day of the current year `todayYear` other than 29 February.
   */
  function ParseSpec(value: string, todayYear: int, closeDate: NaiveDate): (r: Result<TaxPaymentDaySpec>)
    ensures r.Ok? ==> ValidSpec(r.value)
    ensures value == "on-close" ==> r == Ok(OnClose(closeDate))
  {
    if value == "on-close" then Ok(OnClose(closeDate))
    else
      var invalid := Err("Invalid tax payment day");
      match Find(value, '.')
      case None => invalid
      case Some(i) =>
        var dayText, monthText := value[..i], value[i + 1..];
        if |dayText| == 0 || |monthText| == 0 || !AllDigits(dayText) || !AllDigits(monthText) then invalid
        else
          match (ParseU32(dayText), ParseU32(monthText))
          case (Some(day), Some(month)) =>
            if FromYmd(todayYear, month, day).None? || (day, month) == (29, 2) then invalid
            else Ok(Day(month, day))
          case _ => invalid
  }

  /** Refusing 29 February makes the answer the same whatever the current year is. */
  lemma {:induction false} ParseSpecIndependentOfYear(value: string, year1: int, year2: int, closeDate: NaiveDate)
    ensures ParseSpec(value, year1, closeDate) == ParseSpec(value, year2, closeDate)
  {
    if value != "on-close" {
      match Find(value, '.')
      case None =>
      case Some(i) =>
        var dayText, monthText := value[..i], value[i + 1..];
        if |dayText| > 0 && |monthText| > 0 && AllDigits(dayText) && AllDigits(monthText) {
          var day, month := DigitsValue(dayText), DigitsValue(monthText);
          assert (Date(year1, month, day).Valid() && (day, month) != (29, 2))
            == (Date(year2, month, day).Valid() && (day, month) != (29, 2));
        }
    }
  }

  /** The textual form of a day spec, as written in the configuration. */
  function FormatDay(month: nat, day: nat): string
  {
    Digits(day) + "." + Digits(month)
  }

  /** Every valid day spec parses back from its textual form. */
  lemma {:induction false} ParseFormatRoundTrip(month: nat, day: nat, todayYear: int, closeDate: NaiveDate)
    requires ValidDaySpec(month, day)
    ensures ParseSpec(FormatDay(month, day), todayYear, closeDate) == Ok(Day(month, day))
  {
    var d, m := Digits(day), Digits(month);
    var s := FormatDay(month, day);
    assert s[|d|] == '.';
    assert forall k :: 0 <= k < |d| ==> s[k] == d[k];
    assert Find(s, '.') == Some(|d|);
    assert s[..|d|] == d;
    assert s[|d| + 1..] == m;
    DigitsRoundTrip(day);
    DigitsRoundTrip(month);
    assert s != "on-close" by {
      assert s[|d|] == '.';
    }
  }

  /** 29 February is refused even in a leap year. */
  lemma ParseRejectsLeapDay(closeDate: NaiveDate)
    ensures ParseSpec("29.2", 2024, closeDate).Err?
  {
    assert Find("29.2", '.') == Some(2);
    assert "29.2"[..2] == "29" && "29.2"[3..] == "2";
    assert DigitsValue("29") == 29 && DigitsValue("2") == 2;
  }

  /** 31 April does not exist. */
  lemma ParseRejectsMissingDay(closeDate: NaiveDate)
    ensures ParseSpec("31.4", 2024, closeDate).Err?
  {
    assert Find("31.4", '.') == Some(2);
    assert "31.4"[..2] == "31" && "31.4"[3..] == "4";
    assert DigitsValue("31") == 31 && DigitsValue("4") == 4;
  }

  /** "15.03" is 15 March; a leading zero is accepted. */
  lemma ParseAcceptsDay(closeDate: NaiveDate)
    ensures ParseSpec("15.03", 2023, closeDate) == Ok(Day(3, 15))
  {
    assert Find("15.03", '.') == Some(2);
    assert "15.03"[..2] == "15" && "15.03"[3..] == "03";
    assert AllDigits("15") && AllDigits("03");
    assert "15"[..1] == "1" && "03"[..1] == "0";
    assert DigitsValue("1") == 1 && DigitsValue("0") == 0;
    assert DigitsValue("15") == 15 && DigitsValue("03") == 3;
    assert ParseU32("15") == Some(15) && ParseU32("03") == Some(3);
    assert Date(2023, 3, 15).Valid();
  }

  /** A day without a month is rejected. */
  lemma ParseRejectsNoMonth(closeDate: NaiveDate)
    ensures ParseSpec("15.", 2023, closeDate).Err?
  {
    assert Find("15.", '.') == Some(2);
  }
}
