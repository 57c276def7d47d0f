/** Whole years of ownership for the long-term ownership exemption (src/taxes/long_term_ownership.rs). */
module LongTermOwnership {
  import opened Dates

  /**
   * `calculate_ownership_years`: the difference of the years, less one when the
   * sell day falls before the buy day within the year. Selling on the last day of
   * the month counts as reaching the day, so 29 February is reached on 28 February.
   */
  function OwnershipYears(buyDate: NaiveDate, sellDate: NaiveDate): (years: int)
    requires LessEq(buyDate, sellDate)
    ensures 0 <= years <= sellDate.year - buyDate.year
  {
    var years := sellDate.year - buyDate.year;
    if sellDate.month < buyDate.month then years - 1
    else if sellDate.month == buyDate.month
      && sellDate.day < buyDate.day && Succ(sellDate).month == sellDate.month then years - 1
    else years
  }

  /**
   * The `n`-th anniversary of a purchase: the same month and day `n` years later,
   * moved back to the last day of a month that is too short.
   */
  function Anniversary(buyDate: NaiveDate, n: int): (r: NaiveDate)
    ensures r.year == buyDate.year + n && r.month == buyDate.month
  {
    var year := buyDate.year + n;
    var last := DaysInMonth(year, buyDate.month);
    Date(year, buyDate.month, if buyDate.day <= last then buyDate.day else last)
  }

  /** The years counted are exactly the anniversaries reached by the sell date. */
  lemma {:induction false} OwnershipYearsCountsAnniversaries(buyDate: NaiveDate, sellDate: NaiveDate)
    requires LessEq(buyDate, sellDate)
    ensures OwnershipYears(buyDate, sellDate) >= 0
    ensures LessEq(Anniversary(buyDate, OwnershipYears(buyDate, sellDate)), sellDate)
    ensures Less(sellDate, Anniversary(buyDate, OwnershipYears(buyDate, sellDate) + 1))
  {
    var years := OwnershipYears(buyDate, sellDate);
    var a := Anniversary(buyDate, years);
    var b := Anniversary(buyDate, years + 1);
    if sellDate.month == buyDate.month {
      if sellDate.day < buyDate.day && Succ(sellDate).month == sellDate.month {
        assert sellDate.day < DaysInMonth(sellDate.year, sellDate.month);
      } else if sellDate.day < buyDate.day {
        assert sellDate.day == DaysInMonth(sellDate.year, sellDate.month);
      }
    }
  }

  /** Anniversaries come one after another. */
  lemma AnniversariesIncrease(buyDate: NaiveDate, m: int, n: int)
    requires m < n
    ensures Less(Anniversary(buyDate, m), Anniversary(buyDate, n))
  {
  }

  /** The count is the only one that fits between two anniversaries. */
  lemma {:induction false} OwnershipYearsUnique(buyDate: NaiveDate, sellDate: NaiveDate, n: int)
    requires LessEq(buyDate, sellDate)
    requires LessEq(Anniversary(buyDate, n), sellDate) && Less(sellDate, Anniversary(buyDate, n + 1))
    ensures OwnershipYears(buyDate, sellDate) == n
  {
    var years := OwnershipYears(buyDate, sellDate);
    OwnershipYearsCountsAnniversaries(buyDate, sellDate);
    if years < n {
      AnniversariesIncrease(buyDate, years + 1, n);
    } else if years > n {
      AnniversariesIncrease(buyDate, n + 1, years);
    }
  }

  /** The cases of the unit tests, including purchases on 29 February. */
  lemma OwnershipYearsTestValues()
    ensures OwnershipYears(Date(2014, 3, 19), Date(2014, 3, 19)) == 0
    ensures OwnershipYears(Date(2014, 3, 19), Date(2015, 3, 19)) == 1
    ensures OwnershipYears(Date(2014, 3, 19), Date(2016, 3, 19)) == 2
    ensures OwnershipYears(Date(2014, 3, 19), Date(2017, 3, 19)) == 3
    ensures OwnershipYears(Date(2014, 3, 19), Date(2017, 3, 18)) == 2
    ensures OwnershipYears(Date(2014, 3, 19), Date(2017, 3, 20)) == 3
    ensures OwnershipYears(Date(2020, 2, 29), Date(2020, 2, 29)) == 0
    ensures OwnershipYears(Date(2020, 2, 29), Date(2020, 3, 1)) == 0
    ensures OwnershipYears(Date(2020, 2, 29), Date(2021, 2, 27)) == 0
    ensures OwnershipYears(Date(2020, 2, 29), Date(2021, 2, 28)) == 1
    ensures OwnershipYears(Date(2020, 2, 29), Date(2021, 3, 1)) == 1
    ensures OwnershipYears(Date(2020, 2, 29), Date(2024, 2, 28)) == 3
    ensures OwnershipYears(Date(2020, 2, 29), Date(2024, 2, 29)) == 4
    ensures OwnershipYears(Date(2020, 2, 29), Date(2024, 3, 1)) == 4
  {
  }
}
