/** The Interactive Brokers fixed commission plan (src/brokers/plans/ib.rs). */
module IbPlan {
  import opened Wrappers
  import opened Dates
  import opened Currency
  import opened Commissions
  import opened CommissionBuilders
  import opened MultiCurrency
  import Converter
  import Decimals

  /** `fixed()`, put together by the builders. */
  const Fixed: CommissionSpec :=
    var commission := BuildTransaction(WithMaximumPercent(WithPerShare(WithMinimum(NoTransactionCommission, 1.0), 0.005), 1.0));
    var sellingFee := BuildTransaction(WithPercent(NoTransactionCommission, 0.0013));
    var activityFee := BuildTransaction(WithPerShare(NoTransactionCommission, 0.000119));
    WithTrade(NewCommissionSpec("USD"),
      WithTransactionFee(WithTransactionFee(WithCommission(NoTradeRules, commission.value), Sell, sellingFee.value), Sell, activityFee.value))

  /**
   * The plan's rules: $0.005 per share, at least $1 and at most 1% of the volume, plus on
   * sells the 0.0013% selling fee and the $0.000119 per share trading activity fee.
   */
  lemma FixedRules()
    ensures Fixed == CommissionSpec(
      "USD", Round,
      TradeCommissionSpec(
        TransactionCommissionSpec(None, Some(0.005), Some(1.0), Some(1.0)),
        [(Sell, TransactionCommissionSpec(Some(0.0013), None, None, None)),
         (Sell, TransactionCommissionSpec(None, Some(0.000119), None, None))]),
      CumulativeCommissionSpec(None, None, None, [], []))
  {
  }

  /** The rounded commission `add_trade` returns for a trade in dollars. */
  function Commission(rates: Converter.Rates, date: NaiveDate, tradeType: TradeType, shares: real, price: real): (r: Option<Cash>)
    ensures r.Some? <==> WholeShares(shares).Some?
  {
    var whole := WholeShares(shares);
    if whole.None? then None
    else Some(RoundCash(Fixed, TradeCommission(Fixed, rates, date, tradeType, whole.value, MulBy(Cash("USD", price), shares))))
  }

  /**
   * A dollar trade of `shares` whole shares and volume `volume` costs half a cent a share,
   * capped at 1% of the volume and then raised to $1; a sell adds both fees.
   */
  lemma {:induction false} FixedCommission(rates: Converter.Rates, date: NaiveDate, tradeType: TradeType, shares: nat, volume: real)
    ensures var perShare := 0.005 * shares as real;
      var capped := if perShare > volume / 100.0 then volume / 100.0 else perShare;
      var commission := if capped < 1.0 then 1.0 else capped;
      var fees := if tradeType == Sell then volume * 0.0013 / 100.0 + 0.000119 * shares as real else 0.0;
      TradeCommission(Fixed, rates, date, tradeType, shares, Cash("USD", volume)) == Cash("USD", commission + fees)
  {
    FixedRules();
    var usd := Cash("USD", volume);
    var fees := Fixed.trade.transactionFees;
    assert InCurrency(rates, Fixed, date, "USD", 0.005) == 0.005;
    assert InCurrency(rates, Fixed, date, "USD", 0.000119) == 0.000119;
    assert InCurrency(rates, Fixed, date, "USD", 1.0) == 1.0;
    assert PercentOf(volume, 1.0) == volume / 100.0;
    assert BaseCommission(Fixed.trade.commission, rates, Fixed, date, shares, usd) == 0.005 * shares as real;
    assert fees[..1][..0] == [];
    assert fees[..|fees| - 1] == fees[..1];
    assert MatchingFees(fees, tradeType, rates, Fixed, date, shares, usd)
      == if tradeType == Sell then volume * 0.0013 / 100.0 + 0.000119 * shares as real else 0.0;
  }

  /** The plan's unit-test values for whole numbers of shares, whatever the rates (dollars need no conversion). */
  lemma {:induction false} FixedTestValues(rates: Converter.Rates, date: NaiveDate)
    ensures Commission(rates, date, Buy, 199.0, 100.0) == Some(Cash("USD", 1.0))
    ensures Commission(rates, date, Buy, 200.0, 100.0) == Some(Cash("USD", 1.0))
    ensures Commission(rates, date, Buy, 201.0, 100.0) == Some(Cash("USD", 1.01))
    ensures Commission(rates, date, Buy, 300.0, 100.0) == Some(Cash("USD", 1.5))
    ensures Commission(rates, date, Buy, 300.0, 0.4) == Some(Cash("USD", 1.2))
    ensures TradeCommission(Fixed, rates, date, Sell, 26, MulBy(Cash("USD", 174.2), 26.0)) == Cash("USD", 1.0619736)
    ensures Commission(rates, date, Sell, 26.0, 174.2) == Some(Cash("USD", 1.06))
  {
    assert WholeShares(199.0) == Some(199);
    assert WholeShares(200.0) == Some(200);
    assert WholeShares(201.0) == Some(201);
    assert WholeShares(300.0) == Some(300);
    assert WholeShares(26.0) == Some(26);
    FixedCommission(rates, date, Buy, 199, 19900.0);
    FixedCommission(rates, date, Buy, 200, 20000.0);
    FixedCommission(rates, date, Buy, 201, 20100.0);
    FixedCommission(rates, date, Buy, 300, 30000.0);
    FixedCommission(rates, date, Buy, 300, 120.0);
    FixedCommission(rates, date, Sell, 26, 4529.2);
    assert Decimals.Round(1.0, 2) == 1.0;
    assert Decimals.Round(1.005, 2) == 1.01;
    assert Decimals.Round(1.5, 2) == 1.5;
    assert Decimals.Round(1.2, 2) == 1.2;
    assert Decimals.Round(1.0619736, 2) == 1.06;
  }

  /** The same trades with a tenth of a share less: the shares are ceiled, the volume is not. */
  lemma {:induction false} FixedFractionTestValues(rates: Converter.Rates, date: NaiveDate)
    ensures Commission(rates, date, Buy, 198.9, 100.0) == Some(Cash("USD", 1.0))
    ensures Commission(rates, date, Buy, 199.9, 100.0) == Some(Cash("USD", 1.0))
    ensures Commission(rates, date, Buy, 200.9, 100.0) == Some(Cash("USD", 1.01))
    ensures Commission(rates, date, Buy, 299.9, 100.0) == Some(Cash("USD", 1.5))
    ensures Commission(rates, date, Buy, 299.9, 0.4) == Some(Cash("USD", 1.2))
    ensures Commission(rates, date, Sell, 25.9, 174.2) == Some(Cash("USD", 1.06))
  {
    assert WholeShares(198.9) == Some(199);
    assert WholeShares(199.9) == Some(200);
    assert WholeShares(200.9) == Some(201);
    assert WholeShares(299.9) == Some(300);
    assert WholeShares(25.9) == Some(26);
    FixedCommission(rates, date, Buy, 199, 19890.0);
    FixedCommission(rates, date, Buy, 200, 19990.0);
    FixedCommission(rates, date, Buy, 201, 20090.0);
    FixedCommission(rates, date, Buy, 300, 29990.0);
    FixedCommission(rates, date, Buy, 300, 119.96);
    FixedCommission(rates, date, Sell, 26, 4511.78);
    assert Decimals.Round(1.0, 2) == 1.0;
    assert Decimals.Round(1.005, 2) == 1.01;
    assert Decimals.Round(1.5, 2) == 1.5;
    assert Decimals.Round(1.1996, 2) == 1.2;
    assert Decimals.Round(1.06174714, 2) == 1.06;
  }

  /** The plan has no cumulative rules, so `calculate` charges nothing whatever was traded. */
  lemma FixedChargesNothing(rates: Converter.Rates, netValue: Cash, today: NaiveDate, volume: map<NaiveDate, Assets>)
    ensures AllTiersDefined(Fixed, rates, netValue, volume) && DepositaryDefined(Fixed, rates, netValue, today)
    ensures Charges(Fixed, rates, netValue, today, volume) == map[]
  {
    FixedRules();
    NoCumulativeRulesNoCharges(Fixed, rates, netValue, today, volume);
  }
}
