/** A tax rate that does not depend on the year or the income type (src/taxes/rates.rs). */
module TaxRates {
  import opened Wrappers
  import opened Currency
  import opened Taxes
  import Decimals

  datatype FixedTaxRate = FixedTaxRate(rate: real, precision: nat)

  /** `FixedTaxRate::tax`: the same rule as the tax of a country without a credit. */
  function Tax(fixed: FixedTaxRate, income: real): (r: real)
    ensures Decimals.Round(income, 2) <= 0.0 ==> r == 0.0
    ensures fixed.rate >= 0.0 ==> r >= 0.0
  {
    if fixed.rate >= 0.0 then
      TaxOnIncomeMonotone(income, income, fixed.rate, fixed.precision);
      TaxOnIncome(income, fixed.rate, fixed.precision)
    else
      TaxOnIncome(income, fixed.rate, fixed.precision)
  }

  /** 13% with rouble precision, as in the unit tests of the fixed rate. */
  lemma {:induction false} FixedTaxRateTestValues()
    ensures Tax(FixedTaxRate(0.13, 0), 100.0) == 13.0
    ensures Tax(FixedTaxRate(0.13, 0), 103.80) == 13.0
    ensures Tax(FixedTaxRate(0.13, 0), 103.81) == 14.0
    ensures Tax(FixedTaxRate(0.13, 0), 103.85) == 14.0
    ensures Tax(FixedTaxRate(0.13, 0), 696.12) == 91.0
  {
    assert Decimals.Round(696.12, 2) == 696.12;
    assert Decimals.Round(90.4956, 2) == 90.50;
    assert Decimals.Round(100.0, 2) == 100.0;
    assert Decimals.Round(103.80, 2) == 103.80;
    assert Decimals.Round(103.81, 2) == 103.81;
    assert Decimals.Round(103.85, 2) == 103.85;
    assert Decimals.Round(13.494, 2) == 13.49;
    assert Decimals.Round(13.4953, 2) == 13.50;
    assert Decimals.Round(13.5005, 2) == 13.50;
  }
}
