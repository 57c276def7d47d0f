/** The tax vocabulary and the double rounding of tax amounts (src/taxes/mod.rs). */
module Taxes {
  import opened Wrappers
  import opened Jurisdictions
  import Decimals

  datatype IncomeType = Trading | Dividends | Interest

  datatype TaxExemption = LongTermOwnership | TaxFree

  /**
   * At most one exemption per portfolio, and only for brokers under Russian
   * jurisdiction.
   */
  function ValidateTaxExemptions(jurisdiction: Jurisdiction, exemptions: seq<TaxExemption>): (r: Result<()>)
    ensures |exemptions| == 0 ==> r.Ok?
    ensures |exemptions| > 1 ==> r == Err("Only one tax exemption can be specified per portfolio")
    ensures r.Ok? <==> |exemptions| == 0 || (|exemptions| == 1 && jurisdiction == Russia)
  {
    if |exemptions| == 0 then Ok(())
    else if |exemptions| > 1 then Err("Only one tax exemption can be specified per portfolio")
    else if jurisdiction != Russia then Err("Tax exemptions are only supported for brokers with Russia jurisdiction")
    else Ok(())
  }

  /** Taxes are computed to kopecks first and only then rounded to the tax precision. */
  function RoundTax(tax: real, precision: nat): (r: real)
    ensures Decimals.HasPlaces(r, precision)
  {
    Decimals.RoundHasPlaces(Decimals.Round(tax, 2), precision);
    Decimals.Round(Decimals.Round(tax, 2), precision)
  }

  /**
   * The tax on an income at a rate: nothing unless the income rounded to cents is
   * positive, otherwise the double-rounded share of the rounded income.
   */
  function TaxOnIncome(income: real, rate: real, precision: nat): (r: real)
    ensures Decimals.Round(income, 2) <= 0.0 ==> r == 0.0
  {
    var rounded := Decimals.Round(income, 2);
    if rounded <= 0.0 then 0.0 else RoundTax(Share(rounded, rate), precision)
  }

  /** The share of an amount at a rate. */
  function Share(amount: real, rate: real): real
  {
    amount * rate
  }

  lemma ShareMonotone(a: real, b: real, rate: real)
    requires a <= b && rate >= 0.0
    ensures Share(a, rate) <= Share(b, rate)
  {
  }

  /** With a non-negative rate the tax is never negative and never shrinks as the income grows. */
  lemma {:induction false} TaxOnIncomeMonotone(a: real, b: real, rate: real, precision: nat)
    requires a <= b && rate >= 0.0
    ensures 0.0 <= TaxOnIncome(a, rate, precision) <= TaxOnIncome(b, rate, precision)
  {
    var ra, rb := Decimals.Round(a, 2), Decimals.Round(b, 2);
    Decimals.RoundMonotone(a, b, 2);
    if ra > 0.0 {
      ShareMonotone(0.0, ra, rate);
      ShareMonotone(ra, rb, rate);
      RoundTaxSign(Share(ra, rate), precision);
      RoundTaxMonotone(Share(ra, rate), Share(rb, rate), precision);
    } else if rb > 0.0 {
      ShareMonotone(0.0, rb, rate);
      RoundTaxSign(Share(rb, rate), precision);
    }
  }

  /** Double rounding keeps the order of amounts and their sign. */
  lemma {:induction false} RoundTaxMonotone(a: real, b: real, precision: nat)
    requires a <= b
    ensures RoundTax(a, precision) <= RoundTax(b, precision)
  {
    Decimals.RoundMonotone(a, b, 2);
    Decimals.RoundMonotone(Decimals.Round(a, 2), Decimals.Round(b, 2), precision);
  }

  lemma {:induction false} RoundTaxSign(tax: real, precision: nat)
    ensures tax >= 0.0 ==> RoundTax(tax, precision) >= 0.0
    ensures tax <= 0.0 ==> RoundTax(tax, precision) <= 0.0
  {
    Decimals.RoundSign(tax, 2);
    Decimals.RoundSign(Decimals.Round(tax, 2), precision);
  }

  /** The tax rounding table of the unit tests, at the rouble precision of Russia. */
  lemma {:induction false} RoundTaxTestValues()
    ensures RoundTax(13.0, 0) == 13.0
    ensures RoundTax(13.1111, 0) == 13.0
    ensures RoundTax(13.4949, 0) == 13.0
    ensures RoundTax(13.4950, 0) == 14.0
    ensures RoundTax(13.9999, 0) == 14.0
  {
    assert Decimals.Scale(2) == 100.0;
    assert Decimals.Scale(0) == 1.0;
    assert Decimals.Round(13.4949, 2) == 13.49;
    assert Decimals.Round(13.4950, 2) == 13.50;
    assert Decimals.Round(13.9999, 2) == 14.0;
    assert Decimals.Round(13.1111, 2) == 13.11;
  }

  /** Rounding twice is not rounding once: 13.495 gives 14 roubles, where a single rounding gives 13. */
  lemma {:induction false} DoubleRoundingDiffers()
    ensures RoundTax(13.495, 0) == 14.0 && Decimals.Round(13.495, 0) == 13.0
  {
    assert Decimals.Scale(2) == 100.0;
    assert Decimals.Scale(0) == 1.0;
    assert Decimals.Round(13.495, 2) == 13.50;
  }
}
