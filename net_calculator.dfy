/**
 * The net tax on trading profit, per tax year (src/taxes/net_calculator.rs):
 * profit is accumulated per (tax year, payment date) and taxed once per year.
 */
module NetCalculator {
  import opened Wrappers
  import opened Dates
  import opened Currency
  import opened Taxes
  import opened Localities
  import opened PaymentDays
  import Decimals

  /** The profit of one payment: the whole profit and the part of it that is taxable. */
  datatype NetProfit = NetProfit(total: real, taxable: real)

  datatype NetTax = NetTax(taxPaymentDate: NaiveDate, taxToPay: Cash, taxDeduction: Cash, ltoLoss: Cash)

  type ProfitKey = (int, NaiveDate)

  /** Trading income is never taxed at a negative rate. */
  ghost predicate NonnegativeTradingRates(country: Country)
    requires country.Valid()
  {
    forall year :: TaxRate(country, Trading, year) >= 0.0
  }

  /** The accumulators after one more profit: its amounts rounded to cents and added under `key`. */
  function AddedProfit(profit: map<ProfitKey, NetProfit>, key: ProfitKey, total: real, taxable: real)
    : (r: map<ProfitKey, NetProfit>)
    ensures r.Keys == profit.Keys + {key}
    ensures forall k :: k in profit && k != key ==> r[k] == profit[k]
  {
    var before := if key in profit then profit[key] else NetProfit(0.0, 0.0);
    profit[key := NetProfit(before.total + Decimals.Round(total, 2), before.taxable + Decimals.Round(taxable, 2))]
  }

  /**
   * The net tax of one accumulator: the tax on the taxable profit, and as a
   * deduction what the exemptions saved against the tax on the whole profit.
   * The long-term ownership deduction is not part of this model and is zero.
   */
  function NetTaxOf(country: Country, key: ProfitKey, profit: NetProfit): (r: NetTax)
    requires country.Valid()
    ensures r.taxToPay == TaxToPay(country, Trading, key.0, Cash(country.currency, profit.taxable), None)
    ensures r.taxDeduction.amount
      == TaxToPay(country, Trading, key.0, Cash(country.currency, profit.total), None).amount - r.taxToPay.amount
  {
    var taxToPay := TaxToPay(country, Trading, key.0, Cash(country.currency, profit.taxable), None);
    var taxWithoutDeduction := TaxToPay(country, Trading, key.0, Cash(country.currency, profit.total), None);
    NetTax(key.1, taxToPay, Sub(taxWithoutDeduction, taxToPay).value, Cash(country.currency, 0.0))
  }

  /** With a non-negative rate the deduction is never negative, and nothing exempt means no deduction. */
  lemma {:induction false} NetTaxDeduction(country: Country, key: ProfitKey, profit: NetProfit)
    requires country.Valid() && NonnegativeTradingRates(country)
    requires profit.taxable <= profit.total
    ensures NetTaxOf(country, key, profit).taxDeduction.amount >= 0.0
    ensures profit.taxable == profit.total ==> NetTaxOf(country, key, profit).taxDeduction.amount == 0.0
  {
    assert TaxRate(country, Trading, key.0) >= 0.0;
    TaxToPayMonotone(country, Trading, key.0, Cash(country.currency, profit.taxable),
                     Cash(country.currency, profit.total));
  }

  lemma RoundedSumsOrdered(a: real, b: real, x: real, y: real)
    requires a <= b && x <= y
    ensures a + Decimals.Round(x, 2) <= b + Decimals.Round(y, 2)
  {
    Decimals.RoundMonotone(x, y, 2);
  }

  class NetTaxCalculator {
    const country: Country
    const taxPaymentDay: TaxPaymentDay
    var profit: map<ProfitKey, NetProfit>

    /**
     * Every key pairs a tax year with the payment date of trading tax for that
     * year, and the taxable part of each accumulator never exceeds the whole.
     */
    ghost predicate Valid()
      reads this
    {
      && country.Valid() && NonnegativeTradingRates(country)
      && ValidSpec(taxPaymentDay.spec)
      && forall k :: k in profit ==>
           && (taxPaymentDay.spec.OnClose? ==> k.0 <= taxPaymentDay.spec.closeDate.year)
           && k.1 == GetFor(taxPaymentDay, k.0, true)
           && profit[k].taxable <= profit[k].total
    }

    constructor(country: Country, taxPaymentDay: TaxPaymentDay)
      requires country.Valid() && NonnegativeTradingRates(country) && ValidSpec(taxPaymentDay.spec)
      ensures Valid()
      ensures this.country == country && this.taxPaymentDay == taxPaymentDay && profit == map[]
    {
      this.country := country;
      this.taxPaymentDay := taxPaymentDay;
      profit := map[];
    }

    /**
     * `add_profit`: adds the rounded profit of a trade on `date` to the accumulator
     * of its tax year and payment date.
     */
    method AddProfit(date: NaiveDate, total: Cash, taxable: Cash)
      requires Valid()
      requires total.currency == country.currency && taxable.currency == country.currency
      requires taxPaymentDay.spec.OnClose? ==> LessEq(date, taxPaymentDay.spec.closeDate)
      requires taxable.amount <= total.amount
      modifies this
      ensures Valid()
      ensures profit == AddedProfit(old(profit), Get(taxPaymentDay, date, true), total.amount, taxable.amount)
    {
      var key := Get(taxPaymentDay, date, true);
      var before := if key in profit then profit[key] else NetProfit(0.0, 0.0);
      RoundedSumsOrdered(before.taxable, before.total, taxable.amount, total.amount);
      profit := profit[key := NetProfit(before.total + Round(total).amount, before.taxable + Round(taxable).amount)];
    }

    /** `calculate`: one net tax per tax year. */
    method Calculate() returns (taxes: map<int, NetTax>)
      requires Valid()
      ensures taxes.Keys == set k | k in profit :: k.0
      ensures forall k :: k in profit ==> taxes[k.0] == NetTaxOf(country, k, profit[k])
      ensures forall year :: year in taxes ==> taxes[year].taxDeduction.amount >= 0.0
    {
      taxes := map[];
      var pending := profit.Keys;
      while pending != {}
        invariant pending <= profit.Keys
        invariant taxes.Keys == set k | k in profit.Keys - pending :: k.0
        invariant forall k :: k in profit.Keys - pending ==> taxes[k.0] == NetTaxOf(country, k, profit[k])
        invariant forall year :: year in taxes ==> taxes[year].taxDeduction.amount >= 0.0
        decreases |pending|
      {
        var key :| key in pending;
        var netTax := NetTaxOf(country, key, profit[key]);
        NetTaxDeduction(country, key, profit[key]);
        YearHasOneKey(key);
        assert key.0 !in taxes;
        taxes := taxes[key.0 := netTax];
        pending := pending - {key};
      }
    }

    /** Keys with the same tax year are the same key. */
    lemma YearHasOneKey(key: ProfitKey)
      requires Valid() && key in profit
      ensures forall k :: k in profit && k.0 == key.0 ==> k == key
    {
    }
  }
}
