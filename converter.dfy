/**
 * Currency conversion. Rates are looked up by date and currency pair outside the
 * model; here they are an arbitrary function, and a conversion to the same
 * currency is the identity, as in `CurrencyConverter::convert`.
 */
module Converter {
  import opened Dates
  import opened Currency
  import Decimals

  /** The rate of `from` in `to` on a date. */
  type Rates = (NaiveDate, string, string) -> real

  /** `convert_to`: the amount in `to`, unrounded. */
  function ConvertTo(rates: Rates, date: NaiveDate, value: Cash, to: string): (r: Cash)
    ensures r.currency == to
    ensures value.currency == to ==> r == value
    ensures value.amount == 0.0 ==> r.amount == 0.0
  {
    if value.currency == to then value else MulBy(Cash(to, value.amount), rates(date, value.currency, to))
  }

  /** `convert_to_cash_rounding`: the converted amount rounded to cents. */
  function ConvertToRounding(rates: Rates, date: NaiveDate, value: Cash, to: string): (r: Cash)
    ensures r.currency == to
    ensures value.amount == 0.0 ==> r.amount == 0.0
  {
    var converted := ConvertTo(rates, date, value, to);
    Decimals.RoundZero(2);
    Round(converted)
  }
}
