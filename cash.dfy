/** A monetary amount in one currency (src/currency/cash.rs). */
module Currency {
  import opened Wrappers
  import Decimals

  datatype Cash = Cash(currency: string, amount: real)

  datatype Ordering = Less | Equal | Greater

  predicate IsZero(c: Cash)
  {
    c.amount == 0.0
  }

  /** Strictly positive: zero is neither positive nor negative. */
  predicate IsPositive(c: Cash)
  {
    c.amount != 0.0 && c.amount >= 0.0
  }

  predicate IsNegative(c: Cash)
  {
    c.amount != 0.0 && c.amount <= 0.0
  }

  /** Every amount is exactly one of zero, positive and negative. */
  lemma SignTrichotomy(c: Cash)
    ensures IsZero(c) || IsPositive(c) || IsNegative(c)
    ensures !(IsZero(c) && IsPositive(c)) && !(IsZero(c) && IsNegative(c))
    ensures !(IsPositive(c) && IsNegative(c))
  {
  }

  function Neg(c: Cash): (r: Cash)
    ensures r.currency == c.currency && r.amount + c.amount == 0.0
  {
    Cash(c.currency, -c.amount)
  }

  /** The error both operands of a binary operation get when their currencies differ. */
  function EnsureSameCurrency(a: Cash, b: Cash): (r: Result<()>)
    ensures r.Ok? <==> a.currency == b.currency
  {
    if a.currency == b.currency then Ok(()) else Err("Currency mismatch")
  }

  /** `Cash::add`: the sum, or an error when the currencies differ. */
  function Add(a: Cash, b: Cash): (r: Result<Cash>)
    ensures r.Ok? <==> a.currency == b.currency
    ensures r.Ok? ==> r.value.currency == a.currency && r.value.amount == a.amount + b.amount
  {
    match EnsureSameCurrency(a, b)
    case Err(e) => Err(e)
    case Ok(_) => Ok(Cash(a.currency, a.amount + b.amount))
  }

  /** `Cash::sub`, defined in the source as the addition of the negated amount. */
  function Sub(a: Cash, b: Cash): (r: Result<Cash>)
    ensures r.Ok? <==> a.currency == b.currency
    ensures r.Ok? ==> r.value.currency == a.currency && r.value.amount == a.amount - b.amount
  {
    Add(a, Neg(b))
  }

  /**
   * `Cash::add_assign`: updates `c` in place, leaving it unchanged on a currency
   * mismatch.
   */
  method AddAssign(c: Cash, amount: Cash) returns (updated: Cash, r: Result<()>)
    ensures r.Ok? <==> c.currency == amount.currency
    ensures r.Ok? ==> Add(c, amount) == Ok(updated)
    ensures r.Err? ==> updated == c
  {
    r := EnsureSameCurrency(c, amount);
    updated := c;
    if r.Ok? {
      updated := updated.(amount := updated.amount + amount.amount);
    }
  }

  /** `Cash::sub_assign`: the in-place subtraction, through `add_assign` of the negation. */
  method SubAssign(c: Cash, amount: Cash) returns (updated: Cash, r: Result<()>)
    ensures r.Ok? <==> c.currency == amount.currency
    ensures r.Ok? ==> Sub(c, amount) == Ok(updated)
    ensures r.Err? ==> updated == c
  {
    updated, r := AddAssign(c, Neg(amount));
  }

  /** `Cash::div` by another amount: the ratio, or an error when the currencies differ. */
  function Div(a: Cash, b: Cash): (r: Result<real>)
    requires b.amount != 0.0
    ensures r.Ok? <==> a.currency == b.currency
    ensures r.Ok? ==> r.value * b.amount == a.amount
  {
    match EnsureSameCurrency(a, b)
    case Err(e) => Err(e)
    case Ok(_) => Ok(a.amount / b.amount)
  }

  function MulBy(c: Cash, k: real): Cash
  {
    Cash(c.currency, c.amount * k)
  }

  function DivBy(c: Cash, k: real): Cash
    requires k != 0.0
  {
    Cash(c.currency, c.amount / k)
  }

  /** `Cash::round`: to cents, half away from zero. */
  function Round(c: Cash): (r: Cash)
    ensures r.currency == c.currency
    ensures c.amount >= 0.0 ==> r.amount >= 0.0
    ensures c.amount <= 0.0 ==> r.amount <= 0.0
  {
    Decimals.RoundSign(c.amount, 2);
    Cash(c.currency, Decimals.Round(c.amount, 2))
  }

  function RoundTo(c: Cash, points: nat): Cash
  {
    Cash(c.currency, Decimals.Round(c.amount, points))
  }

  /** Pence sterling are restated as pounds; every other currency is kept. */
  function NormalizeCurrency(c: Cash): (r: Cash)
    ensures c.currency == "GBX" ==> r.currency == "GBP" && r.amount * 100.0 == c.amount
    ensures c.currency != "GBX" ==> r == c
  {
    if c.currency == "GBX" then Cash("GBP", c.amount / 100.0) else c
  }

  /** `Ord for Cash`: panics on a currency mismatch, otherwise compares the amounts. */
  function Compare(a: Cash, b: Cash): (r: Ordering)
    requires a.currency == b.currency
    ensures r == Less <==> a.amount < b.amount
    ensures r == Equal <==> a.amount == b.amount
  {
    if a.amount < b.amount then Less else if a.amount == b.amount then Equal else Greater
  }

  /** The ordering is antisymmetric: swapping the operands swaps the answer. */
  lemma CompareAntisymmetric(a: Cash, b: Cash)
    requires a.currency == b.currency
    ensures Compare(a, b) == Greater <==> Compare(b, a) == Less
    ensures Compare(a, b) == Equal <==> a == b
  {
  }

  /** Subtracting what was added gives back the original amount. */
  lemma AddSubRoundTrip(a: Cash, b: Cash)
    requires a.currency == b.currency
    ensures Add(a, b).Ok? && Sub(Add(a, b).value, b) == Ok(a)
  {
  }
}
