/**
 * A series of payments and reversals of one kind of income (src/broker_statement/payments.rs).
 * The statement does not order them, so the result is meant to depend only on which
 * payments and reversals there are, not on their order.
 */
module Payments {
  import opened Wrappers
  import opened Currency

  // ---------------------------------------------------------------------------
  // The specification of `get_result`.
  // ---------------------------------------------------------------------------

  /** `payments` without the first payment equal to `amount`, if there is one. */
  function RemoveFirst(payments: seq<Cash>, amount: Cash): Option<seq<Cash>>
  {
    if |payments| == 0 then None
    else if payments[0] == amount then Some(payments[1..])
    else
      match RemoveFirst(payments[1..], amount)
      case None => None
      case Some(rest) => Some([payments[0]] + rest)
  }

  /** Each reversal, in order, removes one payment equal to it. */
  function RemoveReversals(payments: seq<Cash>, reversals: seq<Cash>): Result<seq<Cash>>
    decreases |reversals|
  {
    if |reversals| == 0 then Ok(payments)
    else
      match RemoveFirst(payments, reversals[0])
      case None => Err("Unexpected reversal")
      case Some(rest) => RemoveReversals(rest, reversals[1..])
  }

  /** `result` with the amounts added to it in order with `add_assign`. */
  function AddAll(result: Cash, amounts: seq<Cash>): Result<Cash>
    decreases |amounts|
  {
    if |amounts| == 0 then Ok(result)
    else
      match Add(result, amounts[0])
      case Err(_) => Err("Mixed currency")
      case Ok(sum) => AddAll(sum, amounts[1..])
  }

  /** The sum of the remaining payments: the last one popped, then the others added to it. */
  function Total(payments: seq<Cash>): Result<Option<Cash>>
  {
    if |payments| == 0 then Ok(None)
    else
      match AddAll(payments[|payments| - 1], payments[..|payments| - 1])
      case Err(e) => Err(e)
      case Ok(sum) => Ok(Some(sum))
  }

  /** What `get_result` returns for these payments and reversals. */
  function PaymentsResult(payments: seq<Cash>, reversals: seq<Cash>): Result<Option<Cash>>
  {
    match RemoveReversals(payments, reversals)
    case Err(e) => Err(e)
    case Ok(rest) => Total(rest)
  }

  // ---------------------------------------------------------------------------
  // The reference definitions, on multisets.
  // ---------------------------------------------------------------------------

  /** The sum of the amounts, whatever their currencies. */
  function SumAmounts(amounts: seq<Cash>): real
  {
    if |amounts| == 0 then 0.0 else amounts[0].amount + SumAmounts(amounts[1..])
  }

  /** Every amount is in `currency`. */
  predicate AllIn(amounts: seq<Cash>, currency: string)
  {
    forall i :: 0 <= i < |amounts| ==> amounts[i].currency == currency
  }

  // ---------------------------------------------------------------------------
  // Lemmas.
  // ---------------------------------------------------------------------------

  /** `RemoveFirst` succeeds exactly when an equal payment exists, and removes just one of it. */
  lemma {:induction false} RemoveFirstMultiset(payments: seq<Cash>, amount: Cash)
    ensures RemoveFirst(payments, amount).Some? <==> amount in payments
    ensures RemoveFirst(payments, amount).Some? ==>
      multiset(RemoveFirst(payments, amount).value) == multiset(payments) - multiset{amount}
  {
    if |payments| > 0 {
      assert payments == [payments[0]] + payments[1..];
      if payments[0] != amount {
        RemoveFirstMultiset(payments[1..], amount);
      }
    }
  }

  /** The reversals are accepted exactly when each one has its own equal payment; the rest remains. */
  lemma {:induction false} RemoveReversalsMultiset(payments: seq<Cash>, reversals: seq<Cash>)
    ensures RemoveReversals(payments, reversals).Ok? <==> multiset(reversals) <= multiset(payments)
    ensures RemoveReversals(payments, reversals).Ok? ==>
      multiset(RemoveReversals(payments, reversals).value) == multiset(payments) - multiset(reversals)
    ensures RemoveReversals(payments, reversals).Err? ==> RemoveReversals(payments, reversals).error == "Unexpected reversal"
    decreases |reversals|
  {
    if |reversals| > 0 {
      var r := reversals[0];
      assert reversals == [r] + reversals[1..];
      RemoveFirstMultiset(payments, r);
      match RemoveFirst(payments, r)
      case None =>
        assert r in multiset(reversals);
      case Some(rest) =>
        RemoveReversalsMultiset(rest, reversals[1..]);
    }
  }

  /** Amounts all in the result's currency are all added to it. */
  lemma {:induction false} AddAllSum(result: Cash, amounts: seq<Cash>)
    requires AllIn(amounts, result.currency)
    ensures AddAll(result, amounts) == Ok(Cash(result.currency, result.amount + SumAmounts(amounts)))
    decreases |amounts|
  {
    if |amounts| > 0 {
      var first, rest := amounts[0], amounts[1..];
      assert forall i :: 0 <= i < |rest| ==> rest[i] == amounts[i + 1];
      AddAllSum(Cash(result.currency, result.amount + first.amount), rest);
    }
  }

  /** An amount in another currency than the result's is an error. */
  lemma {:induction false} AddAllMixed(result: Cash, amounts: seq<Cash>)
    requires !AllIn(amounts, result.currency)
    ensures AddAll(result, amounts) == Err("Mixed currency")
    decreases |amounts|
  {
    var first, rest := amounts[0], amounts[1..];
    if first.currency == result.currency {
      var i :| 0 <= i < |amounts| && amounts[i].currency != result.currency;
      assert rest[i - 1] == amounts[i];
      AddAllMixed(Cash(result.currency, result.amount + first.amount), rest);
    }
  }

  /** The sum of two sequences one after the other. */
  lemma {:induction false} SumAmountsConcat(a: seq<Cash>, b: seq<Cash>)
    ensures SumAmounts(a + b) == SumAmounts(a) + SumAmounts(b)
    decreases |a|
  {
    if |a| > 0 {
      assert (a + b)[0] == a[0] && (a + b)[1..] == a[1..] + b;
      SumAmountsConcat(a[1..], b);
    } else {
      assert a + b == b;
    }
  }

  /** Taking out the first payment equal to `amount` takes its amount out of the sum. */
  lemma {:induction false} SumAmountsRemoveFirst(payments: seq<Cash>, amount: Cash)
    requires RemoveFirst(payments, amount).Some?
    ensures SumAmounts(payments) == amount.amount + SumAmounts(RemoveFirst(payments, amount).value)
  {
    if payments[0] != amount {
      var rest := RemoveFirst(payments[1..], amount).value;
      SumAmountsRemoveFirst(payments[1..], amount);
      assert ([payments[0]] + rest)[1..] == rest;
    }
  }

  /** The sum of amounts does not depend on their order. */
  lemma {:induction false} SumAmountsPermutation(a: seq<Cash>, b: seq<Cash>)
    requires multiset(a) == multiset(b)
    ensures SumAmounts(a) == SumAmounts(b)
    decreases |a|
  {
    if |a| > 0 {
      RemoveFirstMultiset(b, a[0]);
      assert a[0] in multiset(b);
      var rest := RemoveFirst(b, a[0]).value;
      assert a == [a[0]] + a[1..];
      assert multiset(a[1..]) == multiset(a) - multiset{a[0]};
      SumAmountsRemoveFirst(b, a[0]);
      SumAmountsPermutation(a[1..], rest);
    } else {
      assert |multiset(b)| == |b|;
    }
  }

  /** The sum of the last amount and the others. */
  lemma SumAmountsLast(amounts: seq<Cash>)
    requires |amounts| > 0
    ensures amounts[|amounts| - 1].amount + SumAmounts(amounts[..|amounts| - 1]) == SumAmounts(amounts)
  {
    var n := |amounts|;
    assert amounts == amounts[..n - 1] + [amounts[n - 1]];
    SumAmountsConcat(amounts[..n - 1], [amounts[n - 1]]);
  }

  /** All amounts share a currency exactly when those before the last share the last one's. */
  lemma AllInLast(amounts: seq<Cash>)
    requires |amounts| > 0
    ensures AllIn(amounts, amounts[|amounts| - 1].currency)
      <==> AllIn(amounts[..|amounts| - 1], amounts[|amounts| - 1].currency)
  {
    var n := |amounts|;
    assert forall i :: 0 <= i < n - 1 ==> amounts[..n - 1][i] == amounts[i];
  }

  /** Whether all amounts share a currency does not depend on their order. */
  lemma AllInPermutation(a: seq<Cash>, b: seq<Cash>, currency: string)
    requires multiset(a) == multiset(b)
    ensures AllIn(a, currency) <==> AllIn(b, currency)
  {
    if AllIn(a, currency) {
      forall i | 0 <= i < |b|
        ensures b[i].currency == currency
      {
        assert b[i] in multiset(a);
      }
    } else {
      var i :| 0 <= i < |a| && a[i].currency != currency;
      assert a[i] in multiset(b);
    }
  }

  /** `Total` pops the last payment and adds the others to it. */
  lemma TotalUnfold(payments: seq<Cash>)
    requires |payments| > 0 && AddAll(payments[|payments| - 1], payments[..|payments| - 1]).Ok?
    ensures Total(payments) == Ok(Some(AddAll(payments[|payments| - 1], payments[..|payments| - 1]).value))
  {
  }

  /** Remaining payments in one currency total their sum in it. */
  lemma TotalSum(payments: seq<Cash>)
    requires |payments| > 0 && AllIn(payments, payments[|payments| - 1].currency)
    ensures Total(payments) == Ok(Some(Cash(payments[|payments| - 1].currency, SumAmounts(payments))))
  {
    var n := |payments|;
    var last, others := payments[n - 1], payments[..n - 1];
    var sum := last.amount + SumAmounts(others);
    AllInLast(payments);
    AddAllSum(last, others);
    TotalUnfold(payments);
    assert sum == SumAmounts(payments) by {
      SumAmountsLast(payments);
    }
  }

  /** Remaining payments in more than one currency are an error. */
  lemma TotalMixed(payments: seq<Cash>)
    requires |payments| > 0 && !AllIn(payments, payments[|payments| - 1].currency)
    ensures Total(payments) == Err("Mixed currency")
  {
    var n := |payments|;
    AllInLast(payments);
    AddAllMixed(payments[n - 1], payments[..n - 1]);
  }

  /** The total depends only on the multiset of remaining payments. */
  lemma TotalPermutation(a: seq<Cash>, b: seq<Cash>)
    requires multiset(a) == multiset(b)
    ensures Total(a) == Total(b)
  {
    assert |multiset(a)| == |a| && |multiset(b)| == |b|;
    if |a| > 0 {
      var x, y := a[|a| - 1], b[|b| - 1];
      assert x in multiset(b);
      var j :| 0 <= j < |b| && b[j] == x;
      AllInPermutation(a, b, x.currency);
      if AllIn(a, x.currency) {
        TotalSum(a);
        TotalSum(b);
        SumAmountsPermutation(a, b);
      } else {
        assert !AllIn(b, y.currency);
        TotalMixed(a);
        TotalMixed(b);
      }
    }
  }

  /**
   * The result does not depend on the order of payments and reversals: the same payments
   * and reversals in any order give the same result.
   */
  lemma OrderIndependent(payments: seq<Cash>, reversals: seq<Cash>, payments2: seq<Cash>, reversals2: seq<Cash>)
    requires multiset(payments) == multiset(payments2) && multiset(reversals) == multiset(reversals2)
    ensures PaymentsResult(payments, reversals) == PaymentsResult(payments2, reversals2)
  {
    RemoveReversalsMultiset(payments, reversals);
    RemoveReversalsMultiset(payments2, reversals2);
    if RemoveReversals(payments, reversals).Ok? {
      TotalPermutation(RemoveReversals(payments, reversals).value, RemoveReversals(payments2, reversals2).value);
    }
  }

  /** An unmatched reversal is an error, and after the reversals an empty list gives no result. */
  lemma ResultCases(payments: seq<Cash>, reversals: seq<Cash>)
    ensures !(multiset(reversals) <= multiset(payments)) ==> PaymentsResult(payments, reversals) == Err("Unexpected reversal")
    ensures multiset(reversals) == multiset(payments) ==> PaymentsResult(payments, reversals) == Ok(None)
  {
    RemoveReversalsMultiset(payments, reversals);
    if multiset(reversals) == multiset(payments) {
      var rest := RemoveReversals(payments, reversals).value;
      assert |multiset(rest)| == |rest|;
    }
  }

  /** Two payments and the reversal of one of them, in either order, leave the other. */
  lemma ReversalExample()
    ensures PaymentsResult([Cash("USD", 10.0), Cash("USD", 2.5)], [Cash("USD", 10.0)]) == Ok(Some(Cash("USD", 2.5)))
    ensures PaymentsResult([Cash("USD", 2.5), Cash("USD", 10.0), Cash("USD", 10.0)], [Cash("USD", 10.0)]) == Ok(Some(Cash("USD", 12.5)))
    ensures PaymentsResult([Cash("USD", 10.0), Cash("RUB", 2.5)], []) == Err("Mixed currency")
    ensures PaymentsResult([Cash("USD", 10.0)], [Cash("USD", 2.5)]) == Err("Unexpected reversal")
  {
    assert [Cash("USD", 10.0), Cash("USD", 2.5)][1..] == [Cash("USD", 2.5)];
    assert [Cash("USD", 2.5), Cash("USD", 10.0), Cash("USD", 10.0)][1..] == [Cash("USD", 10.0), Cash("USD", 10.0)];
    assert [Cash("USD", 10.0), Cash("USD", 10.0)][1..] == [Cash("USD", 10.0)];
    assert [Cash("USD", 2.5), Cash("USD", 10.0)][..1] == [Cash("USD", 2.5)];
    assert [Cash("USD", 10.0), Cash("RUB", 2.5)][..1] == [Cash("USD", 10.0)];
  }

  // ---------------------------------------------------------------------------
  // The imperative code.
  // ---------------------------------------------------------------------------

  /** The index of the first payment equal to `amount` (`iter().position`), or -1. */
  method Position(payments: seq<Cash>, amount: Cash) returns (index: int)
    ensures index == -1 <==> amount !in payments
    ensures index != -1 ==> 0 <= index < |payments| && payments[index] == amount && amount !in payments[..index]
  {
    index := 0;
    while index < |payments|
      invariant 0 <= index <= |payments| && amount !in payments[..index]
    {
      if payments[index] == amount {
        return;
      }
      assert payments[..index + 1] == payments[..index] + [payments[index]];
      index := index + 1;
    }
    assert payments[..index] == payments;
    index := -1;
  }

  /** Removing at the first equal index is `RemoveFirst`. */
  lemma {:induction false} RemoveFirstAt(payments: seq<Cash>, amount: Cash, index: nat)
    requires index < |payments| && payments[index] == amount && amount !in payments[..index]
    ensures RemoveFirst(payments, amount) == Some(payments[..index] + payments[index + 1..])
  {
    if index > 0 {
      assert payments[0] in payments[..index];
      assert payments[1..][..index - 1] == payments[1..index];
      assert amount !in payments[1..][..index - 1];
      RemoveFirstAt(payments[1..], amount, index - 1);
      assert [payments[0]] + (payments[1..][..index - 1] + payments[1..][index..]) == payments[..index] + payments[index + 1..];
    } else {
      assert payments[..0] + payments[1..] == payments[1..];
    }
  }

  /** `Payments`: the payments and the reversals, both kept in the order they came. */
  class Payments {
    var payments: seq<Cash>
    var reversals: seq<Cash>

    /** `new`: no payments and no reversals. */
    constructor()
      ensures payments == [] && reversals == []
    {
      payments := [];
      reversals := [];
    }

    /** `add`: records a payment. */
    method Add(amount: Cash)
      modifies this
      ensures payments == old(payments) + [amount] && reversals == old(reversals)
    {
      payments := payments + [amount];
    }

    /** `reverse`: records a reversal. */
    method Reverse(amount: Cash)
      modifies this
      ensures reversals == old(reversals) + [amount] && payments == old(payments)
    {
      reversals := reversals + [amount];
    }

    /** `merge`: records the other's payments and then its reversals, in order. */
    method Merge(other: Payments)
      modifies this
      ensures payments == old(payments) + old(other.payments)
      ensures reversals == old(reversals) + old(other.reversals)
    {
      var morePayments, moreReversals := other.payments, other.reversals;
      for i := 0 to |morePayments|
        invariant payments == old(payments) + morePayments[..i] && reversals == old(reversals)
      {
        Add(morePayments[i]);
        assert morePayments[..i + 1] == morePayments[..i] + [morePayments[i]];
      }
      assert morePayments[..|morePayments|] == morePayments;
      for i := 0 to |moreReversals|
        invariant reversals == old(reversals) + moreReversals[..i] && payments == old(payments) + morePayments
      {
        Reverse(moreReversals[i]);
        assert moreReversals[..i + 1] == moreReversals[..i] + [moreReversals[i]];
      }
      assert moreReversals[..|moreReversals|] == moreReversals;
    }

    /** `get_result`: removes a payment per reversal and sums what remains. */
    method GetResult() returns (r: Result<Option<Cash>>)
      ensures r == PaymentsResult(payments, reversals)
    {
      var remaining := payments;
      for i := 0 to |reversals|
        invariant PaymentsResult(payments, reversals) == PaymentsResult(remaining, reversals[i..])
      {
        var reversal := reversals[i];
        var index := Position(remaining, reversal);
        assert reversals[i..][0] == reversal && reversals[i..][1..] == reversals[i + 1..];
        if index == -1 {
          RemoveFirstMultiset(remaining, reversal);
          return Err("Unexpected reversal");
        }
        RemoveFirstAt(remaining, reversal, index);
        remaining := remaining[..index] + remaining[index + 1..];
      }
      if |remaining| == 0 {
        return Ok(None);
      }
      var amounts := remaining[..|remaining| - 1];
      var result := remaining[|remaining| - 1];
      for i := 0 to |amounts|
        invariant Total(remaining) == (match AddAll(result, amounts[i..]) case Err(e) => Err(e) case Ok(sum) => Ok(Some(sum)))
      {
        var status: Result<()>;
        assert amounts[i..][0] == amounts[i] && amounts[i..][1..] == amounts[i + 1..];
        result, status := AddAssign(result, amounts[i]);
        if status.Err? {
          return Err("Mixed currency");
        }
      }
      return Ok(Some(result));
    }
  }
}
