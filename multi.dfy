/** An account holding one balance per currency (src/currency/multi.rs). */
module MultiCurrency {
  import opened Wrappers
  import opened Currency
  import Dates
  import Converter

  /** Balances by currency, the account's contents. */
  type Assets = map<string, real>

  /** The balance of `assets` in `currency`, zero when the currency is absent. */
  function Balance(assets: Assets, currency: string): real
  {
    if currency in assets then assets[currency] else 0.0
  }

  /** The balances after depositing `amount`: its currency gets the amount added, or inserted. */
  function Deposited(assets: Assets, amount: Cash): (r: Assets)
    ensures r.Keys == assets.Keys + {amount.currency}
    ensures r[amount.currency] == Balance(assets, amount.currency) + amount.amount
    ensures forall c :: c in assets && c != amount.currency ==> r[c] == assets[c]
  {
    assets[amount.currency := Balance(assets, amount.currency) + amount.amount]
  }

  /** The balances after depositing every balance of `other`. */
  function Merged(assets: Assets, other: Assets): (r: Assets)
    ensures r.Keys == assets.Keys + other.Keys
    ensures forall c :: c in r ==> r[c] == Balance(assets, c) + Balance(other, c)
  {
    map c | c in assets.Keys + other.Keys :: Balance(assets, c) + Balance(other, c)
  }

  /** A withdrawal is the deposit of the negated amount, so it takes the amount away. */
  lemma {:induction false} WithdrawRestores(assets: Assets, amount: Cash)
    ensures Deposited(Deposited(assets, amount), Neg(amount)).Keys == assets.Keys + {amount.currency}
    ensures forall c :: c in assets ==> Deposited(Deposited(assets, amount), Neg(amount))[c] == assets[c]
  {
    var once := Deposited(assets, amount);
    var twice := Deposited(once, Neg(amount));
    assert twice[amount.currency] == Balance(assets, amount.currency);
  }

  /** Merging accounts does not depend on which one is merged into which. */
  lemma MergedCommutes(a: Assets, b: Assets)
    ensures Merged(a, b) == Merged(b, a)
  {
  }

  /** Depositing one more currency into a merge extends the merge by that currency. */
  lemma MergedStep(assets: Assets, done: Assets, amount: Cash)
    requires amount.currency !in done
    ensures Deposited(Merged(assets, done), amount) == Merged(assets, done[amount.currency := amount.amount])
  {
    var lhs := Deposited(Merged(assets, done), amount);
    var rhs := Merged(assets, done[amount.currency := amount.amount]);
    assert lhs.Keys == rhs.Keys;
    forall c | c in lhs
      ensures lhs[c] == rhs[c]
    {
    }
  }

  lemma MergedNothing(assets: Assets)
    ensures Merged(assets, map[]) == assets
  {
    var r := Merged(assets, map[]);
    assert r.Keys == assets.Keys;
    forall c | c in r
      ensures r[c] == assets[c]
    {
    }
  }

  /** The converted value of the balance held in `currency`. */
  function Part(rates: Converter.Rates, date: Dates.NaiveDate, assets: Assets, currency: string, to: string): real
    requires currency in assets
  {
    Converter.ConvertTo(rates, date, Cash(currency, assets[currency]), to).amount
  }

  /** `total_assets`: the sum of every balance converted into `to` on `date`. */
  ghost function Total(rates: Converter.Rates, date: Dates.NaiveDate, assets: Assets, to: string): real
    decreases assets.Keys
  {
    if assets == map[] then 0.0
    else
      var currency :| currency in assets;
      Part(rates, date, assets, currency, to) + Total(rates, date, assets - {currency}, to)
  }

  /** The total does not depend on which balance is taken first. */
  lemma {:induction false} TotalRemove(rates: Converter.Rates, date: Dates.NaiveDate, assets: Assets, to: string, currency: string)
    requires currency in assets
    ensures Total(rates, date, assets, to) == Part(rates, date, assets, currency, to) + Total(rates, date, assets - {currency}, to)
    decreases assets.Keys
  {
    var first :| first in assets && Total(rates, date, assets, to)
      == Part(rates, date, assets, first, to) + Total(rates, date, assets - {first}, to);
    if first != currency {
      TotalRemove(rates, date, assets - {first}, to, currency);
      TotalRemove(rates, date, assets - {currency}, to, first);
      assert assets - {first} - {currency} == assets - {currency} - {first};
      assert Part(rates, date, assets - {first}, currency, to) == Part(rates, date, assets, currency, to);
      assert Part(rates, date, assets - {currency}, first, to) == Part(rates, date, assets, first, to);
    }
  }

  /** Depositing an amount in the target currency raises the total by exactly that amount. */
  lemma {:induction false} TotalDeposit(rates: Converter.Rates, date: Dates.NaiveDate, assets: Assets, amount: Cash)
    ensures Total(rates, date, Deposited(assets, amount), amount.currency) == Total(rates, date, assets, amount.currency) + amount.amount
  {
    var to := amount.currency;
    var after := Deposited(assets, amount);
    TotalRemove(rates, date, after, to, to);
    assert after - {to} == assets - {to};
    if to in assets {
      TotalRemove(rates, date, assets, to, to);
    } else {
      assert assets - {to} == assets;
    }
  }

  /** An account holding only the target currency is worth its balance. */
  lemma {:induction false} TotalSingle(rates: Converter.Rates, date: Dates.NaiveDate, amount: Cash)
    ensures Total(rates, date, map[amount.currency := amount.amount], amount.currency) == amount.amount
  {
    assert Deposited(map[], amount) == map[amount.currency := amount.amount];
    TotalDeposit(rates, date, map[], amount);
  }

  class MultiCurrencyCashAccount {
    var assets: Assets

    constructor ()
      ensures assets == map[]
    {
      assets := map[];
    }

    /** `From<Cash>`: an account holding only `amount`. */
    constructor FromCash(amount: Cash)
      ensures assets == map[amount.currency := amount.amount]
    {
      assets := map[amount.currency := amount.amount];
    }

    /** `clone`: a separate account holding the same balances. */
    constructor Of(balances: Assets)
      ensures assets == balances
    {
      assets := balances;
    }

    function IsEmpty(): (r: bool)
      reads this
      ensures r <==> |assets| == 0
    {
      assets == map[]
    }

    function HasAssets(currency: string): bool
      reads this
    {
      currency in assets
    }

    /** The stored balance in `currency`, if there is one. */
    function Get(currency: string): (r: Option<Cash>)
      reads this
      ensures r.Some? <==> HasAssets(currency)
      ensures r.Some? ==> r.value == Cash(currency, assets[currency])
    {
      if currency in assets then Some(Cash(currency, assets[currency])) else None
    }

    method Clear()
      modifies this
      ensures assets == map[]
    {
      assets := map[];
    }

    method Deposit(amount: Cash)
      modifies this
      ensures assets == Deposited(old(assets), amount)
    {
      if amount.currency in assets {
        assets := assets[amount.currency := assets[amount.currency] + amount.amount];
        return;
      }
      assets := assets[amount.currency := amount.amount];
    }

    method Withdraw(amount: Cash)
      modifies this
      ensures assets == Deposited(old(assets), Neg(amount))
    {
      Deposit(Neg(amount));
    }

    /** Deposits every balance of `other`, one currency at a time. */
    method Add(other: MultiCurrencyCashAccount)
      requires other != this
      modifies this
      ensures assets == Merged(old(assets), other.assets)
    {
      var pending := other.assets.Keys;
      assert other.assets - pending == map[];
      MergedNothing(assets);
      while pending != {}
        invariant pending <= other.assets.Keys
        invariant assets == Merged(old(assets), other.assets - pending)
        decreases |pending|
      {
        var currency :| currency in pending;
        var amount := Cash(currency, other.assets[currency]);
        MergedStep(old(assets), other.assets - pending, amount);
        assert (other.assets - pending)[currency := amount.amount] == other.assets - (pending - {currency});
        Deposit(amount);
        pending := pending - {currency};
      }
      assert other.assets - pending == other.assets;
    }

    /** `total_assets`: converts and sums the balances one currency at a time. */
    method TotalAssets(rates: Converter.Rates, date: Dates.NaiveDate, to: string) returns (total: real)
      ensures total == Total(rates, date, assets, to)
    {
      total := 0.0;
      var pending := assets.Keys;
      assert assets - pending == map[];
      while pending != {}
        invariant pending <= assets.Keys
        invariant total == Total(rates, date, assets - pending, to)
        decreases |pending|
      {
        var currency :| currency in pending;
        var done := assets - (pending - {currency});
        TotalRemove(rates, date, done, to, currency);
        assert done - {currency} == assets - pending;
        total := total + Converter.ConvertTo(rates, date, Cash(currency, assets[currency]), to).amount;
        pending := pending - {currency};
      }
      assert assets - pending == assets;
    }
  }
}
