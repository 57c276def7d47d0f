/**
 * Broker commissions (src/commissions/mod.rs): the per-trade commission with its
 * minimum and cap, transaction fees by trade type, and the cumulative rules a
 * broker charges per day and per month (a tiered percentage of the day's volume,
 * daily and monthly minimums, percentage fees and a monthly depositary charge).
 */
module Commissions {
  import opened Wrappers
  import opened Dates
  import opened Currency
  import opened MultiCurrency
  import Converter
  import Decimals
  import Sums

  datatype TradeType = Buy | Sell

  datatype RoundingMethod = Round | ToBigger | Truncate

  /** `util::round_with(amount, 2, method)`: to cents, half away from zero, up, or toward zero. */
  function RoundWith(amount: real, rounding: RoundingMethod): (r: real)
    ensures rounding.Round? ==> r == Decimals.Round(amount, 2)
    ensures rounding.ToBigger? ==> amount <= r < amount + 0.01
    ensures rounding.Truncate? && amount >= 0.0 ==> r <= amount < r + 0.01
    ensures rounding.Truncate? && amount < 0.0 ==> r - 0.01 < amount <= r
  {
    match rounding
    case Round => Decimals.Round(amount, 2)
    case ToBigger => Decimals.Ceil(amount * 100.0) as real / 100.0
    case Truncate =>
      if amount >= 0.0 then (amount * 100.0).Floor as real / 100.0
      else -((-amount * 100.0).Floor as real) / 100.0
  }

  /** `percent` per cent of `amount`. */
  function PercentOf(amount: real, percent: real): real
  {
    amount * percent / 100.0
  }

  /** A per-share price times a number of shares. */
  function PerShare(price: real, shares: nat): real
  {
    price * shares as real
  }

  datatype TransactionCommissionSpec = TransactionCommissionSpec(
    percent: Option<real>,
    perShare: Option<real>,
    minimum: Option<real>,
    maximumPercent: Option<real>)

  datatype TradeCommissionSpec = TradeCommissionSpec(
    commission: TransactionCommissionSpec,
    transactionFees: seq<(TradeType, TransactionCommissionSpec)>)

  datatype CumulativeTierType = Volume | PortfolioNetValue

  /** Tiers as the ordered entries of a map from starting threshold to percent. */
  datatype CumulativeTieredSpec = CumulativeTieredSpec(tierType: CumulativeTierType, tiers: seq<(real, real)>)

  datatype CumulativeCommissionSpec = CumulativeCommissionSpec(
    percent: Option<CumulativeTieredSpec>,
    minimumDaily: Option<real>,
    minimumMonthly: Option<real>,
    fees: seq<real>,
    monthlyDepositary: seq<(real, real)>)

  datatype CommissionSpec = CommissionSpec(
    currency: string,
    roundingMethod: RoundingMethod,
    trade: TradeCommissionSpec,
    cumulative: CumulativeCommissionSpec)

  /** `CommissionSpec::round`. */
  function RoundAmount(spec: CommissionSpec, amount: real): real
  {
    RoundWith(amount, spec.roundingMethod)
  }

  /** `CommissionSpec::round_cash`. */
  function RoundCash(spec: CommissionSpec, amount: Cash): (r: Cash)
    ensures r.currency == amount.currency
  {
    Cash(amount.currency, RoundAmount(spec, amount.amount))
  }

  /** Thresholds strictly increase, as the keys of an ordered map do. */
  predicate Ascending(tiers: seq<(real, real)>)
  {
    forall i, j :: 0 <= i < j < |tiers| ==> tiers[i].0 < tiers[j].0
  }

  /** The entry `range(..=key).last()` finds: the last tier whose threshold is not above `key`. */
  function TierIndex(tiers: seq<(real, real)>, key: real): (i: nat)
    requires |tiers| > 0 && tiers[0].0 <= key
    ensures i < |tiers| && tiers[i].0 <= key
    ensures forall j :: i < j < |tiers| ==> tiers[j].0 > key
    decreases |tiers|
  {
    if tiers[|tiers| - 1].0 <= key then |tiers| - 1 else TierIndex(tiers[..|tiers| - 1], key)
  }

  /** With ascending thresholds the tier found is the one whose range holds `key`. */
  lemma {:induction false} TierIndexBracketsKey(tiers: seq<(real, real)>, key: real)
    requires |tiers| > 0 && tiers[0].0 <= key && Ascending(tiers)
    ensures var i := TierIndex(tiers, key);
      forall j :: 0 <= j <= i ==> tiers[j].0 <= key
    ensures var i := TierIndex(tiers, key);
      i + 1 < |tiers| ==> key < tiers[i + 1].0
  {
    var i := TierIndex(tiers, key);
    forall j | 0 <= j <= i
      ensures tiers[j].0 <= key
    {
      if j < i {
        assert tiers[j].0 < tiers[i].0;
      }
    }
  }

  /** The value converted from the commission currency into `currency`. */
  function InCurrency(rates: Converter.Rates, spec: CommissionSpec, date: NaiveDate, currency: string, amount: real): real
  {
    Converter.ConvertTo(rates, date, Cash(spec.currency, amount), currency).amount
  }

  /** The per-share part plus the percentage of the volume, before the cap and the minimum. */
  function BaseCommission(t: TransactionCommissionSpec, rates: Converter.Rates, spec: CommissionSpec,
                          date: NaiveDate, shares: nat, volume: Cash): real
  {
    (if t.perShare.Some? then PerShare(InCurrency(rates, spec, date, volume.currency, t.perShare.value), shares) else 0.0)
    + (if t.percent.Some? then PercentOf(volume.amount, t.percent.value) else 0.0)
  }

  /** `TransactionCommissionSpec::calculate`: the base commission capped at the maximum percentage, then raised to the minimum. */
  function TransactionCommission(t: TransactionCommissionSpec, rates: Converter.Rates, spec: CommissionSpec,
                                 date: NaiveDate, shares: nat, volume: Cash): (r: Cash)
    ensures r.currency == volume.currency
    ensures t.minimum.Some? ==> r.amount >= InCurrency(rates, spec, date, volume.currency, t.minimum.value)
    ensures t.maximumPercent.Some?
      && (t.minimum.None? || InCurrency(rates, spec, date, volume.currency, t.minimum.value) <= PercentOf(volume.amount, t.maximumPercent.value))
      ==> r.amount <= PercentOf(volume.amount, t.maximumPercent.value)
    ensures (t.maximumPercent.None? || BaseCommission(t, rates, spec, date, shares, volume) <= PercentOf(volume.amount, t.maximumPercent.value))
      && (t.minimum.None? || BaseCommission(t, rates, spec, date, shares, volume) >= InCurrency(rates, spec, date, volume.currency, t.minimum.value))
      ==> r.amount == BaseCommission(t, rates, spec, date, shares, volume)
  {
    var commission := BaseCommission(t, rates, spec, date, shares, volume);
    var capped :=
      if t.maximumPercent.Some? && commission > PercentOf(volume.amount, t.maximumPercent.value)
      then PercentOf(volume.amount, t.maximumPercent.value) else commission;
    var minimum := if t.minimum.Some? then InCurrency(rates, spec, date, volume.currency, t.minimum.value) else 0.0;
    Cash(volume.currency, if t.minimum.Some? && capped < minimum then minimum else capped)
  }

  /** The transaction fees of `tradeType` among `fees`, added up in order. */
  function MatchingFees(fees: seq<(TradeType, TransactionCommissionSpec)>, tradeType: TradeType, rates: Converter.Rates,
                        spec: CommissionSpec, date: NaiveDate, shares: nat, volume: Cash): real
    decreases |fees|
  {
    if fees == [] then 0.0
    else
      var last := fees[|fees| - 1];
      MatchingFees(fees[..|fees| - 1], tradeType, rates, spec, date, shares, volume)
      + (if last.0 == tradeType then TransactionCommission(last.1, rates, spec, date, shares, volume).amount else 0.0)
  }

  /** Fees of the other trade type are never charged. */
  lemma {:induction false} OtherFeesIgnored(fees: seq<(TradeType, TransactionCommissionSpec)>, tradeType: TradeType,
                                            rates: Converter.Rates, spec: CommissionSpec, date: NaiveDate, shares: nat, volume: Cash)
    requires forall i :: 0 <= i < |fees| ==> fees[i].0 != tradeType
    ensures MatchingFees(fees, tradeType, rates, spec, date, shares, volume) == 0.0
    decreases |fees|
  {
    if fees != [] {
      OtherFeesIgnored(fees[..|fees| - 1], tradeType, rates, spec, date, shares, volume);
    }
  }

  /** The commission of one trade: the transaction commission plus every fee of the trade's type. */
  function TradeCommission(spec: CommissionSpec, rates: Converter.Rates, date: NaiveDate, tradeType: TradeType,
                           shares: nat, volume: Cash): (r: Cash)
    ensures r.currency == volume.currency
  {
    var commission := TransactionCommission(spec.trade.commission, rates, spec, date, shares, volume);
    Cash(volume.currency, commission.amount + MatchingFees(spec.trade.transactionFees, tradeType, rates, spec, date, shares, volume))
  }

  /** Shares ceiled to a whole number that fits `u32`, or none. */
  function WholeShares(shares: real): (r: Option<nat>)
    ensures r.Some? <==> 0 <= Decimals.Ceil(shares) <= 0xFFFF_FFFF
    ensures r.Some? ==> r.value as real - 1.0 < shares <= r.value as real
  {
    var whole := Decimals.Ceil(shares);
    if 0 <= whole <= 0xFFFF_FFFF then Some(whole) else None
  }

  /** A whole number of shares that fits `u32` is its own ceiling. */
  lemma WholeSharesOfCount(n: nat)
    requires n <= 0xFFFF_FFFF
    ensures WholeShares(n as real) == Some(n)
  {
    var whole := Decimals.Ceil(n as real);
    assert whole as real - 1.0 < n as real <= whole as real;
  }

  /** The month a date belongs to, as (year, month). */
  function MonthOf(d: NaiveDate): (int, int)
  {
    (d.year, d.month)
  }

  /** `get_monthly_commission_date`: the first day of the following month. */
  function MonthlyCommissionDate(year: int, month: int): (d: NaiveDate)
    requires 1 <= month <= 12
    ensures d == Succ(Date(year, month, DaysInMonth(year, month)))
  {
    if month == 12 then Date(year + 1, 1, 1) else Date(year, month + 1, 1)
  }

  /** The month a monthly charge dated `d` is for. */
  function MonthBefore(d: NaiveDate): (int, int)
  {
    if d.month == 1 then (d.year - 1, 12) else (d.year, d.month - 1)
  }

  /** A month's charge date is the only date a charge for that month can fall on. */
  lemma MonthlyDateInverse(year: int, month: int, d: NaiveDate)
    requires 1 <= month <= 12
    ensures MonthBefore(MonthlyCommissionDate(year, month)) == (year, month)
    ensures MonthlyCommissionDate(year, month).day == 1
    ensures d.day == 1 && MonthBefore(d) == (year, month) ==> d == MonthlyCommissionDate(year, month)
  {
  }

  /** The key the tiers are looked up by: the day's volume, or the portfolio net value clamped at zero. */
  function TierKey(tiered: CumulativeTieredSpec, rates: Converter.Rates, spec: CommissionSpec, netValue: Cash,
                   date: NaiveDate, volume: real): (key: real)
    ensures tiered.tierType.PortfolioNetValue? ==> key >= 0.0
  {
    match tiered.tierType
    case Volume => volume
    case PortfolioNetValue =>
      var value := Converter.ConvertTo(rates, date, netValue, spec.currency).amount;
      if value > 0.0 then value else 0.0
  }

  /** `CumulativeTieredSpec::percent`. */
  function TierPercent(tiered: CumulativeTieredSpec, rates: Converter.Rates, spec: CommissionSpec, netValue: Cash,
                       date: NaiveDate, volume: real): real
    requires |tiered.tiers| > 0 && tiered.tiers[0].0 <= TierKey(tiered, rates, spec, netValue, date, volume)
  {
    tiered.tiers[TierIndex(tiered.tiers, TierKey(tiered, rates, spec, netValue, date, volume))].1
  }

  /** The balances a date holds in a map of accounts, none when the date is absent (`entry(date).or_default()`). */
  function AssetsOn(accounts: map<NaiveDate, Assets>, date: NaiveDate): Assets
  {
    if date in accounts then accounts[date] else map[]
  }

  /** `entry(date).or_default().deposit(amount)` on a map of accounts. */
  function Charge(accounts: map<NaiveDate, Assets>, date: NaiveDate, amount: Cash): map<NaiveDate, Assets>
  {
    accounts[date := Deposited(AssetsOn(accounts, date), amount)]
  }

  /** The tier search of a day's commission finds a tier (the source unwraps it). */
  ghost predicate TierDefined(spec: CommissionSpec, rates: Converter.Rates, netValue: Cash, date: NaiveDate, volumes: Assets)
  {
    spec.cumulative.percent.Some? ==>
      var tiered := spec.cumulative.percent.value;
      |tiered.tiers| > 0
      && tiered.tiers[0].0 <= TierKey(tiered, rates, spec, netValue, date, Total(rates, date, volumes, spec.currency))
  }

  ghost predicate AllTiersDefined(spec: CommissionSpec, rates: Converter.Rates, netValue: Cash, volume: map<NaiveDate, Assets>)
  {
    forall d :: d in volume ==> TierDefined(spec, rates, netValue, d, volume[d])
  }

  /** Each currency's rounded `percent` of its volume, for the currencies in `keys`, kept only when positive. */
  function Shares(spec: CommissionSpec, volumes: Assets, keys: set<string>, percent: real): (r: Assets)
    ensures r.Keys <= keys * volumes.Keys
    ensures forall c :: c in keys && c in volumes ==>
      (c in r <==> RoundAmount(spec, PercentOf(volumes[c], percent)) > 0.0)
    ensures forall c :: c in r ==> r[c] > 0.0 && r[c] == RoundAmount(spec, PercentOf(volumes[c], percent))
  {
    map c | c in keys && c in volumes && RoundAmount(spec, PercentOf(volumes[c], percent)) > 0.0
      :: RoundAmount(spec, PercentOf(volumes[c], percent))
  }

  /** Taking one more currency into account adds its share when it is positive. */
  lemma SharesStep(spec: CommissionSpec, volumes: Assets, done: set<string>, currency: string, percent: real)
    requires currency in volumes && currency !in done
    ensures var share := RoundAmount(spec, PercentOf(volumes[currency], percent));
      Shares(spec, volumes, done + {currency}, percent)
        == if share > 0.0 then Shares(spec, volumes, done, percent)[currency := share] else Shares(spec, volumes, done, percent)
  {
  }

  /** Depositing one more currency's positive share. */
  lemma SharesDeposited(spec: CommissionSpec, into: Assets, volumes: Assets, done: set<string>, currency: string, percent: real)
    requires currency in volumes && currency !in done
    requires IsPositive(RoundCash(spec, Cash(currency, PercentOf(volumes[currency], percent))))
    ensures Deposited(Merged(into, Shares(spec, volumes, done, percent)), RoundCash(spec, Cash(currency, PercentOf(volumes[currency], percent))))
      == Merged(into, Shares(spec, volumes, done + {currency}, percent))
  {
    SharesStep(spec, volumes, done, currency, percent);
    MergedStep(into, Shares(spec, volumes, done, percent), RoundCash(spec, Cash(currency, PercentOf(volumes[currency], percent))));
  }

  /** A currency whose share is not positive adds nothing. */
  lemma SharesSkipped(spec: CommissionSpec, into: Assets, volumes: Assets, done: set<string>, currency: string, percent: real)
    requires currency in volumes && currency !in done
    requires !IsPositive(RoundCash(spec, Cash(currency, PercentOf(volumes[currency], percent))))
    ensures Merged(into, Shares(spec, volumes, done, percent)) == Merged(into, Shares(spec, volumes, done + {currency}, percent))
  {
    SharesStep(spec, volumes, done, currency, percent);
  }

  /** The tiered commission of a day before the daily minimum. */
  ghost function TieredCommissions(spec: CommissionSpec, rates: Converter.Rates, netValue: Cash, date: NaiveDate, volumes: Assets): Assets
    requires TierDefined(spec, rates, netValue, date, volumes)
  {
    if spec.cumulative.percent.Some? then
      var percent := TierPercent(spec.cumulative.percent.value, rates, spec, netValue, date, Total(rates, date, volumes, spec.currency));
      Shares(spec, volumes, volumes.Keys, percent)
    else map[]
  }

  /** The commissions of a day: the tiered commission, topped up in the commission currency to the daily minimum. */
  ghost function DailyCommissions(spec: CommissionSpec, rates: Converter.Rates, netValue: Cash, date: NaiveDate, volumes: Assets): Assets
    requires TierDefined(spec, rates, netValue, date, volumes)
  {
    var tiered := TieredCommissions(spec, rates, netValue, date, volumes);
    var total := RoundAmount(spec, Total(rates, date, tiered, spec.currency));
    if spec.cumulative.minimumDaily.Some? && total < spec.cumulative.minimumDaily.value
    then Deposited(tiered, Cash(spec.currency, spec.cumulative.minimumDaily.value - total))
    else tiered
  }

  /** The daily minimum adds exactly the shortfall of the rounded total, in the commission currency only. */
  lemma DailyMinimumTopsUp(spec: CommissionSpec, rates: Converter.Rates, netValue: Cash, date: NaiveDate, volumes: Assets, minimum: real)
    requires TierDefined(spec, rates, netValue, date, volumes)
    requires spec.cumulative.minimumDaily == Some(minimum)
    ensures var tiered := TieredCommissions(spec, rates, netValue, date, volumes);
      var rounded := RoundAmount(spec, Total(rates, date, tiered, spec.currency));
      Total(rates, date, DailyCommissions(spec, rates, netValue, date, volumes), spec.currency)
        == Total(rates, date, tiered, spec.currency) + (if rounded < minimum then minimum - rounded else 0.0)
    ensures var tiered := TieredCommissions(spec, rates, netValue, date, volumes);
      forall c :: c in tiered && c != spec.currency ==> DailyCommissions(spec, rates, netValue, date, volumes)[c] == tiered[c]
  {
    var tiered := TieredCommissions(spec, rates, netValue, date, volumes);
    var rounded := RoundAmount(spec, Total(rates, date, tiered, spec.currency));
    if rounded < minimum {
      assert DailyCommissions(spec, rates, netValue, date, volumes) == Deposited(tiered, Cash(spec.currency, minimum - rounded));
      TotalDeposit(rates, date, tiered, Cash(spec.currency, minimum - rounded));
    } else {
      assert DailyCommissions(spec, rates, netValue, date, volumes) == tiered;
    }
  }

  /** The percentage fees of a day, one pass over the volumes per fee. */
  function DailyFees(spec: CommissionSpec, volumes: Assets, fees: seq<real>): (r: Assets)
    decreases |fees|
  {
    if fees == [] then map[]
    else Merged(DailyFees(spec, volumes, fees[..|fees| - 1]), Shares(spec, volumes, volumes.Keys, fees[|fees| - 1]))
  }

  /** Fees are charged only in currencies that were traded, and only in positive amounts. */
  lemma {:induction false} DailyFeesPositive(spec: CommissionSpec, volumes: Assets, fees: seq<real>)
    ensures DailyFees(spec, volumes, fees).Keys <= volumes.Keys
    ensures forall c :: c in DailyFees(spec, volumes, fees) ==> DailyFees(spec, volumes, fees)[c] > 0.0
    decreases |fees|
  {
    if fees != [] {
      DailyFeesPositive(spec, volumes, fees[..|fees| - 1]);
      var before := DailyFees(spec, volumes, fees[..|fees| - 1]);
      var shares := Shares(spec, volumes, volumes.Keys, fees[|fees| - 1]);
      forall c | c in DailyFees(spec, volumes, fees)
        ensures DailyFees(spec, volumes, fees)[c] > 0.0
      {
        assert DailyFees(spec, volumes, fees)[c] == Balance(before, c) + Balance(shares, c);
      }
    }
  }

  /** Commissions and fees of a day in one account. */
  ghost function DailyTotal(spec: CommissionSpec, rates: Converter.Rates, netValue: Cash, date: NaiveDate, volumes: Assets): Assets
    requires TierDefined(spec, rates, netValue, date, volumes)
  {
    Merged(DailyCommissions(spec, rates, netValue, date, volumes), DailyFees(spec, volumes, spec.cumulative.fees))
  }

  /** The rounded commission (fees excluded) a day contributes to its month. */
  ghost function DayCommission(spec: CommissionSpec, rates: Converter.Rates, netValue: Cash, date: NaiveDate, volumes: Assets): real
    requires TierDefined(spec, rates, netValue, date, volumes)
  {
    RoundAmount(spec, Total(rates, date, DailyCommissions(spec, rates, netValue, date, volumes), spec.currency))
  }

  /** The commissions and fees of every trade date. */
  ghost function DayTotals(spec: CommissionSpec, rates: Converter.Rates, netValue: Cash,
                           volume: map<NaiveDate, Assets>): (r: map<NaiveDate, Assets>)
    requires AllTiersDefined(spec, rates, netValue, volume)
    ensures r.Keys == volume.Keys
  {
    map d | d in volume :: DailyTotal(spec, rates, netValue, d, volume[d])
  }

  /** The day totals of `dates` that hold anything: empty days get no entry. */
  function NonEmptyDays(days: map<NaiveDate, Assets>, dates: set<NaiveDate>): (r: map<NaiveDate, Assets>)
    ensures forall d :: d in r ==> r[d] != map[]
    ensures forall d :: d in dates && d in days ==> (d in r <==> days[d] != map[])
    ensures r.Keys <= dates
  {
    map d | d in dates && d in days && days[d] != map[] :: days[d]
  }

  /** One more day adds its entry when it holds anything. */
  lemma NonEmptyDaysStep(days: map<NaiveDate, Assets>, dates: set<NaiveDate>, d: NaiveDate)
    requires d in days
    ensures NonEmptyDays(days, dates + {d})
      == if days[d] != map[] then NonEmptyDays(days, dates)[d := days[d]] else NonEmptyDays(days, dates)
  {
  }

  /** The day-total accumulator taking a day that holds something. */
  lemma NonEmptyDayAdded(days: map<NaiveDate, Assets>, dates: set<NaiveDate>, d: NaiveDate,
                         totals: map<NaiveDate, Assets>, total: Assets)
    requires d in days && totals == NonEmptyDays(days, dates) && total == days[d] && total != map[]
    ensures totals[d := total] == NonEmptyDays(days, dates + {d})
  {
    NonEmptyDaysStep(days, dates, d);
  }

  /** The day-total accumulator skipping an empty day. */
  lemma NonEmptyDaySkipped(days: map<NaiveDate, Assets>, dates: set<NaiveDate>, d: NaiveDate, totals: map<NaiveDate, Assets>)
    requires d in days && totals == NonEmptyDays(days, dates) && days[d] == map[]
    ensures totals == NonEmptyDays(days, dates + {d})
  {
    NonEmptyDaysStep(days, dates, d);
  }

  /** The rounded commission of every trade date. */
  ghost function DayCommissions(spec: CommissionSpec, rates: Converter.Rates, netValue: Cash,
                                volume: map<NaiveDate, Assets>): (r: map<NaiveDate, real>)
    requires AllTiersDefined(spec, rates, netValue, volume)
    ensures r.Keys == volume.Keys
  {
    map d | d in volume :: DayCommission(spec, rates, netValue, d, volume[d])
  }

  /** The entries of one trade date in the day maps. */
  lemma DayEntries(spec: CommissionSpec, rates: Converter.Rates, netValue: Cash, volume: map<NaiveDate, Assets>, d: NaiveDate)
    requires AllTiersDefined(spec, rates, netValue, volume) && d in volume
    ensures DayTotals(spec, rates, netValue, volume)[d] == DailyTotal(spec, rates, netValue, d, volume[d])
    ensures DayCommissions(spec, rates, netValue, volume)[d] == DayCommission(spec, rates, netValue, d, volume[d])
  {
  }

  /** What each date contributes to the commission of month `m`. */
  function MonthShare(days: map<NaiveDate, real>, m: (int, int)): NaiveDate -> real
  {
    d => if d in days && MonthOf(d) == m then days[d] else 0.0
  }

  function MonthsOf(dates: set<NaiveDate>): (r: set<(int, int)>)
    ensures forall m :: m in r ==> 1 <= m.1 <= 12
  {
    set d | d in dates :: MonthOf(d)
  }

  /** The commission of each month traded in `dates`: the sum of its days' rounded commissions. */
  ghost function MonthlyCommissions(days: map<NaiveDate, real>, dates: set<NaiveDate>): map<(int, int), real>
  {
    map m | m in MonthsOf(dates) :: Sums.Sum(dates, MonthShare(days, m))
  }

  /** A month's sum gains the new date's commission when the date is in that month, and is zero for a month not traded yet. */
  lemma {:induction false} MonthSumStep(days: map<NaiveDate, real>, dates: set<NaiveDate>, d: NaiveDate, m: (int, int))
    requires d in days && d !in dates
    ensures Sums.Sum(dates + {d}, MonthShare(days, m))
      == Sums.Sum(dates, MonthShare(days, m)) + (if m == MonthOf(d) then days[d] else 0.0)
    ensures m !in MonthsOf(dates) ==> Sums.Sum(dates, MonthShare(days, m)) == 0.0
  {
    var share := MonthShare(days, m);
    Sums.SumAdd(dates, share, d);
    if m !in MonthsOf(dates) {
      forall x | x in dates
        ensures share(x) == 0.0
      {
        assert MonthOf(x) in MonthsOf(dates);
      }
      Sums.SumZero(dates, share);
    }
  }

  /** The accumulated commission of a month, zero before its first trade date. */
  function MonthTotal(monthly: map<(int, int), real>, m: (int, int)): real
  {
    if m in monthly then monthly[m] else 0.0
  }

  /** One more trade date adds its commission to its own month only. */
  lemma {:induction false} MonthlyStep(days: map<NaiveDate, real>, dates: set<NaiveDate>, d: NaiveDate)
    requires d in days && d !in dates
    ensures MonthlyCommissions(days, dates + {d})
      == MonthlyCommissions(days, dates)[MonthOf(d) := MonthTotal(MonthlyCommissions(days, dates), MonthOf(d)) + days[d]]
  {
    var before := MonthlyCommissions(days, dates);
    var after := MonthlyCommissions(days, dates + {d});
    var expected := before[MonthOf(d) := MonthTotal(before, MonthOf(d)) + days[d]];
    assert MonthsOf(dates + {d}) == MonthsOf(dates) + {MonthOf(d)};
    assert after.Keys == expected.Keys;
    forall m | m in after
      ensures after[m] == expected[m]
    {
      MonthSumStep(days, dates, d, m);
    }
    MapsEqual(after, expected);
  }

  /** The accumulator of the first loop of `calculate` taking one more day's commission. */
  lemma MonthlyAccumulated(days: map<NaiveDate, real>, dates: set<NaiveDate>, d: NaiveDate,
                           monthly: map<(int, int), real>, commission: real)
    requires d in days && d !in dates
    requires monthly == MonthlyCommissions(days, dates) && commission == days[d]
    ensures monthly[MonthOf(d) := MonthTotal(monthly, MonthOf(d)) + commission] == MonthlyCommissions(days, dates + {d})
  {
    MonthlyStep(days, dates, d);
  }

  /** Maps with the same keys and the same values are equal. */
  lemma MapsEqual<K, V>(a: map<K, V>, b: map<K, V>)
    requires a.Keys == b.Keys
    requires forall k :: k in a ==> a[k] == b[k]
    ensures a == b
  {
  }

  /** The dates on which charges for the months of `amounts` fall. */
  function ChargeDates(amounts: map<(int, int), real>): set<NaiveDate>
    requires forall m :: m in amounts ==> 1 <= m.1 <= 12
  {
    set m | m in amounts :: MonthlyCommissionDate(m.0, m.1)
  }

  /** Each month's amount deposited, in `currency`, on the first day of the following month. */
  function TopUps(base: map<NaiveDate, Assets>, amounts: map<(int, int), real>, currency: string): map<NaiveDate, Assets>
    requires forall m :: m in amounts ==> 1 <= m.1 <= 12
  {
    map d | d in base.Keys + ChargeDates(amounts) ::
      if d.day == 1 && MonthBefore(d) in amounts
      then Deposited(AssetsOn(base, d), Cash(currency, amounts[MonthBefore(d)]))
      else AssetsOn(base, d)
  }

  /** Charging no month changes nothing. */
  lemma TopUpsNothing(base: map<NaiveDate, Assets>, currency: string)
    ensures TopUps(base, map[], currency) == base
  {
    assert ChargeDates(map[]) == {};
  }

  /** Charging one more month deposits its amount on its charge date, which no other month charges. */
  lemma {:induction false} TopUpsAtChargeDate(base: map<NaiveDate, Assets>, amounts: map<(int, int), real>, currency: string,
                                              m: (int, int), amount: real)
    requires forall k :: k in amounts ==> 1 <= k.1 <= 12
    requires 1 <= m.1 <= 12 && m !in amounts
    ensures var date := MonthlyCommissionDate(m.0, m.1);
      AssetsOn(TopUps(base, amounts[m := amount], currency), date) == Deposited(AssetsOn(base, date), Cash(currency, amount))
    ensures var date := MonthlyCommissionDate(m.0, m.1);
      AssetsOn(TopUps(base, amounts, currency), date) == AssetsOn(base, date)
  {
    var date := MonthlyCommissionDate(m.0, m.1);
    MonthlyDateInverse(m.0, m.1, date);
    assert date in ChargeDates(amounts[m := amount]);
  }

  /** Charging one more month leaves every other date as it was. */
  lemma {:induction false} TopUpsElsewhere(base: map<NaiveDate, Assets>, amounts: map<(int, int), real>, currency: string,
                                           m: (int, int), amount: real, d: NaiveDate)
    requires forall k :: k in amounts ==> 1 <= k.1 <= 12
    requires 1 <= m.1 <= 12 && m !in amounts
    requires d != MonthlyCommissionDate(m.0, m.1)
    ensures AssetsOn(TopUps(base, amounts[m := amount], currency), d) == AssetsOn(TopUps(base, amounts, currency), d)
  {
    var after := amounts[m := amount];
    if d.day == 1 && MonthBefore(d) in amounts {
      var k := MonthBefore(d);
      MonthlyDateInverse(k.0, k.1, d);
      assert d in ChargeDates(amounts) && d in ChargeDates(after);
      assert after[k] == amounts[k];
    } else {
      assert !(d.day == 1 && MonthBefore(d) in after) by {
        MonthlyDateInverse(m.0, m.1, d);
      }
      NotChargeDate(after, d);
      NotChargeDate(amounts, d);
    }
  }

  /** A date that is not the first day after a charged month is no charge date. */
  lemma NotChargeDate(amounts: map<(int, int), real>, d: NaiveDate)
    requires forall k :: k in amounts ==> 1 <= k.1 <= 12
    requires !(d.day == 1 && MonthBefore(d) in amounts)
    ensures d !in ChargeDates(amounts)
  {
    if d in ChargeDates(amounts) {
      var k :| k in amounts && MonthlyCommissionDate(k.0, k.1) == d;
      MonthlyDateInverse(k.0, k.1, d);
    }
  }

  /** Charging one more month adds its charge date to the dates. */
  lemma TopUpsStepKeys(base: map<NaiveDate, Assets>, amounts: map<(int, int), real>, currency: string, m: (int, int), amount: real)
    requires forall k :: k in amounts ==> 1 <= k.1 <= 12
    requires 1 <= m.1 <= 12 && m !in amounts
    ensures TopUps(base, amounts[m := amount], currency).Keys
      == Charge(TopUps(base, amounts, currency), MonthlyCommissionDate(m.0, m.1), Cash(currency, amount)).Keys
  {
    assert ChargeDates(amounts[m := amount]) == ChargeDates(amounts) + {MonthlyCommissionDate(m.0, m.1)};
  }

  /** Charging one more month, seen at its charge date. */
  lemma {:induction false} TopUpsStepAtDate(base: map<NaiveDate, Assets>, amounts: map<(int, int), real>, currency: string,
                                            m: (int, int), amount: real)
    requires forall k :: k in amounts ==> 1 <= k.1 <= 12
    requires 1 <= m.1 <= 12 && m !in amounts
    ensures var date := MonthlyCommissionDate(m.0, m.1);
      AssetsOn(TopUps(base, amounts[m := amount], currency), date)
        == Charge(TopUps(base, amounts, currency), date, Cash(currency, amount))[date]
  {
    TopUpsAtChargeDate(base, amounts, currency, m, amount);
  }

  /** Charging one more month, seen at a date with an entry other than its charge date. */
  lemma {:induction false} TopUpsStepOtherDate(base: map<NaiveDate, Assets>, amounts: map<(int, int), real>, currency: string,
                                               m: (int, int), amount: real, d: NaiveDate)
    requires forall k :: k in amounts ==> 1 <= k.1 <= 12
    requires 1 <= m.1 <= 12 && m !in amounts
    requires d != MonthlyCommissionDate(m.0, m.1) && d in TopUps(base, amounts, currency)
    ensures AssetsOn(TopUps(base, amounts[m := amount], currency), d)
      == Charge(TopUps(base, amounts, currency), MonthlyCommissionDate(m.0, m.1), Cash(currency, amount))[d]
  {
    TopUpsElsewhere(base, amounts, currency, m, amount, d);
  }

  /** Charging one more month changes only that month's charge date. */
  lemma {:induction false} TopUpsStep(base: map<NaiveDate, Assets>, amounts: map<(int, int), real>, currency: string, m: (int, int), amount: real)
    requires forall k :: k in amounts ==> 1 <= k.1 <= 12
    requires 1 <= m.1 <= 12 && m !in amounts
    ensures TopUps(base, amounts[m := amount], currency)
      == Charge(TopUps(base, amounts, currency), MonthlyCommissionDate(m.0, m.1), Cash(currency, amount))
  {
    var after := TopUps(base, amounts[m := amount], currency);
    var expected := Charge(TopUps(base, amounts, currency), MonthlyCommissionDate(m.0, m.1), Cash(currency, amount));
    TopUpsStepKeys(base, amounts, currency, m, amount);
    forall d | d in after
      ensures after[d] == expected[d]
    {
      assert after[d] == AssetsOn(after, d);
      if d == MonthlyCommissionDate(m.0, m.1) {
        TopUpsStepAtDate(base, amounts, currency, m, amount);
      } else {
        TopUpsStepOtherDate(base, amounts, currency, m, amount, d);
      }
    }
    MapsEqual(after, expected);
  }

  /** Every charged month adds its amount, in `currency`, to the base balances of its charge date. */
  lemma TopUpsEffect(base: map<NaiveDate, Assets>, amounts: map<(int, int), real>, currency: string)
    requires forall m :: m in amounts ==> 1 <= m.1 <= 12
    ensures var r := TopUps(base, amounts, currency);
      forall m :: m in amounts ==> (MonthlyCommissionDate(m.0, m.1) in r
        && r[MonthlyCommissionDate(m.0, m.1)] == Deposited(AssetsOn(base, MonthlyCommissionDate(m.0, m.1)), Cash(currency, amounts[m])))
  {
    forall m | m in amounts
      ensures MonthBefore(MonthlyCommissionDate(m.0, m.1)) == m
    {
      MonthlyDateInverse(m.0, m.1, MonthlyCommissionDate(m.0, m.1));
    }
  }

  /** Dates that are no month's charge date keep their base balances. */
  lemma TopUpsElsewhereUnchanged(base: map<NaiveDate, Assets>, amounts: map<(int, int), real>, currency: string)
    requires forall m :: m in amounts ==> 1 <= m.1 <= 12
    ensures var r := TopUps(base, amounts, currency);
      forall d :: d in base && d !in ChargeDates(amounts) ==> r[d] == base[d]
  {
    forall d | d in base && d.day == 1 && MonthBefore(d) in amounts
      ensures d in ChargeDates(amounts)
    {
      var m := MonthBefore(d);
      MonthlyDateInverse(m.0, m.1, d);
    }
  }

  /** The monthly-minimum shortfalls of the months in `keys`. */
  function Shortfalls(monthly: map<(int, int), real>, keys: set<(int, int)>, minimum: real): (r: map<(int, int), real>)
    requires forall m :: m in monthly ==> 1 <= m.1 <= 12
    ensures forall m :: m in r ==> 1 <= m.1 <= 12 && r[m] > 0.0
  {
    map m | m in keys && m in monthly && monthly[m] < minimum :: minimum - monthly[m]
  }

  /** The same fixed charge for every month in `keys`. */
  function FixedCharges(monthly: map<(int, int), real>, keys: set<(int, int)>, fee: real): (r: map<(int, int), real>)
    requires forall m :: m in monthly ==> 1 <= m.1 <= 12
    ensures forall m :: m in r ==> 1 <= m.1 <= 12
    ensures r.Keys == keys * monthly.Keys
  {
    map m | m in keys && m in monthly :: fee
  }

  /** The monthly-minimum loop charging one more month whose commission is below the minimum. */
  lemma {:induction false} ShortfallCharged(totals: map<NaiveDate, Assets>, monthly: map<(int, int), real>, done: set<(int, int)>,
                                            month: (int, int), minimum: real, currency: string)
    requires forall m :: m in monthly ==> 1 <= m.1 <= 12
    requires month in monthly && month !in done && monthly[month] < minimum
    ensures TopUps(totals, Shortfalls(monthly, done + {month}, minimum), currency)
      == Charge(TopUps(totals, Shortfalls(monthly, done, minimum), currency), MonthlyCommissionDate(month.0, month.1),
                Cash(currency, minimum - monthly[month]))
  {
    assert month !in Shortfalls(monthly, done, minimum);
    TopUpsStep(totals, Shortfalls(monthly, done, minimum), currency, month, minimum - monthly[month]);
    ShortfallsAdd(monthly, done, month, minimum);
  }

  /** A month whose commission is below the minimum adds its shortfall. */
  lemma ShortfallsAdd(monthly: map<(int, int), real>, done: set<(int, int)>, month: (int, int), minimum: real)
    requires forall m :: m in monthly ==> 1 <= m.1 <= 12
    requires month in monthly && monthly[month] < minimum
    ensures Shortfalls(monthly, done, minimum)[month := minimum - monthly[month]] == Shortfalls(monthly, done + {month}, minimum)
  {
    var a := Shortfalls(monthly, done, minimum)[month := minimum - monthly[month]];
    var b := Shortfalls(monthly, done + {month}, minimum);
    assert a.Keys == b.Keys;
    assert forall m :: m in a ==> a[m] == b[m];
  }

  /** A month whose commission reaches the minimum has no shortfall. */
  lemma ShortfallsSkip(monthly: map<(int, int), real>, done: set<(int, int)>, month: (int, int), minimum: real)
    requires forall m :: m in monthly ==> 1 <= m.1 <= 12
    requires month in monthly && monthly[month] >= minimum
    ensures Shortfalls(monthly, done, minimum) == Shortfalls(monthly, done + {month}, minimum)
  {
    var a := Shortfalls(monthly, done, minimum);
    var b := Shortfalls(monthly, done + {month}, minimum);
    assert a.Keys == b.Keys;
  }

  /** The depositary loop charging one more month. */
  lemma {:induction false} FixedChargeStep(totals: map<NaiveDate, Assets>, monthly: map<(int, int), real>, done: set<(int, int)>,
                                           month: (int, int), fee: real, currency: string)
    requires forall m :: m in monthly ==> 1 <= m.1 <= 12
    requires month in monthly && month !in done
    ensures TopUps(totals, FixedCharges(monthly, done + {month}, fee), currency)
      == Charge(TopUps(totals, FixedCharges(monthly, done, fee), currency), MonthlyCommissionDate(month.0, month.1), Cash(currency, fee))
  {
    assert month !in FixedCharges(monthly, done, fee);
    TopUpsStep(totals, FixedCharges(monthly, done, fee), currency, month, fee);
    FixedChargesAdd(monthly, done, month, fee);
  }

  /** Charging one more traded month adds it with the fee. */
  lemma FixedChargesAdd(monthly: map<(int, int), real>, done: set<(int, int)>, month: (int, int), fee: real)
    requires forall m :: m in monthly ==> 1 <= m.1 <= 12
    requires month in monthly
    ensures FixedCharges(monthly, done, fee)[month := fee] == FixedCharges(monthly, done + {month}, fee)
  {
    var a := FixedCharges(monthly, done, fee)[month := fee];
    var b := FixedCharges(monthly, done + {month}, fee);
    assert a.Keys == b.Keys;
  }

  /** The depositary tiers find a tier for the clamped portfolio net value (the source unwraps it). */
  predicate DepositaryDefined(spec: CommissionSpec, rates: Converter.Rates, netValue: Cash, today: NaiveDate)
  {
    var tiers := spec.cumulative.monthlyDepositary;
    |tiers| == 0 || tiers[0].0 <= NetValueKey(spec, rates, netValue, today)
  }

  /** The portfolio net value in the commission currency at today's rate, clamped at zero. */
  function NetValueKey(spec: CommissionSpec, rates: Converter.Rates, netValue: Cash, today: NaiveDate): (r: real)
    ensures r >= 0.0
  {
    var value := Converter.ConvertTo(rates, today, netValue, spec.currency).amount;
    if value > 0.0 then value else 0.0
  }

  /** `calculate`: day totals, then the monthly-minimum shortfalls, then the monthly depositary charge. */
  ghost function Charges(spec: CommissionSpec, rates: Converter.Rates, netValue: Cash, today: NaiveDate,
                         volume: map<NaiveDate, Assets>): map<NaiveDate, Assets>
    requires AllTiersDefined(spec, rates, netValue, volume) && DepositaryDefined(spec, rates, netValue, today)
  {
    var monthly := MonthlyCommissions(DayCommissions(spec, rates, netValue, volume), volume.Keys);
    var daily := NonEmptyDays(DayTotals(spec, rates, netValue, volume), volume.Keys);
    var withMinimum :=
      if spec.cumulative.minimumMonthly.Some?
      then TopUps(daily, Shortfalls(monthly, monthly.Keys, spec.cumulative.minimumMonthly.value), spec.currency)
      else daily;
    var tiers := spec.cumulative.monthlyDepositary;
    if |tiers| == 0 then withMinimum
    else
      var fee := tiers[TierIndex(tiers, NetValueKey(spec, rates, netValue, today))].1;
      if fee == 0.0 then withMinimum else TopUps(withMinimum, FixedCharges(monthly, monthly.Keys, fee), spec.currency)
  }

  /** With no cumulative rules nothing is charged, whatever was traded. */
  lemma NoCumulativeRulesNoCharges(spec: CommissionSpec, rates: Converter.Rates, netValue: Cash, today: NaiveDate,
                                   volume: map<NaiveDate, Assets>)
    requires spec.cumulative == CumulativeCommissionSpec(None, None, None, [], [])
    ensures AllTiersDefined(spec, rates, netValue, volume) && DepositaryDefined(spec, rates, netValue, today)
    ensures Charges(spec, rates, netValue, today, volume) == map[]
  {
    forall d | d in volume
      ensures DailyTotal(spec, rates, netValue, d, volume[d]) == map[]
    {
      MergedNothing(map[]);
    }
    assert NonEmptyDays(DayTotals(spec, rates, netValue, volume), volume.Keys) == map[];
  }

  class CommissionCalc {
    const spec: CommissionSpec
    const portfolioNetValue: Cash
    const rates: Converter.Rates
    /** Traded volume per date, one balance per trade currency. */
    var volume: map<NaiveDate, Assets>

    constructor (rates: Converter.Rates, spec: CommissionSpec, portfolioNetValue: Cash)
      ensures this.rates == rates && this.spec == spec && this.portfolioNetValue == portfolioNetValue
      ensures volume == map[]
    {
      this.rates := rates;
      this.spec := spec;
      this.portfolioNetValue := portfolioNetValue;
      volume := map[];
    }

    /**
     * `add_trade_precise`: records the trade's volume on its date and returns its
     * commission, which depends only on the arguments and never on earlier trades.
     */
    method AddTradePrecise(date: NaiveDate, tradeType: TradeType, shares: real, price: Cash) returns (r: Result<Cash>)
      modifies this`volume
      ensures r.Ok? <==> WholeShares(shares).Some?
      ensures r.Err? ==> volume == old(volume)
      ensures r.Ok? ==>
        r.value == TradeCommission(spec, rates, date, tradeType, WholeShares(shares).value, MulBy(price, shares))
        && volume == old(volume)[date := Deposited(AssetsOn(old(volume), date), MulBy(price, shares))]
    {
      var whole := WholeShares(shares);
      if whole.None? {
        return Err("Got an invalid number of shares");
      }
      var tradeVolume := MulBy(price, shares);
      var updated := volume[date := Deposited(AssetsOn(volume, date), tradeVolume)];
      volume := updated;

      var commission := TransactionCommission(spec.trade.commission, rates, spec, date, whole.value, tradeVolume);
      var base := commission.amount;
      var fees := spec.trade.transactionFees;
      var i := 0;
      while i < |fees|
        invariant 0 <= i <= |fees|
        invariant volume == updated
        invariant commission == Cash(tradeVolume.currency, base + MatchingFees(fees[..i], tradeType, rates, spec, date, whole.value, tradeVolume))
      {
        if fees[i].0 == tradeType {
          var fee := TransactionCommission(fees[i].1, rates, spec, date, whole.value, tradeVolume);
          var added;
          commission, added := AddAssign(commission, fee);
        }
        assert fees[..i + 1][..i] == fees[..i];
        i := i + 1;
      }
      assert fees[..i] == fees;
      r := Ok(commission);
    }

    /** `add_trade`: the commission of `add_trade_precise`, rounded. */
    method AddTrade(date: NaiveDate, tradeType: TradeType, shares: real, price: Cash) returns (r: Result<Cash>)
      modifies this`volume
      ensures r.Ok? <==> WholeShares(shares).Some?
      ensures r.Err? ==> volume == old(volume)
      ensures r.Ok? ==>
        r.value == RoundCash(spec, TradeCommission(spec, rates, date, tradeType, WholeShares(shares).value, MulBy(price, shares)))
        && volume == old(volume)[date := Deposited(AssetsOn(old(volume), date), MulBy(price, shares))]
    {
      r := AddTradePrecise(date, tradeType, shares, price);
      if r.Ok? {
        r := Ok(RoundCash(spec, r.value));
      }
    }

    /** Deposits into `into` each currency's rounded `percent` of its volume, when positive. */
    method DepositShares(into: Assets, volumes: Assets, percent: real) returns (r: Assets)
      ensures r == Merged(into, Shares(spec, volumes, volumes.Keys, percent))
    {
      var account := new MultiCurrencyCashAccount.Of(into);
      var pending := volumes.Keys;
      ghost var done: set<string> := {};
      MergedNothing(into);
      while pending != {}
        invariant done + pending == volumes.Keys && done !! pending
        invariant account.assets == Merged(into, Shares(spec, volumes, done, percent))
        decreases pending
      {
        var currency :| currency in pending;
        var share := RoundCash(spec, Cash(currency, PercentOf(volumes[currency], percent)));
        if IsPositive(share) {
          SharesDeposited(spec, into, volumes, done, currency, percent);
          account.Deposit(share);
        } else {
          SharesSkipped(spec, into, volumes, done, currency, percent);
        }
        done := done + {currency};
        pending := pending - {currency};
      }
      r := account.assets;
    }

    /** The tiered part of `calculate_daily`: the day's percentage looked up by its total volume, applied per currency. */
    method TieredDaily(date: NaiveDate, volumes: Assets) returns (commissions: Assets)
      requires TierDefined(spec, rates, portfolioNetValue, date, volumes)
      ensures commissions == TieredCommissions(spec, rates, portfolioNetValue, date, volumes)
    {
      commissions := map[];
      if spec.cumulative.percent.Some? {
        var account := new MultiCurrencyCashAccount.Of(volumes);
        var totalVolume := account.TotalAssets(rates, date, spec.currency);
        var percent := TierPercent(spec.cumulative.percent.value, rates, spec, portfolioNetValue, date, totalVolume);
        commissions := DepositShares(map[], volumes, percent);
        MergedCommutes(map[], Shares(spec, volumes, volumes.Keys, percent));
        MergedNothing(Shares(spec, volumes, volumes.Keys, percent));
      }
    }

    /** The fee part of `calculate_daily`: every percentage fee applied per currency. */
    method FeesDaily(volumes: Assets) returns (fees: Assets)
      ensures fees == DailyFees(spec, volumes, spec.cumulative.fees)
    {
      var feeSpecs := spec.cumulative.fees;
      fees := map[];
      for k := 0 to |feeSpecs|
        invariant fees == DailyFees(spec, volumes, feeSpecs[..k])
      {
        assert feeSpecs[..k + 1][..k] == feeSpecs[..k];
        fees := DepositShares(fees, volumes, feeSpecs[k]);
      }
      assert feeSpecs[..|feeSpecs|] == feeSpecs;
    }

    /** `calculate_daily`: the commissions and the fees of one day. */
    method CalculateDaily(date: NaiveDate, volumes: Assets) returns (commissions: Assets, fees: Assets)
      requires TierDefined(spec, rates, portfolioNetValue, date, volumes)
      ensures commissions == DailyCommissions(spec, rates, portfolioNetValue, date, volumes)
      ensures fees == DailyFees(spec, volumes, spec.cumulative.fees)
    {
      commissions := TieredDaily(date, volumes);
      if spec.cumulative.minimumDaily.Some? {
        var account := new MultiCurrencyCashAccount.Of(commissions);
        var total := account.TotalAssets(rates, date, spec.currency);
        var totalCommission := RoundAmount(spec, total);
        if totalCommission < spec.cumulative.minimumDaily.value {
          account.Deposit(Cash(spec.currency, spec.cumulative.minimumDaily.value - totalCommission));
        }
        commissions := account.assets;
      }
      fees := FeesDaily(volumes);
    }

    /** One day of the first loop of `calculate`: the day's commissions and fees together, and its rounded commission. */
    method DaySums(date: NaiveDate, volumes: Assets) returns (total: Assets, commission: real)
      requires TierDefined(spec, rates, portfolioNetValue, date, volumes)
      ensures total == DailyTotal(spec, rates, portfolioNetValue, date, volumes)
      ensures commission == DayCommission(spec, rates, portfolioNetValue, date, volumes)
    {
      var commissions, fees := CalculateDaily(date, volumes);
      var commissionAccount := new MultiCurrencyCashAccount.Of(commissions);
      var feeAccount := new MultiCurrencyCashAccount.Of(fees);
      var account := new MultiCurrencyCashAccount();
      account.Add(commissionAccount);
      account.Add(feeAccount);
      MergedCommutes(map[], commissions);
      MergedNothing(commissions);
      total := account.assets;
      var dayTotal := commissionAccount.TotalAssets(rates, date, spec.currency);
      commission := RoundAmount(spec, dayTotal);
    }

    /** The first loop of `calculate`: the non-empty total of each day and the rounded commission of each month. */
    method AccumulateDays() returns (totals: map<NaiveDate, Assets>, monthly: map<(int, int), real>)
      requires AllTiersDefined(spec, rates, portfolioNetValue, volume)
      ensures totals == NonEmptyDays(DayTotals(spec, rates, portfolioNetValue, volume), volume.Keys)
      ensures monthly == MonthlyCommissions(DayCommissions(spec, rates, portfolioNetValue, volume), volume.Keys)
    {
      var trades := volume;
      totals := map[];
      monthly := map[];
      var pending := trades.Keys;
      ghost var done: set<NaiveDate> := {};
      while pending != {}
        invariant done + pending == trades.Keys && done !! pending
        invariant totals == NonEmptyDays(DayTotals(spec, rates, portfolioNetValue, trades), done)
        invariant monthly == MonthlyCommissions(DayCommissions(spec, rates, portfolioNetValue, trades), done)
        decreases pending
      {
        var date :| date in pending;
        totals, monthly := AccumulateDay(trades, done, date, totals, monthly);
        done := done + {date};
        pending := pending - {date};
      }
    }

    /** One day of the first loop of `calculate`: its non-empty total recorded, its rounded commission added to its month. */
    method AccumulateDay(trades: map<NaiveDate, Assets>, ghost done: set<NaiveDate>, date: NaiveDate,
                         totals: map<NaiveDate, Assets>, monthly: map<(int, int), real>)
      returns (nextTotals: map<NaiveDate, Assets>, nextMonthly: map<(int, int), real>)
      requires AllTiersDefined(spec, rates, portfolioNetValue, trades)
      requires date in trades && date !in done
      requires totals == NonEmptyDays(DayTotals(spec, rates, portfolioNetValue, trades), done)
      requires monthly == MonthlyCommissions(DayCommissions(spec, rates, portfolioNetValue, trades), done)
      ensures nextTotals == NonEmptyDays(DayTotals(spec, rates, portfolioNetValue, trades), done + {date})
      ensures nextMonthly == MonthlyCommissions(DayCommissions(spec, rates, portfolioNetValue, trades), done + {date})
    {
      ghost var days := DayCommissions(spec, rates, portfolioNetValue, trades);
      ghost var dayTotals := DayTotals(spec, rates, portfolioNetValue, trades);
      var total, commission := DaySums(date, trades[date]);
      DayEntries(spec, rates, portfolioNetValue, trades, date);
      if total != map[] {
        NonEmptyDayAdded(dayTotals, done, date, totals, total);
        nextTotals := totals[date := total];
      } else {
        NonEmptyDaySkipped(dayTotals, done, date, totals);
        nextTotals := totals;
      }
      MonthlyAccumulated(days, done, date, monthly, commission);
      nextMonthly := monthly[MonthOf(date) := MonthTotal(monthly, MonthOf(date)) + commission];
    }

    /** The monthly-minimum loop of `calculate`: each month below the minimum is charged the shortfall. */
    method ChargeMonthlyMinimum(totals: map<NaiveDate, Assets>, monthly: map<(int, int), real>, minimum: real)
      returns (r: map<NaiveDate, Assets>)
      requires forall m :: m in monthly ==> 1 <= m.1 <= 12
      ensures r == TopUps(totals, Shortfalls(monthly, monthly.Keys, minimum), spec.currency)
    {
      r := totals;
      var pending := monthly.Keys;
      ghost var done: set<(int, int)> := {};
      TopUpsNothing(totals, spec.currency);
      assert Shortfalls(monthly, done, minimum) == map[];
      while pending != {}
        invariant done + pending == monthly.Keys && done !! pending
        invariant r == TopUps(totals, Shortfalls(monthly, done, minimum), spec.currency)
        decreases pending
      {
        var month :| month in pending;
        if monthly[month] < minimum {
          ShortfallCharged(totals, monthly, done, month, minimum, spec.currency);
          r := Charge(r, MonthlyCommissionDate(month.0, month.1), Cash(spec.currency, minimum - monthly[month]));
        } else {
          ShortfallsSkip(monthly, done, month, minimum);
        }
        done := done + {month};
        pending := pending - {month};
      }
    }

    /** The depositary loop of `calculate`: every traded month is charged the same fee once. */
    method ChargeDepositary(totals: map<NaiveDate, Assets>, monthly: map<(int, int), real>, fee: real)
      returns (r: map<NaiveDate, Assets>)
      requires forall m :: m in monthly ==> 1 <= m.1 <= 12
      ensures r == TopUps(totals, FixedCharges(monthly, monthly.Keys, fee), spec.currency)
    {
      r := totals;
      var pending := monthly.Keys;
      ghost var done: set<(int, int)> := {};
      TopUpsNothing(totals, spec.currency);
      assert FixedCharges(monthly, done, fee) == map[];
      while pending != {}
        invariant done + pending == monthly.Keys && done !! pending
        invariant r == TopUps(totals, FixedCharges(monthly, done, fee), spec.currency)
        decreases pending
      {
        var month :| month in pending;
        var date := MonthlyCommissionDate(month.0, month.1);
        FixedChargeStep(totals, monthly, done, month, fee, spec.currency);
        r := Charge(r, date, Cash(spec.currency, fee));
        done := done + {month};
        pending := pending - {month};
      }
    }

    /** `calculate`: the charges of every date, with today's rate standing for the real-time rate. */
    method Calculate(today: NaiveDate) returns (totals: map<NaiveDate, Assets>)
      requires AllTiersDefined(spec, rates, portfolioNetValue, volume)
      requires DepositaryDefined(spec, rates, portfolioNetValue, today)
      ensures totals == Charges(spec, rates, portfolioNetValue, today, volume)
    {
      var monthly;
      totals, monthly := AccumulateDays();
      if spec.cumulative.minimumMonthly.Some? {
        totals := ChargeMonthlyMinimum(totals, monthly, spec.cumulative.minimumMonthly.value);
      }
      var tiers := spec.cumulative.monthlyDepositary;
      if |tiers| != 0 {
        var netValue := Converter.ConvertTo(rates, today, portfolioNetValue, spec.currency).amount;
        var fee := tiers[TierIndex(tiers, if netValue > 0.0 then netValue else 0.0)].1;
        if fee != 0.0 {
          totals := ChargeDepositary(totals, monthly, fee);
        }
      }
    }
  }
}
