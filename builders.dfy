/**
 * The commission specification builders (src/commissions/builders.rs). Each builder
 * holds the specification it is building; every setter returns it with one field
 * replaced, and the validating steps return a `Result`.
 *
 * The builders were written against an older layout of the cumulative rules (a bare
 * tier map and a single depositary amount); here `tiers` installs volume tiers and
 * `monthly_depositary` a single tier starting at zero, in the newer layout.
 */
module CommissionBuilders {
  import opened Wrappers
  import opened Commissions

  /** `TransactionCommissionSpec::default()`: nothing charged. */
  const NoTransactionCommission := TransactionCommissionSpec(None, None, None, None)

  /** `TradeCommissionSpec::default()`: no commission and no fees. */
  const NoTradeRules := TradeCommissionSpec(NoTransactionCommission, [])

  /** `CumulativeCommissionSpec::default()`: no cumulative rules. */
  const NoCumulativeRules := CumulativeCommissionSpec(None, None, None, [], [])

  /** `CommissionSpecBuilder::new`: rounding defaults to `Round`, with no trade or cumulative rules. */
  function NewCommissionSpec(currency: string): (r: CommissionSpec)
    ensures r.currency == currency && r.roundingMethod == Round
    ensures r.trade == NoTradeRules && r.cumulative == NoCumulativeRules
  {
    CommissionSpec(currency, Round, NoTradeRules, NoCumulativeRules)
  }

  /** `rounding_method`: only the rounding method changes. */
  function WithRoundingMethod(spec: CommissionSpec, rounding: RoundingMethod): (r: CommissionSpec)
    ensures r.roundingMethod == rounding
    ensures r.currency == spec.currency && r.trade == spec.trade && r.cumulative == spec.cumulative
  {
    spec.(roundingMethod := rounding)
  }

  /** `trade`: only the per-trade rules change. */
  function WithTrade(spec: CommissionSpec, trade: TradeCommissionSpec): (r: CommissionSpec)
    ensures r.trade == trade
    ensures r.currency == spec.currency && r.roundingMethod == spec.roundingMethod && r.cumulative == spec.cumulative
  {
    spec.(trade := trade)
  }

  /** `cumulative`: only the cumulative rules change. */
  function WithCumulative(spec: CommissionSpec, cumulative: CumulativeCommissionSpec): (r: CommissionSpec)
    ensures r.cumulative == cumulative
    ensures r.currency == spec.currency && r.roundingMethod == spec.roundingMethod && r.trade == spec.trade
  {
    spec.(cumulative := cumulative)
  }

  /** `TradeCommissionSpecBuilder::commission`: the fees are kept. */
  function WithCommission(trade: TradeCommissionSpec, commission: TransactionCommissionSpec): (r: TradeCommissionSpec)
    ensures r.commission == commission && r.transactionFees == trade.transactionFees
  {
    trade.(commission := commission)
  }

  /** `transaction_fee`: the fee is appended after the existing ones. */
  function WithTransactionFee(trade: TradeCommissionSpec, tradeType: TradeType, fee: TransactionCommissionSpec): (r: TradeCommissionSpec)
    ensures r.commission == trade.commission
    ensures |r.transactionFees| == |trade.transactionFees| + 1
    ensures r.transactionFees[..|trade.transactionFees|] == trade.transactionFees
    ensures r.transactionFees[|trade.transactionFees|] == (tradeType, fee)
  {
    trade.(transactionFees := trade.transactionFees + [(tradeType, fee)])
  }

  /** `minimum`. */
  function WithMinimum(t: TransactionCommissionSpec, minimum: real): (r: TransactionCommissionSpec)
    ensures r.minimum == Some(minimum)
    ensures r.percent == t.percent && r.perShare == t.perShare && r.maximumPercent == t.maximumPercent
  {
    t.(minimum := Some(minimum))
  }

  /** `per_share`. */
  function WithPerShare(t: TransactionCommissionSpec, perShare: real): (r: TransactionCommissionSpec)
    ensures r.perShare == Some(perShare)
    ensures r.percent == t.percent && r.minimum == t.minimum && r.maximumPercent == t.maximumPercent
  {
    t.(perShare := Some(perShare))
  }

  /** `percent`. */
  function WithPercent(t: TransactionCommissionSpec, percent: real): (r: TransactionCommissionSpec)
    ensures r.percent == Some(percent)
    ensures r.perShare == t.perShare && r.minimum == t.minimum && r.maximumPercent == t.maximumPercent
  {
    t.(percent := Some(percent))
  }

  /** `maximum_percent`. */
  function WithMaximumPercent(t: TransactionCommissionSpec, maximumPercent: real): (r: TransactionCommissionSpec)
    ensures r.maximumPercent == Some(maximumPercent)
    ensures r.percent == t.percent && r.perShare == t.perShare && r.minimum == t.minimum
  {
    t.(maximumPercent := Some(maximumPercent))
  }

  /** `TransactionCommissionSpecBuilder::build`: exactly one of the per-share and the percentage rates must be set. */
  function BuildTransaction(t: TransactionCommissionSpec): (r: Result<TransactionCommissionSpec>)
    ensures r.Ok? <==> (t.perShare.Some? && t.percent.None?) || (t.perShare.None? && t.percent.Some?)
    ensures r.Ok? ==> r.value == t
    ensures r.Err? ==> r.error == "Invalid commission specification"
  {
    match (t.perShare, t.percent)
    case (Some(_), None) => Ok(t)
    case (None, Some(_)) => Ok(t)
    case _ => Err("Invalid commission specification")
  }

  /** Building a transaction rule from nothing fails, and so does setting both rates. */
  lemma BuildTransactionRejects(perShare: real, percent: real)
    ensures BuildTransaction(NoTransactionCommission).Err?
    ensures BuildTransaction(WithPercent(WithPerShare(NoTransactionCommission, perShare), percent)).Err?
    ensures BuildTransaction(WithPerShare(NoTransactionCommission, perShare)).Ok?
    ensures BuildTransaction(WithPercent(NoTransactionCommission, percent)).Ok?
  {
  }

  /** The tier map has a tier starting at zero volume. */
  predicate HasZeroTier(tiers: seq<(real, real)>)
  {
    exists i :: 0 <= i < |tiers| && tiers[i].0 == 0.0
  }

  /** `CumulativeCommissionSpecBuilder::tiers`: the tiers must include one starting at zero. */
  function Tiers(c: CumulativeCommissionSpec, tiers: seq<(real, real)>): (r: Result<CumulativeCommissionSpec>)
    ensures r.Ok? <==> HasZeroTier(tiers)
    ensures r.Ok? ==> r.value == c.(percent := Some(CumulativeTieredSpec(Volume, tiers)))
    ensures r.Err? ==> r.error == "Invalid tiered commission specification: There is no tier with zero starting volume"
  {
    if |tiers| == 0 || !HasZeroTier(tiers) then
      Err("Invalid tiered commission specification: There is no tier with zero starting volume")
    else
      Ok(c.(percent := Some(CumulativeTieredSpec(Volume, tiers))))
  }

  /**
   * Accepted ascending tiers cover every non-negative volume, so the tier lookup of
   * `CumulativeTieredSpec::percent`, which unwraps its result, always finds a tier.
   */
  lemma {:induction false} AcceptedTiersCoverVolumes(c: CumulativeCommissionSpec, tiers: seq<(real, real)>, key: real)
    requires Ascending(tiers) && Tiers(c, tiers).Ok? && key >= 0.0
    ensures |tiers| > 0 && tiers[0].0 <= key
  {
    var i :| 0 <= i < |tiers| && tiers[i].0 == 0.0;
    if i > 0 {
      assert tiers[0].0 < tiers[i].0;
    }
  }

  /** `percent(p)`: the single tier `{0: p}`, which the tier check always accepts. */
  function Percent(c: CumulativeCommissionSpec, percent: real): (r: CumulativeCommissionSpec)
    ensures Tiers(c, [(0.0, percent)]) == Ok(r)
  {
    assert HasZeroTier([(0.0, percent)]) by {
      assert [(0.0, percent)][0].0 == 0.0;
    }
    Tiers(c, [(0.0, percent)]).value
  }

  /** A single-percent rule charges that percent on every non-negative day volume. */
  lemma PercentAppliesToEveryVolume(c: CumulativeCommissionSpec, percent: real, volume: real)
    requires volume >= 0.0
    ensures var tiers := Percent(c, percent).percent.value.tiers;
      |tiers| > 0 && tiers[0].0 <= volume && tiers[TierIndex(tiers, volume)].1 == percent
  {
  }

  /** `minimum_daily`. */
  function WithMinimumDaily(c: CumulativeCommissionSpec, minimum: real): (r: CumulativeCommissionSpec)
    ensures r.minimumDaily == Some(minimum)
    ensures r.percent == c.percent && r.minimumMonthly == c.minimumMonthly && r.fees == c.fees
      && r.monthlyDepositary == c.monthlyDepositary
  {
    c.(minimumDaily := Some(minimum))
  }

  /** `minimum_monthly`. */
  function WithMinimumMonthly(c: CumulativeCommissionSpec, minimum: real): (r: CumulativeCommissionSpec)
    ensures r.minimumMonthly == Some(minimum)
    ensures r.percent == c.percent && r.minimumDaily == c.minimumDaily && r.fees == c.fees
      && r.monthlyDepositary == c.monthlyDepositary
  {
    c.(minimumMonthly := Some(minimum))
  }

  /** `percent_fee`: the fee is appended after the existing ones. */
  function WithPercentFee(c: CumulativeCommissionSpec, percent: real): (r: CumulativeCommissionSpec)
    ensures r.fees == c.fees + [percent]
    ensures r.percent == c.percent && r.minimumDaily == c.minimumDaily && r.minimumMonthly == c.minimumMonthly
      && r.monthlyDepositary == c.monthlyDepositary
  {
    c.(fees := c.fees + [percent])
  }

  /** `monthly_depositary`: the same amount whatever the portfolio's net value. */
  function WithMonthlyDepositary(c: CumulativeCommissionSpec, amount: real): (r: CumulativeCommissionSpec)
    ensures r.monthlyDepositary == [(0.0, amount)]
    ensures r.percent == c.percent && r.minimumDaily == c.minimumDaily && r.minimumMonthly == c.minimumMonthly
      && r.fees == c.fees
  {
    c.(monthlyDepositary := [(0.0, amount)])
  }
}
