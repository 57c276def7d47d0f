/**
 * The tiered commission calculator (src/commissions/tiered.rs): each day's traded
 * volume is charged piecewise, every tier's percentage applying to the part of the
 * day's volume that falls in that tier, and `calculate` raises each day to the daily
 * minimum.
 *
 * Tiers are (start volume, percent) pairs, ascending by start volume.
 */
module TieredCommissions {
  import opened Wrappers
  import opened Dates
  import opened Currency
  import opened Commissions

  datatype TieredCommissionSpec = TieredCommissionSpec(currency: string, tiers: seq<(real, real)>, minimumDaily: Option<real>)

  /** The running state of one day: its current tier, its volume and its accrued commission. */
  datatype State = State(tier: nat, volume: real, commission: real)

  /** Tiers the calculator can work with: at least one, the first starting at zero volume, ascending. */
  predicate ValidTiers(tiers: seq<(real, real)>)
  {
    |tiers| > 0 && tiers[0].0 == 0.0 && Ascending(tiers)
  }

  /** Volume `v` lies in tier `k`: from its start up to, but excluding, the next tier's start. */
  predicate InTier(tiers: seq<(real, real)>, k: nat, v: real)
  {
    k < |tiers| && tiers[k].0 <= v && (k + 1 < |tiers| ==> v < tiers[k + 1].0)
  }

  /** The commission of a volume that fills every tier below `k` exactly. */
  function BaseCost(tiers: seq<(real, real)>, k: nat): real
    requires k < |tiers|
  {
    if k == 0 then 0.0 else BaseCost(tiers, k - 1) + PercentOf(tiers[k].0 - tiers[k - 1].0, tiers[k - 1].1)
  }

  /** The commission of a day volume `v` lying in tier `k`. */
  function CostIn(tiers: seq<(real, real)>, k: nat, v: real): real
    requires k < |tiers|
  {
    BaseCost(tiers, k) + PercentOf(v - tiers[k].0, tiers[k].1)
  }

  /** The state a day with volume `v` is in, however that volume was traded. */
  function StateFor(tiers: seq<(real, real)>, v: real): (s: State)
    requires |tiers| > 0 && tiers[0].0 <= v
    ensures s.volume == v && s.tier < |tiers|
  {
    var k := TierIndex(tiers, v);
    State(k, v, CostIn(tiers, k, v))
  }

  /** Ascending tiers put every volume in exactly one of them. */
  lemma InTierIsTierIndex(tiers: seq<(real, real)>, k: nat, v: real)
    requires Ascending(tiers) && InTier(tiers, k, v)
    ensures TierIndex(tiers, v) == k
  {
    var i := TierIndex(tiers, v);
  }

  /** A day that has not traded yet. */
  lemma EmptyDayState(tiers: seq<(real, real)>)
    requires ValidTiers(tiers)
    ensures StateFor(tiers, 0.0) == State(0, 0.0, 0.0)
  {
    InTierIsTierIndex(tiers, 0, 0.0);
  }

  lemma PercentOfAdd(a: real, b: real, percent: real)
    ensures PercentOf(a, percent) + PercentOf(b, percent) == PercentOf(a + b, percent)
  {
  }

  /** `State::add_volume`: the volume grows, and so does the commission at the current tier's percentage. */
  function AddVolume(tiers: seq<(real, real)>, s: State, volume: real): (r: State)
    requires s.tier < |tiers|
    ensures r.tier == s.tier && r.volume == s.volume + volume
  {
    State(s.tier, s.volume + volume, s.commission + PercentOf(volume, tiers[s.tier].1))
  }

  /** Volume added within a tier keeps the commission on the cost curve. */
  lemma AddVolumeKeepsCost(tiers: seq<(real, real)>, s: State, volume: real)
    requires s.tier < |tiers| && s.commission == CostIn(tiers, s.tier, s.volume)
    ensures AddVolume(tiers, s, volume).commission == CostIn(tiers, s.tier, s.volume + volume)
  {
    PercentOfAdd(s.volume - tiers[s.tier].0, volume, tiers[s.tier].1);
  }

  /** At the start of the next tier both tiers' cost formulas agree. */
  lemma CostAtTierBoundary(tiers: seq<(real, real)>, k: nat)
    requires k + 1 < |tiers|
    ensures CostIn(tiers, k, tiers[k + 1].0) == CostIn(tiers, k + 1, tiers[k + 1].0)
  {
  }

  /** The volume left stays in the current tier: it is charged there and the loop ends. */
  lemma LastTier(tiers: seq<(real, real)>, s: State, volume: real)
    requires InTier(tiers, s.tier, s.volume) && s.commission == CostIn(tiers, s.tier, s.volume) && volume > 0.0
    requires s.tier + 1 < |tiers| ==> s.volume + volume < tiers[s.tier + 1].0
    ensures InTier(tiers, s.tier, AddVolume(tiers, s, volume).volume)
    ensures AddVolume(tiers, s, volume).commission == CostIn(tiers, s.tier, s.volume + volume)
  {
    AddVolumeKeepsCost(tiers, s, volume);
  }

  /** Filling the current tier up to the next tier's start moves the day into the next tier. */
  lemma NextTier(tiers: seq<(real, real)>, s: State)
    requires Ascending(tiers) && InTier(tiers, s.tier, s.volume) && s.commission == CostIn(tiers, s.tier, s.volume)
    requires s.tier + 1 < |tiers|
    ensures var next := AddVolume(tiers, s, tiers[s.tier + 1].0 - s.volume).(tier := s.tier + 1);
      InTier(tiers, next.tier, next.volume) && next.commission == CostIn(tiers, next.tier, next.volume)
      && next.volume == tiers[s.tier + 1].0
  {
    AddVolumeKeepsCost(tiers, s, tiers[s.tier + 1].0 - s.volume);
    CostAtTierBoundary(tiers, s.tier);
    if s.tier + 2 < |tiers| {
      assert tiers[s.tier + 1].0 < tiers[s.tier + 2].0;
    }
  }

  /** The state's tier holds its volume and its commission is the cost of that volume. */
  predicate OnCurve(tiers: seq<(real, real)>, s: State)
  {
    InTier(tiers, s.tier, s.volume) && s.commission == CostIn(tiers, s.tier, s.volume)
  }

  /** With ascending tiers the states on the cost curve are exactly the ones `StateFor` gives. */
  lemma OnCurveIsStateFor(tiers: seq<(real, real)>, s: State)
    requires Ascending(tiers)
    ensures OnCurve(tiers, s) <==> |tiers| > 0 && tiers[0].0 <= s.volume && s == StateFor(tiers, s.volume)
  {
    if OnCurve(tiers, s) {
      InTierIsTierIndex(tiers, s.tier, s.volume);
    }
  }

  /** A day's state is the one its volume determines. */
  predicate DayValid(tiers: seq<(real, real)>, s: State)
  {
    s.volume >= 0.0 && |tiers| > 0 && tiers[0].0 <= s.volume && s == StateFor(tiers, s.volume)
  }

  /** The state of a date, or the empty state `or_insert_with` creates. */
  function StateOn(state: map<NaiveDate, State>, date: NaiveDate): State
  {
    if date in state then state[date] else State(0, 0.0, 0.0)
  }

  /** The days after a trade of `amount` on `date`: that day's state is the one for its new volume. */
  function AfterTrade(tiers: seq<(real, real)>, state: map<NaiveDate, State>, date: NaiveDate, amount: real): (r: map<NaiveDate, State>)
    requires |tiers| > 0 && tiers[0].0 <= StateOn(state, date).volume + amount
  {
    state[date := StateFor(tiers, StateOn(state, date).volume + amount)]
  }

  /** The state the tier loop ends in is the one `AfterTrade` records, and every day stays valid. */
  lemma TradeRecorded(tiers: seq<(real, real)>, state: map<NaiveDate, State>, date: NaiveDate, s: State, amount: real)
    requires Ascending(tiers) && DaysValid(tiers, state)
    requires OnCurve(tiers, s) && s.volume == StateOn(state, date).volume + amount && s.volume >= 0.0
    ensures |tiers| > 0 && tiers[0].0 <= StateOn(state, date).volume + amount
    ensures state[date := s] == AfterTrade(tiers, state, date, amount)
    ensures DaysValid(tiers, state[date := s])
  {
    OnCurveIsStateFor(tiers, s);
    DaysValidUpdate(tiers, state, date, s);
  }

  /** Every day's state is the one its volume determines. */
  predicate DaysValid(tiers: seq<(real, real)>, state: map<NaiveDate, State>)
  {
    forall d :: d in state ==> DayValid(tiers, state[d])
  }

  /** The state a date starts from is valid, recorded or empty. */
  lemma EmptyDayValid(tiers: seq<(real, real)>, state: map<NaiveDate, State>, date: NaiveDate)
    requires ValidTiers(tiers) && DaysValid(tiers, state)
    ensures DayValid(tiers, StateOn(state, date))
  {
    EmptyDayState(tiers);
  }

  /** Recording a valid day keeps every day valid. */
  lemma DaysValidUpdate(tiers: seq<(real, real)>, state: map<NaiveDate, State>, date: NaiveDate, s: State)
    requires DaysValid(tiers, state) && DayValid(tiers, s)
    ensures DaysValid(tiers, state[date := s])
  {
  }

  /** `get_trade_volume`: the trade volume, which must be in the commission currency. */
  function TradeVolume(currency: string, volume: Cash): (r: Result<real>)
    ensures r.Ok? <==> volume.currency == currency
    ensures r.Ok? ==> r.value == volume.amount
  {
    if volume.currency != currency then
      Err("Unable to calculate trade commission: Commission currency doesn't match trade currency")
    else
      Ok(volume.amount)
  }

  class TieredCommissionCalc {
    const spec: TieredCommissionSpec
    var state: map<NaiveDate, State>

    /** Every traded day's state is the one its volume determines. */
    predicate Valid()
      reads this
    {
      ValidTiers(spec.tiers) && DaysValid(spec.tiers, state)
    }

    constructor (spec: TieredCommissionSpec)
      requires ValidTiers(spec.tiers)
      ensures this.spec == spec && state == map[]
      ensures Valid()
    {
      this.spec := spec;
      state := map[];
    }

    /**
     * `add_trade`: moves the trade's volume through the tiers, charging each part at
     * its tier's percentage, and returns a zero commission. The day's entry is created
     * before the currency check, so a rejected trade still leaves an empty day behind.
     */
    method AddTrade(date: NaiveDate, tradeType: TradeType, shares: nat, price: Cash) returns (r: Result<Cash>)
      requires Valid()
      requires price.currency == spec.currency ==> MulBy(price, shares as real).amount >= 0.0
      modifies this`state
      ensures Valid()
      ensures r.Ok? <==> price.currency == spec.currency
      ensures r.Ok? ==> r.value == Cash(spec.currency, 0.0)
      ensures r.Err? ==> state == old(state)[date := StateOn(old(state), date)]
      ensures r.Ok? ==> state == AfterTrade(spec.tiers, old(state), date, MulBy(price, shares as real).amount)
    {
      var before := state;
      var st := StateOn(before, date);
      EmptyDayValid(spec.tiers, before, date);
      state := state[date := st];
      DaysValidUpdate(spec.tiers, before, date, st);
      var tradeVolume := TradeVolume(spec.currency, MulBy(price, shares as real));
      if tradeVolume.Err? {
        return Err(tradeVolume.error);
      }
      var amount := tradeVolume.value;
      OnCurveIsStateFor(spec.tiers, st);
      st := AddAcrossTiers(st, amount);
      TradeRecorded(spec.tiers, before, date, st, amount);
      state := before[date := st];
      r := Ok(Cash(spec.currency, 0.0));
    }

    /**
     * The loop of `add_trade`: the volume fills the current tier up to the next tier's
     * start, moves on, and stops in the tier where the day's volume now lies.
     */
    method AddAcrossTiers(s: State, volume: real) returns (st: State)
      requires Ascending(spec.tiers) && OnCurve(spec.tiers, s) && volume >= 0.0
      ensures OnCurve(spec.tiers, st) && st.volume == s.volume + volume
    {
      var tiers := spec.tiers;
      st := s;
      var remaining := volume;
      ghost var total := st.volume + remaining;

      while remaining != 0.0
        invariant InTier(tiers, st.tier, st.volume) && st.commission == CostIn(tiers, st.tier, st.volume)
        invariant remaining >= 0.0 && st.volume + remaining == total
        decreases |tiers| - st.tier
      {
        if st.tier == |tiers| - 1 {
          LastTier(tiers, st, remaining);
          st := AddVolume(tiers, st, remaining);
          break;
        }
        var nextTierVolume := tiers[st.tier + 1].0;
        if st.volume + remaining < nextTierVolume {
          LastTier(tiers, st, remaining);
          st := AddVolume(tiers, st, remaining);
          break;
        }
        var currentVolume := nextTierVolume - st.volume;
        NextTier(tiers, st);
        st := AddVolume(tiers, st, currentVolume);
        remaining := remaining - currentVolume;
        st := st.(tier := st.tier + 1);
      }
    }

    /** `calculate`: each day's accrued commission, raised to the daily minimum. */
    function Calculate(): (r: map<NaiveDate, Cash>)
      reads this
      ensures r.Keys == state.Keys
      ensures forall d :: d in r ==> r[d].currency == spec.currency && r[d].amount >= state[d].commission
      ensures forall d :: d in r && spec.minimumDaily.Some? ==> r[d].amount >= spec.minimumDaily.value
      ensures forall d :: d in r ==>
        r[d].amount == state[d].commission || (spec.minimumDaily.Some? && r[d].amount == spec.minimumDaily.value)
    {
      map d | d in state ::
        var commission := state[d].commission;
        Cash(spec.currency,
             if spec.minimumDaily.Some? && commission < spec.minimumDaily.value then spec.minimumDaily.value else commission)
    }
  }

  /** The BCS tiers of the unit test: 0.0631% up to 100 000 and 0.0513% above, with no daily minimum. */
  const BcsSpec := TieredCommissionSpec("RUB", [(0.0, 0.0531 + 0.01), (100_000.0, 0.0413 + 0.01)], None)

  /**
   * The unit test's three trades on one day, 165 742.5 in all: the first 100 000 cost
   * 63.1 and the remaining 65 742.5 cost 33.7259025.
   */
  method BcsExample() returns (commissions: seq<Cash>, r: map<NaiveDate, Cash>)
    ensures commissions == [Cash("RUB", 0.0), Cash("RUB", 0.0), Cash("RUB", 0.0)]
    ensures r == map[Date(2019, 12, 2) := Cash("RUB", 96.8259025)]
  {
    var date := Date(2019, 12, 2);
    var calculator := new TieredCommissionCalc(BcsSpec);
    commissions := BcsTrades(calculator, date);
    r := calculator.Calculate();
    SingleDay(r, date, Cash("RUB", 96.8259025));
  }

  /** The three trades of the unit test on a fresh calculator. */
  method BcsTrades(calculator: TieredCommissionCalc, date: NaiveDate) returns (commissions: seq<Cash>)
    requires calculator.Valid() && calculator.spec == BcsSpec && calculator.state == map[]
    modifies calculator
    ensures calculator.spec == BcsSpec
    ensures commissions == [Cash("RUB", 0.0), Cash("RUB", 0.0), Cash("RUB", 0.0)]
    ensures calculator.state == map[date := State(1, 165742.5, 96.8259025)]
  {
    BcsDay(date);
    assert MulBy(Cash("RUB", 2959.5), 35 as real).amount == 103582.5;
    var first := calculator.AddTrade(date, Buy, 35, Cash("RUB", 2959.5));
    assert MulBy(Cash("RUB", 2960.0), 3 as real).amount == 8880.0;
    var second := calculator.AddTrade(date, Buy, 3, Cash("RUB", 2960.0));
    assert MulBy(Cash("RUB", 2960.0), 18 as real).amount == 53280.0;
    var third := calculator.AddTrade(date, Buy, 18, Cash("RUB", 2960.0));
    commissions := [first.value, second.value, third.value];
  }

  lemma SingleDay(r: map<NaiveDate, Cash>, date: NaiveDate, c: Cash)
    requires r.Keys == {date} && date in r && r[date] == c
    ensures r == map[date := c]
  {
  }

  /** The day's states after each of the three trades. */
  lemma BcsDay(date: NaiveDate)
    ensures var tiers := BcsSpec.tiers;
      var one := AfterTrade(tiers, map[], date, 103582.5);
      var two := AfterTrade(tiers, one, date, 8880.0);
      AfterTrade(tiers, two, date, 53280.0) == map[date := State(1, 165742.5, 96.8259025)]
  {
    var tiers := BcsSpec.tiers;
    InTierIsTierIndex(tiers, 1, 103582.5);
    InTierIsTierIndex(tiers, 1, 112462.5);
    InTierIsTierIndex(tiers, 1, 165742.5);
    assert AfterTrade(tiers, map[], date, 103582.5) == map[date := StateFor(tiers, 103582.5)];
  }
}
