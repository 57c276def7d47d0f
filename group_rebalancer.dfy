/**
 * The top-down second step of portfolio rebalancing (`AssetGroupRebalancer` of
 * src/portfolio/rebalancing.rs): one group's total is spread over its assets by
 * weight, rounded to whole trade units, cut to the assets' bounds, corrected by the
 * smallest trades, and pushed down into the subgroups. A running balance keeps
 * what the group's assets were given too much or too little, and every step keeps
 * the sum of the targets plus the balance unchanged.
 */
module GroupRebalancing {
  import opened Wrappers
  import opened Rebalancing
  import Decimals
  import Commissions

  /** The sum of the target values, accumulated from the front. */
  function TargetSum(assets: seq<Asset>): real
    decreases |assets|
  {
    if |assets| == 0 then 0.0 else TargetSum(assets[..|assets| - 1]) + assets[|assets| - 1].targetValue
  }

  /** The sum of the expected weights, accumulated from the front. */
  function WeightSum(assets: seq<Asset>): real
    decreases |assets|
  {
    if |assets| == 0 then 0.0 else WeightSum(assets[..|assets| - 1]) + assets[|assets| - 1].expectedWeight
  }

  /** Replacing one asset changes the sum of the targets by the change of its target. */
  lemma {:induction false} TargetSumUpdate(assets: seq<Asset>, i: int, asset: Asset)
    requires 0 <= i < |assets|
    ensures TargetSum(assets[i := asset]) == TargetSum(assets) - assets[i].targetValue + asset.targetValue
    decreases |assets|
  {
    var updated := assets[i := asset];
    if i < |assets| - 1 {
      TargetSumUpdate(assets[..|assets| - 1], i, asset);
      assert updated[..|assets| - 1] == assets[..|assets| - 1][i := asset];
    } else {
      assert updated[..|assets| - 1] == assets[..|assets| - 1];
    }
  }

  /** Assets with the same weights have the same sum of weights. */
  lemma {:induction false} WeightSumSame(a: seq<Asset>, b: seq<Asset>)
    requires |a| == |b| && forall k :: 0 <= k < |a| ==> a[k].expectedWeight == b[k].expectedWeight
    ensures WeightSum(a) == WeightSum(b)
    decreases |a|
  {
    if |a| > 0 {
      WeightSumSame(a[..|a| - 1], b[..|b| - 1]);
    }
  }

  /** Whether the rebalancer can divide by every granularity of the tree. */
  predicate Tradable(asset: Asset)
    decreases asset
  {
    asset.sellGranularity > 0.0 && asset.buyGranularity > 0.0
    && match asset.holding
      case Stock(granularity) => granularity != 0.0
      case Group(children) => forall k :: 0 <= k < |children| ==> Tradable(children[k])
  }

  /** What the rebalancer does not change about an asset. */
  predicate SameSettings(before: Asset, after: Asset)
  {
    after.expectedWeight == before.expectedWeight && after.restrictSelling == before.restrictSelling
    && after.restrictBuying == before.restrictBuying && after.currentValue == before.currentValue
    && after.minValue == before.minValue && after.maxValue == before.maxValue
    && after.sellGranularity == before.sellGranularity && after.buyGranularity == before.buyGranularity
    && after.holding.Group? == before.holding.Group?
    && (after.holding.Stock? ==> after.holding == before.holding)
  }

  /** The assets of a group whose subtrees are those of `shape`, the ghost measure of the recursion. */
  predicate Shaped(shape: Holding, assets: seq<Asset>)
  {
    shape.Group? && |shape.assets| == |assets|
    && forall k :: 0 <= k < |assets| ==> assets[k].holding == shape.assets[k].holding
  }

  /** An asset's share of the group's total. */
  function Share(total: real, weight: real): real
  {
    total * weight
  }

  lemma ShareAdd(total: real, a: real, b: real)
    ensures Share(total, a) + Share(total, b) == Share(total, a + b)
  {
  }

  function Abs(x: real): real
  {
    if x < 0.0 then -x else x
  }

  /** A stock's difference rounded to whole trade units, one unit less of a sale when it would sell more than is held. */
  function StockDifference(difference: real, current: real, granularity: real): real
    requires granularity != 0.0
  {
    var units := Decimals.Round(difference / granularity, 0) * granularity;
    if units < 0.0 && -units > current then units + granularity else units
  }

  /** The difference `calculate_initial_target_values` plans for an asset before the minimum trade volume. */
  function PlannedDifference(asset: Asset, targetTotalValue: real): real
    requires asset.holding.Stock? ==> asset.holding.granularity != 0.0
  {
    var difference := Share(targetTotalValue, asset.expectedWeight) - asset.currentValue;
    match asset.holding
    case Stock(granularity) => StockDifference(difference, asset.currentValue, granularity)
    case Group(_) => difference
  }

  /**
   * The target `calculate_initial_target_values` gives an asset: its share of the
   * group's total, a stock's difference from its current value rounded to whole trade
   * units, and a difference below the minimum trade volume dropped.
   */
  function InitialTarget(asset: Asset, targetTotalValue: real, minTradeVolume: real): real
    requires asset.holding.Stock? ==> asset.holding.granularity != 0.0
  {
    var difference := PlannedDifference(asset, targetTotalValue);
    asset.currentValue + if Abs(difference) < minTradeVolume then 0.0 else difference
  }

  /** The initial target does not depend on the target before. */
  lemma InitialTargetIgnoresTarget(asset: Asset, target: real, targetTotalValue: real, minTradeVolume: real)
    requires asset.holding.Stock? ==> asset.holding.granularity != 0.0
    ensures InitialTarget(asset.(targetValue := target), targetTotalValue, minTradeVolume)
      == InitialTarget(asset, targetTotalValue, minTradeVolume)
  {
    assert PlannedDifference(asset.(targetValue := target), targetTotalValue) == PlannedDifference(asset, targetTotalValue);
  }

  /** The planned trade is none or at least the minimum trade volume. */
  lemma InitialTradeLargeEnough(asset: Asset, targetTotalValue: real, minTradeVolume: real)
    requires asset.holding.Stock? ==> asset.holding.granularity != 0.0
    ensures TradeLargeEnough(InitialTarget(asset, targetTotalValue, minTradeVolume), asset.currentValue, minTradeVolume)
  {
  }

  /** Rounding gives whole trade units. */
  lemma StockDifferenceWholeUnits(difference: real, current: real, granularity: real)
    requires granularity != 0.0
    ensures exists units: int :: StockDifference(difference, current, granularity) == Units(units, granularity)
  {
    var q := Decimals.Round(difference / granularity, 0);
    assert q == Decimals.RoundWhole(difference / granularity);
    var n := q.Floor;
    assert q == n as real;
    assert q * granularity == Units(n, granularity);
    assert Units(n, granularity) + granularity == Units(n + 1, granularity);
  }

  /** A stock's planned trade is a whole number of trade units. */
  lemma InitialTradeWholeUnits(asset: Asset, targetTotalValue: real, minTradeVolume: real)
    requires asset.holding.Stock? && asset.holding.granularity != 0.0
    ensures exists units: int ::
      InitialTarget(asset, targetTotalValue, minTradeVolume) - asset.currentValue == Units(units, asset.holding.granularity)
  {
    var granularity := asset.holding.granularity;
    var difference := Share(targetTotalValue, asset.expectedWeight) - asset.currentValue;
    var planned := PlannedDifference(asset, targetTotalValue);
    assert planned == StockDifference(difference, asset.currentValue, granularity);
    var target := InitialTarget(asset, targetTotalValue, minTradeVolume);
    if Abs(planned) < minTradeVolume {
      assert target - asset.currentValue == Units(0, granularity);
    } else {
      StockDifferenceWholeUnits(difference, asset.currentValue, granularity);
      var units: int :| planned == Units(units, granularity);
      assert target - asset.currentValue == Units(units, granularity);
    }
  }

  lemma HalfUnitBelow(x: real, q: real, granularity: real)
    requires granularity > 0.0 && x - 0.5 <= q
    ensures q * granularity >= x * granularity - 0.5 * granularity
  {
    ScaleByPositive(x - 0.5, q, granularity);
  }

  /** Rounding to whole units never plans to sell more than is held. */
  lemma StockDifferenceNotBelowHolding(difference: real, current: real, granularity: real)
    requires granularity > 0.0 && current >= 0.0 && difference >= -current
    ensures current + StockDifference(difference, current, granularity) >= 0.0
  {
    var x := difference / granularity;
    var q := Decimals.Round(x, 0);
    assert q == Decimals.RoundWhole(x);
    assert x * granularity == difference;
    HalfUnitBelow(x, q, granularity);
    var units := q * granularity;
    assert units >= difference - 0.5 * granularity;
    assert StockDifference(difference, current, granularity) == if units < 0.0 && -units > current then units + granularity else units;
  }

  /** A stock's initial target is not negative when neither its share nor its holding is. */
  lemma InitialTargetNotNegative(asset: Asset, targetTotalValue: real, minTradeVolume: real)
    requires asset.holding.Stock? && asset.holding.granularity > 0.0
    requires asset.currentValue >= 0.0 && Share(targetTotalValue, asset.expectedWeight) >= 0.0
    ensures InitialTarget(asset, targetTotalValue, minTradeVolume) >= 0.0
  {
    var difference := Share(targetTotalValue, asset.expectedWeight) - asset.currentValue;
    StockDifferenceNotBelowHolding(difference, asset.currentValue, asset.holding.granularity);
  }

  /** `apply_restrictions` on one asset: cut to the greatest value, then raised to the least one, with the blocked flags. */
  function Restrict(asset: Asset): Asset
  {
    var capped :=
      if asset.maxValue.Some? && asset.targetValue > asset.maxValue.value then
        asset.(
          buyBlocked := asset.buyBlocked || (asset.restrictBuying && asset.targetValue > asset.currentValue),
          targetValue := asset.maxValue.value)
      else asset;
    if capped.targetValue < capped.minValue then capped.(sellBlocked := true, targetValue := capped.minValue)
    else capped
  }

  /** Bounds that can be met are met after the restrictions, and an asset within them keeps its target. */
  lemma RestrictMeetsBounds(asset: Asset)
    requires asset.maxValue.Some? ==> asset.maxValue.value >= asset.minValue
    ensures InBounds(Restrict(asset))
    ensures InBounds(asset) ==> Restrict(asset) == asset
    ensures SameSettings(asset, Restrict(asset)) && Restrict(asset).holding == asset.holding
  {
  }

  /** A target the restrictions move is moved onto the bound it crossed. */
  lemma RestrictMovesToBound(asset: Asset)
    requires asset.maxValue.Some? ==> asset.maxValue.value >= asset.minValue
    ensures Restrict(asset).targetValue != asset.targetValue ==>
      (asset.targetValue < asset.minValue && Restrict(asset).targetValue == asset.minValue)
      || (asset.maxValue.Some? && asset.targetValue > asset.maxValue.value && Restrict(asset).targetValue == asset.maxValue.value)
  {
  }

  /** An asset that changed at most in its target and blocked flags and, for a group, in its subtree's targets. */
  predicate KeepsTree(before: Asset, after: Asset)
  {
    SameSettings(before, after) && after.holding == before.holding
  }

  /** Two states of a group's assets in which only targets and blocked flags differ. */
  predicate SameTrees(before: seq<Asset>, after: seq<Asset>)
  {
    |before| == |after| && forall k :: 0 <= k < |before| ==> KeepsTree(before[k], after[k])
  }

  lemma SameTreesTransitive(a: seq<Asset>, b: seq<Asset>, c: seq<Asset>)
    requires SameTrees(a, b) && SameTrees(b, c)
    ensures SameTrees(a, c)
  {
  }

  /** Keeping the trees keeps the shape and what can be traded. */
  lemma SameTreesShaped(shape: Holding, a: seq<Asset>, b: seq<Asset>)
    requires Shaped(shape, a) && forall k :: 0 <= k < |a| ==> Tradable(a[k])
    requires SameTrees(a, b)
    ensures Shaped(shape, b) && forall k :: 0 <= k < |b| ==> Tradable(b[k])
  {
    forall k | 0 <= k < |b|
      ensures Tradable(b[k])
    {
      assert KeepsTree(a[k], b[k]);
    }
  }

  /** The settings after all four steps are those before. */
  lemma SettingsTransitive(a: seq<Asset>, b: seq<Asset>, c: seq<Asset>)
    requires SameTrees(a, b) && |b| == |c| && forall k :: 0 <= k < |b| ==> SameSettings(b[k], c[k])
    ensures forall k :: 0 <= k < |a| ==> SameSettings(a[k], c[k])
  {
  }

  predicate IsIndex(k: int, n: int)
  {
    0 <= k < n
  }

  /** Only the targets differ, and a target within its asset's bounds stayed within them. */
  predicate Unmoved(before: seq<Asset>, after: seq<Asset>)
  {
    |before| == |after|
    && forall k :: 0 <= k < |before| ==>
      after[k] == before[k].(targetValue := after[k].targetValue) && (InBounds(before[k]) ==> InBounds(after[k]))
  }

  lemma UnmovedStep(start: seq<Asset>, before: seq<Asset>, after: seq<Asset>, index: int)
    requires Unmoved(start, before) && 0 <= index < |before| && |after| == |before|
    requires after == before[index := before[index].(targetValue := after[index].targetValue)]
    requires InBounds(before[index]) ==> InBounds(after[index])
    ensures Unmoved(start, after)
  {
  }

  lemma UnmovedTransitive(a: seq<Asset>, b: seq<Asset>, c: seq<Asset>)
    requires Unmoved(a, b) && Unmoved(b, c)
    ensures Unmoved(a, c) && SameTrees(a, c)
  {
  }

  /** A whole share of a total is the total. */
  lemma ShareOfWhole(total: real, weight: real)
    ensures weight == 1.0 ==> Share(total, weight) == total
  {
  }

  /** A group whose weights add up to one ends with the sum of its children's targets as its own. */
  predicate GroupAddsUp(before: Asset, after: Asset)
  {
    before.holding.Group? && WeightSum(before.holding.assets) == 1.0
    ==> after.holding.Group? && after.targetValue == TargetSum(after.holding.assets)
  }

  class AssetGroupRebalancer {
    const assets: array<Asset>
    const targetTotalValue: real
    const minTradeVolume: real
    var balance: real

    constructor(assets: array<Asset>, targetTotalValue: real, minTradeVolume: real)
      ensures this.assets == assets && this.targetTotalValue == targetTotalValue
      ensures this.minTradeVolume == minTradeVolume && balance == 0.0
    {
      this.assets := assets;
      this.targetTotalValue := targetTotalValue;
      this.minTradeVolume := minTradeVolume;
      balance := 0.0;
    }

    /** The first loop of `calculate_initial_target_values`: every asset's share of the total. */
    method SpreadByWeight()
      modifies assets
      ensures forall k :: 0 <= k < assets.Length ==>
        assets[k] == old(assets[k]).(targetValue := Share(targetTotalValue, old(assets[k]).expectedWeight))
      ensures TargetSum(assets[..]) == Share(targetTotalValue, WeightSum(old(assets[..])))
    {
      for i := 0 to assets.Length
        invariant forall k :: 0 <= k < i ==> assets[k] == old(assets[k]).(targetValue := Share(targetTotalValue, old(assets[k]).expectedWeight))
        invariant forall k :: i <= k < assets.Length ==> assets[k] == old(assets[k])
        invariant TargetSum(assets[..i]) == Share(targetTotalValue, WeightSum(assets[..i]))
      {
        assets[i] := assets[i].(targetValue := Share(targetTotalValue, assets[i].expectedWeight));
        assert assets[..i + 1][..i] == assets[..i];
        ShareAdd(targetTotalValue, WeightSum(assets[..i]), assets[i].expectedWeight);
      }
      assert assets[..assets.Length] == assets[..];
      WeightSumSame(assets[..], old(assets[..]));
    }

    /** The second loop of `calculate_initial_target_values`: every target rounded, the balance taking the difference. */
    method RoundTargets()
      requires forall k :: 0 <= k < assets.Length && assets[k].holding.Stock? ==> assets[k].holding.granularity != 0.0
      modifies this, assets
      ensures forall k :: 0 <= k < assets.Length ==>
        assets[k] == old(assets[k]).(targetValue := InitialTarget(old(assets[k]), targetTotalValue, minTradeVolume))
      ensures TargetSum(assets[..]) + balance == old(TargetSum(assets[..]) + balance)
    {
      for i := 0 to assets.Length
        invariant forall k :: 0 <= k < i ==> assets[k] == old(assets[k]).(targetValue := InitialTarget(old(assets[k]), targetTotalValue, minTradeVolume))
        invariant forall k :: i <= k < assets.Length ==> assets[k] == old(assets[k])
        invariant TargetSum(assets[..]) + balance == old(TargetSum(assets[..]) + balance)
      {
        var target := InitialTarget(assets[i], targetTotalValue, minTradeVolume);
        TargetSumUpdate(assets[..], i, assets[i].(targetValue := target));
        balance := balance + assets[i].targetValue - target;
        assets[i] := assets[i].(targetValue := target);
      }
    }

    /**
     * `calculate_initial_target_values`: every asset gets its share of the total, then
     * its rounded target; what rounding takes or adds goes to the balance.
     */
    method CalculateInitialTargetValues()
      requires forall k :: 0 <= k < assets.Length && assets[k].holding.Stock? ==> assets[k].holding.granularity != 0.0
      modifies this, assets
      ensures forall k :: 0 <= k < assets.Length ==>
        assets[k] == old(assets[k]).(targetValue := InitialTarget(old(assets[k]), targetTotalValue, minTradeVolume))
      ensures TargetSum(assets[..]) + balance == old(balance) + Share(targetTotalValue, WeightSum(old(assets[..])))
      ensures SameTrees(old(assets[..]), assets[..])
    {
      ghost var start := assets[..];
      SpreadByWeight();
      ghost var spread := assets[..];
      forall k | 0 <= k < assets.Length
        ensures InitialTarget(spread[k], targetTotalValue, minTradeVolume) == InitialTarget(start[k], targetTotalValue, minTradeVolume)
      {
        InitialTargetIgnoresTarget(start[k], spread[k].targetValue, targetTotalValue, minTradeVolume);
      }
      RoundTargets();
    }

    /**
     * `apply_restrictions`: every target is cut to its asset's bounds, the balance
     * taking the difference.
     */
    method ApplyRestrictions()
      modifies this, assets
      ensures forall k :: 0 <= k < assets.Length ==> assets[k] == Restrict(old(assets[k]))
      ensures TargetSum(assets[..]) + balance == old(TargetSum(assets[..]) + balance)
      ensures SameTrees(old(assets[..]), assets[..])
    {
      for i := 0 to assets.Length
        invariant forall k :: 0 <= k < i ==> assets[k] == Restrict(old(assets[k]))
        invariant forall k :: i <= k < assets.Length ==> assets[k] == old(assets[k])
        invariant TargetSum(assets[..]) + balance == old(TargetSum(assets[..]) + balance)
      {
        var restricted := Restrict(assets[i]);
        TargetSumUpdate(assets[..], i, restricted);
        balance := balance + assets[i].targetValue - restricted.targetValue;
        assets[i] := restricted;
      }
    }

    /** Whether the rebalancer's assets can all be traded. */
    predicate Granular()
      reads this, assets
    {
      forall k :: 0 <= k < assets.Length ==> assets[k].sellGranularity > 0.0 && assets[k].buyGranularity > 0.0
    }

    /** The balance correction wants sales while the balance is negative and purchases while it is not. */
    predicate Correcting(tradeType: Commissions.TradeType)
      reads this
    {
      if tradeType.Sell? then balance < 0.0 else balance >= 0.0
    }

    /** One trade of the balance correction: the asset's target moves by the volume, the balance the other way. */
    method MakeTrade(tradeType: Commissions.TradeType, index: int)
      requires 0 <= index < assets.Length && Granular()
      requires MinTradeVolume(tradeType, assets[index], balance, minTradeVolume).Some?
      modifies this, assets
      ensures assets[..] == old(assets[..])[index := old(assets[index]).(targetValue := assets[index].targetValue)]
      ensures TargetSum(assets[..]) + balance == old(TargetSum(assets[..]) + balance)
      ensures old(InBounds(assets[index])) ==> InBounds(assets[index])
      ensures old(balance) >= 0.0 ==> balance >= 0.0
    {
      var volume := MinTradeVolume(tradeType, assets[index], balance, minTradeVolume).value;
      PossibleTrade(tradeType, assets[index], balance, minTradeVolume);
      if InBounds(assets[index]) {
        TradeKeepsBounds(tradeType, assets[index], balance, minTradeVolume);
      }
      var traded := assets[index].(targetValue := assets[index].targetValue + volume);
      TargetSumUpdate(assets[..], index, traded);
      assets[index] := traded;
      balance := balance - volume;
    }

    /**
     * One trade type of `correct_balance`: while the balance calls for it, one of the
     * assets that still has a possible trade makes its smallest trade; an asset without
     * one is not asked again. Which of the possible trades is made is left open (the
     * source scores them in floating point). At most `budget` trades are made.
     */
    method CorrectFor(tradeType: Commissions.TradeType, budget: nat)
      requires Granular()
      modifies this, assets
      ensures Unmoved(old(assets[..]), assets[..])
      ensures TargetSum(assets[..]) + balance == old(TargetSum(assets[..]) + balance)
      ensures old(balance) >= 0.0 ==> balance >= 0.0
    {
      var correctable := set k: nat | k < assets.Length && IsIndex(k, assets.Length);
      var steps := budget;
      while steps > 0 && Correcting(tradeType)
        invariant forall k :: k in correctable ==> IsIndex(k, assets.Length)
        invariant Unmoved(old(assets[..]), assets[..])
        invariant TargetSum(assets[..]) + balance == old(TargetSum(assets[..]) + balance)
        invariant old(balance) >= 0.0 ==> balance >= 0.0
        decreases steps
      {
        var possible := set k | k in correctable && MinTradeVolume(tradeType, assets[k], balance, minTradeVolume).Some?;
        correctable := possible;
        if possible == {} {
          break;
        }
        var index :| index in possible;
        ghost var before := assets[..];
        MakeTrade(tradeType, index);
        UnmovedStep(old(assets[..]), before, assets[..], index);
        steps := steps - 1;
      }
    }

    /** `correct_balance`: sales first, then purchases. */
    method CorrectBalance(budget: nat)
      requires Granular()
      modifies this, assets
      ensures Unmoved(old(assets[..]), assets[..])
      ensures TargetSum(assets[..]) + balance == old(TargetSum(assets[..]) + balance)
      ensures old(balance) >= 0.0 ==> balance >= 0.0
    {
      ghost var start := assets[..];
      CorrectFor(Commissions.Sell, budget);
      ghost var between := assets[..];
      CorrectFor(Commissions.Buy, budget);
      UnmovedTransitive(start, between, assets[..]);
    }

    /** One group of `propagate_changes`: it is rebalanced towards its target, and its leftover balance moves here. */
    method PropagateInto(i: int, budget: nat, ghost shape: Holding)
      requires 0 <= i < assets.Length && assets[i].holding.Group? && Tradable(assets[i])
      requires shape.Group? && i < |shape.assets| && assets[i].holding == shape.assets[i].holding
      modifies this, assets
      ensures assets[..] == old(assets[..])[i := assets[i]]
      ensures SameSettings(old(assets[i]), assets[i]) && assets[i].holding.Group?
      ensures WeightSum(old(assets[i]).holding.assets) == 1.0 ==> assets[i].targetValue == TargetSum(assets[i].holding.assets)
      ensures TargetSum(assets[..]) + balance == old(TargetSum(assets[..]) + balance)
      decreases shape, 0
    {
      var children := assets[i].holding.assets;
      var holdings := new Asset[|children|](k requires 0 <= k < |children| => children[k]);
      assert holdings[..] == children;
      var childBalance := AssetGroupRebalancer.Rebalance(holdings, assets[i].targetValue, minTradeVolume, budget, shape.assets[i].holding);
      ShareOfWhole(assets[i].targetValue, WeightSum(children));
      var updated := assets[i].(holding := Group(holdings[..]), targetValue := assets[i].targetValue - childBalance);
      TargetSumUpdate(assets[..], i, updated);
      assets[i] := updated;
      balance := balance + childBalance;
    }

    /**
     * `propagate_changes`: every group rebalances its own assets towards its target;
     * what is left over there leaves the group's target for this balance.
     */
    method PropagateChanges(budget: nat, ghost shape: Holding)
      requires Shaped(shape, assets[..])
      requires forall k :: 0 <= k < assets.Length ==> Tradable(assets[k])
      modifies this, assets
      ensures TargetSum(assets[..]) + balance == old(TargetSum(assets[..]) + balance)
      ensures forall k :: 0 <= k < assets.Length ==> SameSettings(old(assets[k]), assets[k])
      ensures forall k :: 0 <= k < assets.Length && old(assets[k]).holding.Stock? ==> assets[k] == old(assets[k])
      ensures forall k :: 0 <= k < assets.Length ==> GroupAddsUp(old(assets[k]), assets[k])
      decreases shape, 1
    {
      for i := 0 to assets.Length
        invariant forall k :: 0 <= k < assets.Length ==> SameSettings(old(assets[k]), assets[k])
        invariant forall k :: i <= k < assets.Length ==> assets[k] == old(assets[k])
        invariant forall k :: 0 <= k < i && old(assets[k]).holding.Stock? ==> assets[k] == old(assets[k])
        invariant forall k :: 0 <= k < i ==> GroupAddsUp(old(assets[k]), assets[k])
        invariant TargetSum(assets[..]) + balance == old(TargetSum(assets[..]) + balance)
      {
        if assets[i].holding.Group? {
          PropagateInto(i, budget, shape);
        }
      }
    }

    /**
     * `AssetGroupRebalancer::rebalance`: the four steps on one group, returning the
     * balance the group could not place; the group's targets and that balance add up
     * to the total spread by weight.
     */
    static method Rebalance(assets: array<Asset>, targetTotalValue: real, minTradeVolume: real, budget: nat, ghost shape: Holding)
      returns (balance: real)
      requires Shaped(shape, assets[..])
      requires forall k :: 0 <= k < assets.Length ==> Tradable(assets[k])
      modifies assets
      ensures TargetSum(assets[..]) + balance == Share(targetTotalValue, WeightSum(old(assets[..])))
      ensures forall k :: 0 <= k < assets.Length ==> SameSettings(old(assets[k]), assets[k])
      decreases shape, 2
    {
      var rebalancer := new AssetGroupRebalancer(assets, targetTotalValue, minTradeVolume);
      ghost var start := assets[..];
      rebalancer.CalculateInitialTargetValues();
      ghost var rounded := assets[..];
      rebalancer.ApplyRestrictions();
      ghost var restricted := assets[..];
      SameTreesTransitive(start, rounded, restricted);
      SameTreesShaped(shape, start, restricted);
      rebalancer.CorrectBalance(budget);
      ghost var corrected := assets[..];
      SameTreesTransitive(start, restricted, corrected);
      SameTreesShaped(shape, start, corrected);
      rebalancer.PropagateChanges(budget, shape);
      SettingsTransitive(start, corrected, assets[..]);
      balance := rebalancer.balance;
    }
  }
}
