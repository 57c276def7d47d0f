/**
 * The bottom-up first step of portfolio rebalancing (src/portfolio/rebalancing.rs):
 * every asset of the allocation tree gets the least and the greatest value the
 * rebalancer may give it, from the selling and buying restrictions of its stocks,
 * and a deprecated (zero-weight) asset is pinned at its least value. Also the
 * smallest trades the balance correction may make on one asset.
 */
module Rebalancing {
  import opened Wrappers
  import Decimals
  import Commissions

  /** A stock with its trade granularity, or a group of assets. */
  datatype Holding = Stock(granularity: real) | Group(assets: seq<Asset>)

  /**
   * `AssetAllocation` as the rebalancer sees it. `sellGranularity` and
   * `buyGranularity` stand for `iterative_trading_granularity(Sell)` and `(Buy)`;
   * the restriction flags are the configured `Option<bool>`s with `None` read as false.
   */
  datatype Asset = Asset(
    expectedWeight: real,
    restrictSelling: bool,
    restrictBuying: bool,
    currentValue: real,
    minValue: real,
    maxValue: Option<real>,
    targetValue: real,
    buyBlocked: bool,
    sellBlocked: bool,
    sellGranularity: real,
    buyGranularity: real,
    holding: Holding)

  /** The sum of the least values of the assets. */
  function TotalMin(assets: seq<Asset>): real
    decreases |assets|
  {
    if |assets| == 0 then 0.0 else assets[0].minValue + TotalMin(assets[1..])
  }

  /** The sum of the greatest values, if every asset has one. */
  function TotalMax(assets: seq<Asset>): (r: Option<real>)
    ensures r.Some? <==> forall k :: 0 <= k < |assets| ==> assets[k].maxValue.Some?
    decreases |assets|
  {
    if |assets| == 0 then Some(0.0)
    else
      var rest := TotalMax(assets[1..]);
      if assets[0].maxValue.None? then None
      else if rest.None? then
        assert !forall k :: 0 <= k < |assets| ==> assets[k].maxValue.Some? by {
          var j :| 0 <= j < |assets| - 1 && assets[1..][j].maxValue.None?;
          assert assets[j + 1].maxValue.None?;
        }
        None
      else
        assert forall k :: 0 < k < |assets| ==> assets[k] == assets[1..][k - 1];
        Some(assets[0].maxValue.value + rest.value)
  }

  /** A stock's bounds: its current value is the least one when selling is restricted and the greatest one when buying is. */
  function StockBounded(asset: Asset): Asset
  {
    asset.(
      minValue := if asset.restrictSelling then asset.currentValue else 0.0,
      maxValue := if asset.restrictBuying then Some(asset.currentValue) else None)
  }

  /**
   * `propagate_zero_weight`: a deprecated asset may not grow above its least value;
   * when that is zero, the same holds for everything inside it.
   */
  function PropagateZeroWeight(asset: Asset): (r: Asset)
    ensures r.maxValue == Some(asset.minValue)
    ensures r == asset.(maxValue := r.maxValue, holding := r.holding)
    ensures r.holding.Group? <==> asset.holding.Group?
    decreases asset
  {
    var holding :=
      if asset.minValue == 0.0 && asset.holding.Group? then
        var children := asset.holding.assets;
        Group(seq(|children|, k requires 0 <= k < |children| => PropagateZeroWeight(children[k])))
      else asset.holding;
    asset.(holding := holding, maxValue := Some(asset.minValue))
  }

  /** The asset's own bounds: a stock's from its restrictions, a group's the totals of its restricted children. */
  function Bounded(asset: Asset): (r: Asset)
    ensures r.holding.Group? <==> asset.holding.Group?
    ensures asset.holding.Group? ==> |r.holding.assets| == |asset.holding.assets|
    decreases asset, 0
  {
    match asset.holding
    case Stock(_) => StockBounded(asset)
    case Group(children) =>
      var restricted := seq(|children|, k requires 0 <= k < |children| => Restricted(children[k]));
      asset.(holding := Group(restricted), minValue := TotalMin(restricted), maxValue := TotalMax(restricted))
  }

  /** One asset of `calculate_restrictions`: its bounds, then the zero-weight rule. */
  function Restricted(asset: Asset): (r: Asset)
    ensures r.holding.Group? <==> asset.holding.Group?
    ensures asset.holding.Group? ==> |r.holding.assets| == |asset.holding.assets|
    decreases asset, 1
  {
    if asset.expectedWeight == 0.0 then PropagateZeroWeight(Bounded(asset)) else Bounded(asset)
  }

  /** No stock of the tree is held at a negative value. */
  predicate NonNegative(asset: Asset)
    decreases asset
  {
    match asset.holding
    case Stock(_) => asset.currentValue >= 0.0
    case Group(children) => forall k :: 0 <= k < |children| ==> NonNegative(children[k])
  }

  /** Bounds that the rebalancer can meet: the least value is not negative and not above the greatest; a group's least value is its children's. */
  predicate WellBounded(asset: Asset)
    decreases asset
  {
    asset.minValue >= 0.0
    && (asset.maxValue.Some? ==> asset.maxValue.value >= asset.minValue)
    && match asset.holding
      case Stock(_) => true
      case Group(children) =>
        asset.minValue == TotalMin(children) && forall k :: 0 <= k < |children| ==> WellBounded(children[k])
  }

  /** Sums of bounds that are each met are met. */
  lemma {:induction false} TotalsOrdered(assets: seq<Asset>)
    requires forall k :: 0 <= k < |assets| ==> WellBounded(assets[k])
    ensures TotalMin(assets) >= 0.0
    ensures TotalMax(assets).Some? ==> TotalMax(assets).value >= TotalMin(assets)
    decreases |assets|
  {
    if |assets| > 0 {
      assert forall k :: 0 <= k < |assets| - 1 ==> assets[1..][k] == assets[k + 1];
      TotalsOrdered(assets[1..]);
    }
  }

  /** Two sequences of assets with the same least values have the same total. */
  lemma {:induction false} TotalMinSame(a: seq<Asset>, b: seq<Asset>)
    requires |a| == |b| && forall k :: 0 <= k < |a| ==> a[k].minValue == b[k].minValue
    ensures TotalMin(a) == TotalMin(b)
    decreases |a|
  {
    if |a| > 0 {
      TotalMinSame(a[1..], b[1..]);
    }
  }

  /** Least values that are not negative and sum to zero are all zero. */
  lemma {:induction false} ZeroTotalMin(assets: seq<Asset>)
    requires forall k :: 0 <= k < |assets| ==> assets[k].minValue >= 0.0
    requires TotalMin(assets) == 0.0
    ensures forall k :: 0 <= k < |assets| ==> assets[k].minValue == 0.0
    decreases |assets|
  {
    if |assets| > 0 {
      assert forall k :: 0 <= k < |assets| - 1 ==> assets[1..][k] == assets[k + 1];
      TotalsNonNegative(assets[1..]);
      ZeroTotalMin(assets[1..]);
    }
  }

  lemma {:induction false} TotalsNonNegative(assets: seq<Asset>)
    requires forall k :: 0 <= k < |assets| ==> assets[k].minValue >= 0.0
    ensures TotalMin(assets) >= 0.0
    decreases |assets|
  {
    if |assets| > 0 {
      TotalsNonNegative(assets[1..]);
    }
  }

  /** Pinning an asset at its least value keeps its bounds met. */
  lemma {:induction false} PropagateKeepsBounds(asset: Asset)
    requires WellBounded(asset)
    ensures WellBounded(PropagateZeroWeight(asset))
    decreases asset
  {
    var r := PropagateZeroWeight(asset);
    if asset.minValue == 0.0 && asset.holding.Group? {
      var children := asset.holding.assets;
      forall k | 0 <= k < |children|
        ensures WellBounded(r.holding.assets[k])
      {
        PropagateKeepsBounds(children[k]);
      }
      TotalMinSame(children, r.holding.assets);
    }
  }

  /**
   * With no stock held at a negative value, the bounds `calculate_restrictions` gives
   * every asset are met: the greatest value is never below the least one, so the
   * assertion of line 96 holds, and a group's least value is its children's, so the
   * assertion of line 116 holds.
   */
  lemma {:induction false} RestrictedWellBounded(asset: Asset)
    requires NonNegative(asset)
    ensures WellBounded(Bounded(asset)) && WellBounded(Restricted(asset))
    decreases asset
  {
    if asset.holding.Group? {
      var restricted := Bounded(asset).holding.assets;
      forall k | 0 <= k < |restricted|
        ensures WellBounded(restricted[k])
      {
        RestrictedWellBounded(asset.holding.assets[k]);
      }
      TotalsOrdered(restricted);
    }
    if asset.expectedWeight == 0.0 {
      PropagateKeepsBounds(Bounded(asset));
    }
  }

  /** A stock is bounded by its current value exactly where its trades are restricted, unless it is deprecated. */
  lemma RestrictedStock(asset: Asset)
    requires asset.holding.Stock? && asset.expectedWeight != 0.0
    ensures Restricted(asset).minValue == if asset.restrictSelling then asset.currentValue else 0.0
    ensures Restricted(asset).maxValue == if asset.restrictBuying then Some(asset.currentValue) else None
  {
  }

  /** A group's least value is the sum of its children's; it has a greatest value when all its children do, or when it is deprecated. */
  lemma RestrictedGroup(asset: Asset)
    requires asset.holding.Group?
    ensures var r := Restricted(asset);
      r.minValue == TotalMin(r.holding.assets)
      && (r.maxValue.Some? <==> asset.expectedWeight == 0.0 || forall k :: 0 <= k < |r.holding.assets| ==> r.holding.assets[k].maxValue.Some?)
  {
    var bounded := Bounded(asset);
    if asset.expectedWeight == 0.0 && bounded.minValue == 0.0 {
      TotalMinSame(bounded.holding.assets, PropagateZeroWeight(bounded).holding.assets);
    }
  }

  /** Nothing in the tree may grow above its least value. */
  predicate Frozen(asset: Asset)
    decreases asset
  {
    asset.maxValue == Some(asset.minValue)
    && match asset.holding
      case Stock(_) => true
      case Group(children) => asset.minValue == 0.0 ==> forall k :: 0 <= k < |children| ==> Frozen(children[k])
  }

  /** A deprecated asset whose least value is zero pins everything inside it. */
  lemma {:induction false} ZeroWeightFreezes(asset: Asset)
    requires WellBounded(asset)
    ensures Frozen(PropagateZeroWeight(asset))
    decreases asset
  {
    if asset.minValue == 0.0 && asset.holding.Group? {
      var children := asset.holding.assets;
      ZeroTotalMin(children);
      forall k | 0 <= k < |children|
        ensures Frozen(PropagateZeroWeight(children[k]))
      {
        ZeroWeightFreezes(children[k]);
      }
    }
  }

  /** Every deprecated asset ends up frozen at its least value. */
  lemma DeprecatedFrozen(asset: Asset)
    requires NonNegative(asset) && asset.expectedWeight == 0.0
    ensures Frozen(Restricted(asset))
  {
    RestrictedWellBounded(asset);
    ZeroWeightFreezes(Bounded(asset));
  }

  /** The assertions `propagate_zero_weight` makes before it pins an asset. */
  predicate ZeroWeightAssertsHold(asset: Asset)
    decreases asset
  {
    if asset.minValue == 0.0 then
      match asset.holding
      case Stock(_) => true
      case Group(children) =>
        forall k :: 0 <= k < |children| ==> children[k].minValue == 0.0 && ZeroWeightAssertsHold(children[k])
    else
      asset.maxValue.Some? ==> asset.maxValue.value == asset.minValue
  }

  /** `propagate_zero_weight` as written: `None` where one of its assertions fails and the program aborts. */
  function PropagateZeroWeightAsWritten(asset: Asset): (r: Option<Asset>)
    ensures r.Some? ==> r.value == PropagateZeroWeight(asset)
  {
    if ZeroWeightAssertsHold(asset) then Some(PropagateZeroWeight(asset)) else None
  }

  /** The assertion of line 116 holds on bounds that are met: a zero total has zero parts. */
  lemma {:induction false} ZeroMinAssertsHold(asset: Asset)
    requires WellBounded(asset) && asset.minValue == 0.0
    ensures ZeroWeightAssertsHold(asset)
    decreases asset
  {
    if asset.holding.Group? {
      var children := asset.holding.assets;
      ZeroTotalMin(children);
      forall k | 0 <= k < |children|
        ensures ZeroWeightAssertsHold(children[k])
      {
        ZeroMinAssertsHold(children[k]);
      }
    }
  }

  /** For a stock the assertion of line 121 holds too: a selling restriction with a buying one pins it at its current value. */
  lemma StockAssertsHold(asset: Asset)
    requires asset.holding.Stock?
    ensures ZeroWeightAssertsHold(Bounded(asset))
  {
  }

  /**
   * A deprecated group of a stock restricted both ways, held at 10, and a stock restricted
   * in buying only, held at 5, has the bounds 10 and 15; the assertion of line 121 fails
   * on it and the program aborts, where pinning the group at 10 is what a deprecated
   * asset gets.
   */
  lemma MixedDeprecatedGroupAborts()
    ensures var locked := Asset(0.5, true, true, 10.0, 0.0, None, 0.0, false, false, 1.0, 1.0, Stock(1.0));
      var capped := Asset(0.5, false, true, 5.0, 0.0, None, 0.0, false, false, 1.0, 1.0, Stock(1.0));
      var group := Asset(0.0, false, false, 15.0, 0.0, None, 0.0, false, false, 1.0, 1.0, Group([locked, capped]));
      Bounded(group).minValue == 10.0 && Bounded(group).maxValue == Some(15.0)
      && PropagateZeroWeightAsWritten(Bounded(group)).None? && !AssertsHold(group)
      && Restricted(group).maxValue == Some(10.0) && WellBounded(Restricted(group))
  {
    var locked := Asset(0.5, true, true, 10.0, 0.0, None, 0.0, false, false, 1.0, 1.0, Stock(1.0));
    var capped := Asset(0.5, false, true, 5.0, 0.0, None, 0.0, false, false, 1.0, 1.0, Stock(1.0));
    var group := Asset(0.0, false, false, 15.0, 0.0, None, 0.0, false, false, 1.0, 1.0, Group([locked, capped]));
    var restricted := Bounded(group).holding.assets;
    assert |restricted| == 2 && restricted[0] == Restricted(locked) && restricted[1] == Restricted(capped);
    assert restricted == [StockBounded(locked), StockBounded(capped)];
    var tail := restricted[1..];
    assert tail == [StockBounded(capped)] && tail[1..] == [];
    assert TotalMin(tail) == 0.0 && TotalMax(tail) == Some(5.0);
    assert TotalMin(restricted) == 10.0 && TotalMax(restricted) == Some(15.0);
    RestrictedWellBounded(group);
  }

  /**
   * None of the assertions of `calculate_restrictions` fires on the asset: not those
   * inside a group's children, not those of `propagate_zero_weight` on a deprecated
   * asset (lines 116 and 121), and not that of line 96 on the asset's own bounds.
   */
  predicate AssertsHold(asset: Asset)
    decreases asset
  {
    (match asset.holding
      case Stock(_) => true
      case Group(children) => forall k :: 0 <= k < |children| ==> AssertsHold(children[k]))
    && (asset.expectedWeight == 0.0 ==> ZeroWeightAssertsHold(Bounded(asset)))
    && (Restricted(asset).maxValue.Some? ==> Restricted(asset).maxValue.value >= Restricted(asset).minValue)
  }

  /** No group of the tree has a zero weight: only stocks may be deprecated. */
  predicate NoDeprecatedGroups(asset: Asset)
    decreases asset
  {
    match asset.holding
    case Stock(_) => true
    case Group(children) =>
      asset.expectedWeight != 0.0 && forall k :: 0 <= k < |children| ==> NoDeprecatedGroups(children[k])
  }

  /**
   * With no stock held at a negative value and only stocks deprecated, no assertion
   * of `calculate_restrictions` fires.
   */
  lemma {:induction false} NoDeprecatedGroupsAssertsHold(asset: Asset)
    requires NonNegative(asset) && NoDeprecatedGroups(asset)
    ensures AssertsHold(asset)
    decreases asset
  {
    if asset.holding.Group? {
      var children := asset.holding.assets;
      forall k | 0 <= k < |children|
        ensures AssertsHold(children[k])
      {
        NoDeprecatedGroupsAssertsHold(children[k]);
      }
    } else {
      StockAssertsHold(asset);
    }
    RestrictedWellBounded(asset);
  }

  /**
   * `calculate_restrictions` on the assets of one group: every asset is restricted in
   * place, and the totals of the least and of the greatest values are returned.
   */
  method CalculateRestrictions(assets: array<Asset>) returns (totalMin: real, totalMax: Option<real>)
    requires forall k :: 0 <= k < assets.Length ==> AssertsHold(assets[k])
    modifies assets
    ensures forall k :: 0 <= k < assets.Length ==> assets[k] == Restricted(old(assets[k]))
    ensures totalMin == TotalMin(assets[..]) && totalMax == TotalMax(assets[..])
  {
    totalMin := 0.0;
    var totalMaxValue := 0.0;
    var allWithMaxValue := true;
    for i := 0 to assets.Length
      invariant forall k :: 0 <= k < i ==> assets[k] == Restricted(old(assets[k]))
      invariant forall k :: i <= k < assets.Length ==> assets[k] == old(assets[k])
      invariant totalMin == TotalMinOf(assets[..i])
      invariant allWithMaxValue <==> TotalMax(assets[..i]).Some?
      invariant allWithMaxValue ==> totalMaxValue == TotalMax(assets[..i]).value
    {
      assets[i] := Restricted(assets[i]);
      PrefixTotals(assets[..i + 1]);
      assert assets[..i + 1][..i] == assets[..i];
      totalMin := totalMin + assets[i].minValue;
      if assets[i].maxValue.Some? {
        totalMaxValue := totalMaxValue + assets[i].maxValue.value;
      } else {
        allWithMaxValue := false;
      }
    }
    assert assets[..assets.Length] == assets[..];
    PrefixMin(assets[..]);
    totalMax := if allWithMaxValue then Some(totalMaxValue) else None;
  }

  /** The totals accumulated from the front, as the loop adds them. */
  function TotalMinOf(assets: seq<Asset>): real
    decreases |assets|
  {
    if |assets| == 0 then 0.0 else TotalMinOf(assets[..|assets| - 1]) + assets[|assets| - 1].minValue
  }

  lemma {:induction false} PrefixMin(assets: seq<Asset>)
    ensures TotalMinOf(assets) == TotalMin(assets)
    decreases |assets|
  {
    if |assets| > 0 {
      var front := assets[..|assets| - 1];
      PrefixMin(front);
      if |front| > 0 {
        PrefixMin(assets[1..]);
        assert assets[1..][..|assets| - 2] == front[1..];
        PrefixMin(front[1..]);
      }
    }
  }

  /** Adding the last asset to the totals of the others. */
  lemma {:induction false} PrefixTotals(assets: seq<Asset>)
    requires |assets| > 0
    ensures var front, last := assets[..|assets| - 1], assets[|assets| - 1];
      TotalMax(assets)
      == if last.maxValue.None? || TotalMax(front).None? then None else Some(TotalMax(front).value + last.maxValue.value)
    decreases |assets|
  {
    if |assets| > 1 {
      var front := assets[..|assets| - 1];
      PrefixTotals(assets[1..]);
      assert assets[1..][..|assets| - 2] == front[1..];
    }
  }

  // The smallest trades of the balance correction.

  /** A whole number of units of `granularity`. */
  function Units(units: int, granularity: real): real
  {
    units as real * granularity
  }

  lemma ScaleByPositive(a: real, b: real, granularity: real)
    requires granularity > 0.0
    ensures a < b ==> a * granularity < b * granularity
    ensures a <= b ==> a * granularity <= b * granularity
  {
  }

  /** Scaling `u - 1 < x <= u` by a positive granularity. */
  lemma CeilScaled(volume: real, granularity: real, x: real, u: real)
    requires granularity > 0.0 && x * granularity == volume && u - 1.0 < x <= u
    ensures volume <= u * granularity < volume + granularity
  {
    var d := u - x;
    assert 0.0 <= d < 1.0;
    assert u * granularity == volume + d * granularity;
    assert d * granularity < granularity;
  }

  /** `round_min_trade_volume`: the volume rounded up to a whole number of granularity units. */
  function RoundMinTradeVolume(volume: real, granularity: real): (r: real)
    requires granularity > 0.0
    ensures volume <= r < volume + granularity
    ensures exists units: int :: r == Units(units, granularity)
  {
    var x := volume / granularity;
    var units := Decimals.Ceil(x);
    assert x * granularity == volume;
    CeilScaled(volume, granularity, x, units as real);
    Units(units, granularity)
  }

  /** Whether a planned value is either the current one or at least the minimum trade volume away from it. */
  predicate TradeLargeEnough(planned: real, current: real, minTradeVolume: real)
  {
    planned == current || planned - current >= minTradeVolume || current - planned >= minTradeVolume
  }

  /** The trade volume `calculate_min_sell_volume` chooses before it checks the least value. */
  function SellVolume(asset: Asset, minTradeVolume: real): (volume: real)
    requires asset.sellGranularity > 0.0
    ensures volume > 0.0
    ensures TradeLargeEnough(asset.targetValue - volume, asset.currentValue, minTradeVolume)
  {
    var granularity := asset.sellGranularity;
    var target, current := asset.targetValue, asset.currentValue;
    if target <= current then
      if target <= current - minTradeVolume then granularity
      else RoundMinTradeVolume(minTradeVolume - (current - target), granularity)
    else
      if target - granularity >= current + minTradeVolume then granularity
      else target - current
  }

  /** `calculate_min_sell_volume`: the smallest sale, unless it would take the asset below its least value. */
  function MinSellVolume(asset: Asset, minTradeVolume: real): (r: Option<real>)
    requires asset.sellGranularity > 0.0
    ensures r.Some? <==> asset.targetValue - SellVolume(asset, minTradeVolume) >= asset.minValue
    ensures r.Some? ==> r.value == SellVolume(asset, minTradeVolume)
  {
    var volume := SellVolume(asset, minTradeVolume);
    if asset.targetValue - volume < asset.minValue then None else Some(volume)
  }

  /** The trade volume `calculate_min_buy_volume` chooses before it checks the greatest value. */
  function BuyVolume(asset: Asset, minTradeVolume: real): (volume: real)
    requires asset.buyGranularity > 0.0
    ensures volume > 0.0
    ensures TradeLargeEnough(asset.targetValue + volume, asset.currentValue, minTradeVolume)
  {
    var granularity := asset.buyGranularity;
    var target, current := asset.targetValue, asset.currentValue;
    if target >= current then
      if target >= current + minTradeVolume then granularity
      else RoundMinTradeVolume(minTradeVolume - (target - current), granularity)
    else
      if target + granularity <= current - minTradeVolume then granularity
      else current - target
  }

  /** `calculate_min_buy_volume`: the smallest purchase, unless it would take the asset above its greatest value. */
  function MinBuyVolume(asset: Asset, minTradeVolume: real): (r: Option<real>)
    requires asset.buyGranularity > 0.0
    ensures r.Some? <==> asset.maxValue.None? || asset.targetValue + BuyVolume(asset, minTradeVolume) <= asset.maxValue.value
    ensures r.Some? ==> r.value == BuyVolume(asset, minTradeVolume)
  {
    var volume := BuyVolume(asset, minTradeVolume);
    if asset.maxValue.Some? && asset.targetValue + volume > asset.maxValue.value then None else Some(volume)
  }

  /**
   * `calculate_min_trade_volume` without the trade's score: a sale as a negative volume,
   * a purchase as a positive one that the free cash covers.
   */
  function MinTradeVolume(tradeType: Commissions.TradeType, asset: Asset, cash: real, minTradeVolume: real): (r: Option<real>)
    requires asset.sellGranularity > 0.0 && asset.buyGranularity > 0.0
  {
    match tradeType
    case Sell =>
      var volume := MinSellVolume(asset, minTradeVolume);
      if volume.None? then None else Some(-volume.value)
    case Buy =>
      var volume := MinBuyVolume(asset, minTradeVolume);
      if volume.Some? && volume.value <= cash then volume else None
  }

  /** Whether the asset's target value lies within its bounds. */
  predicate InBounds(asset: Asset)
  {
    asset.minValue <= asset.targetValue && (asset.maxValue.Some? ==> asset.targetValue <= asset.maxValue.value)
  }

  /**
   * A possible trade moves the target the right way by a positive amount, never past the
   * asset's bounds, never a purchase beyond the cash, and it leaves either no trade or
   * one of at least the minimum volume.
   */
  lemma PossibleTrade(tradeType: Commissions.TradeType, asset: Asset, cash: real, minTradeVolume: real)
    requires asset.sellGranularity > 0.0 && asset.buyGranularity > 0.0
    requires MinTradeVolume(tradeType, asset, cash, minTradeVolume).Some?
    ensures var volume := MinTradeVolume(tradeType, asset, cash, minTradeVolume).value;
      var planned := asset.targetValue + volume;
      TradeLargeEnough(planned, asset.currentValue, minTradeVolume)
      && (tradeType.Sell? ==> volume < 0.0 && planned >= asset.minValue)
      && (tradeType.Buy? ==> 0.0 < volume <= cash && (asset.maxValue.Some? ==> planned <= asset.maxValue.value))
  {
  }

  /** A trade keeps each bound the target already met. */
  lemma TradeKeepsBounds(tradeType: Commissions.TradeType, asset: Asset, cash: real, minTradeVolume: real)
    requires asset.sellGranularity > 0.0 && asset.buyGranularity > 0.0
    requires MinTradeVolume(tradeType, asset, cash, minTradeVolume).Some? && InBounds(asset)
    ensures InBounds(asset.(targetValue := asset.targetValue + MinTradeVolume(tradeType, asset, cash, minTradeVolume).value))
  {
  }

  /** A sale is refused exactly when it would take the target below the least value; a purchase, when above the greatest. */
  lemma RefusedPastBounds(asset: Asset, minTradeVolume: real)
    requires asset.sellGranularity > 0.0 && asset.buyGranularity > 0.0
    ensures MinSellVolume(asset, minTradeVolume).None? <==> asset.targetValue - SellVolume(asset, minTradeVolume) < asset.minValue
    ensures MinBuyVolume(asset, minTradeVolume).None?
      <==> asset.maxValue.Some? && asset.targetValue + BuyVolume(asset, minTradeVolume) > asset.maxValue.value
  {
  }
}
