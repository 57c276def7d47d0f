/**
 * Stock trades of a broker statement and the tax results of a sell
 * (src/broker_statement/trades.rs): buys with their sold counters, sells with the
 * buy lots they were matched against, and the per-lot exemption rules.
 */
module Trades {
  import opened Wrappers
  import opened Dates
  import opened Currency
  import opened Taxes
  import opened Localities
  import opened Converter
  import Decimals

  datatype StockBuy = StockBuy(
    symbol: string, quantity: real,
    price: Cash, volume: Cash, commission: Cash,
    conclusionDate: NaiveDate, executionDate: NaiveDate, margin: bool,
    sold: real)

  /** A buy as the statement parsers create it: nothing sold yet. */
  function NewStockBuy(symbol: string, quantity: real, price: Cash, volume: Cash, commission: Cash,
                       conclusionDate: NaiveDate, executionDate: NaiveDate, margin: bool): (r: StockBuy)
    ensures r.sold == 0.0 && r.quantity == quantity && GetUnsold(r) == quantity
  {
    StockBuy(symbol, quantity, price, volume, commission, conclusionDate, executionDate, margin, 0.0)
  }

  /** `StockBuy::is_sold`: nothing of the buy is left unsold. */
  function IsSold(buy: StockBuy): (r: bool)
    ensures r <==> GetUnsold(buy) == 0.0
  {
    buy.sold == buy.quantity
  }

  /** `StockBuy::get_unsold`: within the quantity bought while the sold counter is in range. */
  function GetUnsold(buy: StockBuy): (r: real)
    ensures SoldInRange(buy) ==> 0.0 <= r <= buy.quantity
    ensures r + buy.sold == buy.quantity
  {
    buy.quantity - buy.sold
  }

  /** A sold counter that stays within the quantity bought. */
  predicate SoldInRange(buy: StockBuy)
  {
    0.0 <= buy.sold <= buy.quantity
  }

  /** `StockBuy::sell`: takes `quantity` of the unsold part; nothing else about the buy changes. */
  function Sell(buy: StockBuy, quantity: real): (r: StockBuy)
    requires GetUnsold(buy) >= quantity
    ensures GetUnsold(r) == GetUnsold(buy) - quantity
    ensures r.(sold := buy.sold) == buy
  {
    buy.(sold := buy.sold + quantity)
  }

  /** Selling a non-negative part keeps the counter in range; selling all of the rest sells the buy. */
  lemma SellKeepsRange(buy: StockBuy, quantity: real)
    requires SoldInRange(buy) && 0.0 <= quantity <= GetUnsold(buy)
    ensures SoldInRange(Sell(buy, quantity))
    ensures IsSold(Sell(buy, quantity)) <==> quantity == GetUnsold(buy)
  {
  }

  datatype StockSellSource = StockSellSource(
    quantity: real, multiplier: real,
    price: Cash, volume: Cash, commission: Cash,
    conclusionDate: NaiveDate, executionDate: NaiveDate)

  datatype StockSell = StockSell(
    symbol: string, quantity: real,
    price: Cash, volume: Cash, commission: Cash,
    conclusionDate: NaiveDate, executionDate: NaiveDate, margin: bool, emulation: bool,
    sources: seq<StockSellSource>)

  predicate IsProcessed(sell: StockSell)
  {
    |sell.sources| > 0
  }

  /** The shares a lot contributes to the sell: its quantity times the split multiplier. */
  function SourceQuantity(source: StockSellSource): real
  {
    source.quantity * source.multiplier
  }

  function SourcesQuantity(sources: seq<StockSellSource>): real
    decreases |sources|
  {
    if |sources| == 0 then 0.0 else SourcesQuantity(sources[..|sources| - 1]) + SourceQuantity(sources[|sources| - 1])
  }

  /** `StockSell::process`: records the lots of an unprocessed sell, which must add up to it. */
  function Process(sell: StockSell, sources: seq<StockSellSource>): (r: StockSell)
    requires !IsProcessed(sell)
    requires SourcesQuantity(sources) == sell.quantity
    ensures r.(sources := sell.sources) == sell
    ensures r.sources == sources && SourcesQuantity(r.sources) == r.quantity
  {
    sell.(sources := sources)
  }

  // The tax results of a sell.

  datatype FifoDetails = FifoDetails(
    quantity: real, multiplier: real,
    conclusionDate: NaiveDate, executionDate: NaiveDate,
    price: Cash, commission: Cash, localCommission: Cash,
    cost: Cash, localCost: Cash, totalLocalCost: Cash,
    taxExemptionApplied: bool)

  datatype SellDetails = SellDetails(
    revenue: Cash, localRevenue: Cash, localCommission: Cash,
    purchaseLocalCost: Cash, totalLocalCost: Cash,
    profit: Cash, localProfit: Cash, taxableLocalProfit: Cash,
    taxToPay: Cash, taxDeduction: Cash,
    realTaxRatio: Option<real>, realProfitRatio: Option<real>, realLocalProfitRatio: Option<real>,
    fifo: seq<FifoDetails>)

  /** `FifoDetails::new`: the lot's cost and commission rounded, and their local values. */
  function NewFifoDetails(source: StockSellSource, country: Country, rates: Rates): (r: FifoDetails)
    ensures r.totalLocalCost.currency == country.currency
    ensures r.totalLocalCost.amount == r.localCost.amount + r.localCommission.amount
    ensures !r.taxExemptionApplied
  {
    var cost := Round(source.volume);
    var localCost := ConvertToRounding(rates, source.executionDate, cost, country.currency);
    var commission := Round(source.commission);
    var localCommission := ConvertToRounding(rates, source.conclusionDate, commission, country.currency);
    FifoDetails(source.quantity, source.multiplier, source.conclusionDate, source.executionDate,
                source.price, commission, localCommission, cost, localCost,
                Cash(country.currency, localCost.amount + localCommission.amount), false)
  }

  /** `FifoDetails::total_cost`: cost and commission of the lot in `currency`. */
  function TotalCost(details: FifoDetails, currency: string, rates: Rates): (r: Cash)
    ensures r.currency == currency
  {
    var cost := ConvertToRounding(rates, details.executionDate, details.cost, currency);
    var commission := ConvertToRounding(rates, details.conclusionDate, details.commission, currency);
    Cash(currency, cost.amount + commission.amount)
  }

  /**
   * How the configured exemptions apply (`TaxExemption::is_applicable` gives each a
   * pair): `forced` when one of them forces the exemption, and before that point
   * `exemptible` when one of them allows it.
   */
  function ExemptionFlags(exemptions: seq<(bool, bool)>): (r: (bool, bool))
    ensures r.1 <==> exists i :: 0 <= i < |exemptions| && exemptions[i].1
    ensures !r.1 ==> (r.0 <==> exists i :: 0 <= i < |exemptions| && exemptions[i].0)
    decreases |exemptions|
  {
    if |exemptions| == 0 then (false, false)
    else if exemptions[0].1 then (exemptions[0].0, true)
    else
      var rest := ExemptionFlags(exemptions[1..]);
      assert forall i :: 1 <= i < |exemptions| ==> exemptions[i] == exemptions[1..][i - 1];
      (exemptions[0].0 || rest.0, rest.1)
  }

  /** The local profit of one lot: its share of the revenue, less its share of the sell commission and its cost. */
  function SourceLocalProfit(sell: StockSell, source: StockSellSource, details: FifoDetails,
                             country: Country, rates: Rates): real
    requires sell.quantity != 0.0
  {
    var sourceQuantity := SourceQuantity(source);
    var revenue := ConvertToRounding(rates, sell.executionDate, MulBy(sell.price, sourceQuantity), country.currency);
    var commission := ConvertToRounding(rates, sell.conclusionDate,
                                        DivBy(MulBy(sell.commission, sourceQuantity), sell.quantity), country.currency);
    revenue.amount - commission.amount - details.totalLocalCost.amount
  }

  /**
   * The details of one lot with its exemption decided: a forced exemption always
   * applies; an allowed one only when the lot made a local profit.
   */
  function LotDetails(sell: StockSell, source: StockSellSource, country: Country,
                      exemptions: seq<(bool, bool)>, rates: Rates): (r: FifoDetails)
    requires sell.quantity != 0.0
    ensures r.(taxExemptionApplied := false) == NewFifoDetails(source, country, rates)
    ensures LotQuantity(r) == SourceQuantity(source)
    ensures ExemptionFlags(exemptions).1 ==> r.taxExemptionApplied
    ensures !ExemptionFlags(exemptions).1 ==>
      (r.taxExemptionApplied <==>
        (ExemptionFlags(exemptions).0
         && SourceLocalProfit(sell, source, NewFifoDetails(source, country, rates), country, rates) > 0.0))
  {
    var details := NewFifoDetails(source, country, rates);
    var (exemptible, forced) := ExemptionFlags(exemptions);
    var applied := forced || (exemptible && SourceLocalProfit(sell, source, details, country, rates) > 0.0);
    details.(taxExemptionApplied := applied)
  }

  // Sums over the lots, element by element from the front.

  function LotQuantity(details: FifoDetails): real
  {
    details.quantity * details.multiplier
  }

  function QuantitySum(fifo: seq<FifoDetails>): real
    decreases |fifo|
  {
    if |fifo| == 0 then 0.0 else QuantitySum(fifo[..|fifo| - 1]) + LotQuantity(fifo[|fifo| - 1])
  }

  function TaxFreeQuantitySum(fifo: seq<FifoDetails>): real
    decreases |fifo|
  {
    if |fifo| == 0 then 0.0
    else
      var last := fifo[|fifo| - 1];
      TaxFreeQuantitySum(fifo[..|fifo| - 1]) + (if last.taxExemptionApplied then LotQuantity(last) else 0.0)
  }

  function LocalCostSum(fifo: seq<FifoDetails>): real
    decreases |fifo|
  {
    if |fifo| == 0 then 0.0 else LocalCostSum(fifo[..|fifo| - 1]) + fifo[|fifo| - 1].totalLocalCost.amount
  }

  function DeductibleLocalCostSum(fifo: seq<FifoDetails>): real
    decreases |fifo|
  {
    if |fifo| == 0 then 0.0
    else
      var last := fifo[|fifo| - 1];
      DeductibleLocalCostSum(fifo[..|fifo| - 1]) + (if last.taxExemptionApplied then 0.0 else last.totalLocalCost.amount)
  }

  function CostSum(fifo: seq<FifoDetails>, currency: string, rates: Rates): real
    decreases |fifo|
  {
    if |fifo| == 0 then 0.0 else CostSum(fifo[..|fifo| - 1], currency, rates) + TotalCost(fifo[|fifo| - 1], currency, rates).amount
  }

  /** The sums `calculate_impl` accumulates over the lots. */
  datatype LotTotals = LotTotals(
    quantity: real, taxFreeQuantity: real,
    purchaseCost: real, purchaseLocalCost: real, deductiblePurchaseLocalCost: real)

  function Totals(fifo: seq<FifoDetails>, currency: string, rates: Rates): LotTotals
  {
    LotTotals(QuantitySum(fifo), TaxFreeQuantitySum(fifo), CostSum(fifo, currency, rates),
              LocalCostSum(fifo), DeductibleLocalCostSum(fifo))
  }

  /** Appending a lot adds its share to each sum. */
  lemma SumsStep(fifo: seq<FifoDetails>, d: FifoDetails, currency: string, rates: Rates)
    ensures var f := fifo + [d];
      QuantitySum(f) == QuantitySum(fifo) + LotQuantity(d)
      && TaxFreeQuantitySum(f) == TaxFreeQuantitySum(fifo) + (if d.taxExemptionApplied then LotQuantity(d) else 0.0)
      && LocalCostSum(f) == LocalCostSum(fifo) + d.totalLocalCost.amount
      && DeductibleLocalCostSum(f) == DeductibleLocalCostSum(fifo) + (if d.taxExemptionApplied then 0.0 else d.totalLocalCost.amount)
      && CostSum(f, currency, rates) == CostSum(fifo, currency, rates) + TotalCost(d, currency, rates).amount
  {
    assert (fifo + [d])[..|fifo|] == fifo;
  }

  /** `SumsStep` for the totals record: each field grows by the lot's share. */
  lemma TotalsStep(fifo: seq<FifoDetails>, d: FifoDetails, currency: string, rates: Rates)
    ensures var t := Totals(fifo, currency, rates);
      Totals(fifo + [d], currency, rates) == LotTotals(
        t.quantity + LotQuantity(d),
        if d.taxExemptionApplied then t.taxFreeQuantity + LotQuantity(d) else t.taxFreeQuantity,
        t.purchaseCost + TotalCost(d, currency, rates).amount,
        t.purchaseLocalCost + d.totalLocalCost.amount,
        if d.taxExemptionApplied then t.deductiblePurchaseLocalCost else t.deductiblePurchaseLocalCost + d.totalLocalCost.amount)
  {
    SumsStep(fifo, d, currency, rates);
  }

  predicate NoneExempt(fifo: seq<FifoDetails>)
  {
    forall i :: 0 <= i < |fifo| ==> !fifo[i].taxExemptionApplied
  }

  predicate AllExempt(fifo: seq<FifoDetails>)
  {
    forall i :: 0 <= i < |fifo| ==> fifo[i].taxExemptionApplied
  }

  /** Without exempt lots nothing is tax free and every lot's cost is deductible. */
  lemma {:induction false} NoneExemptSums(fifo: seq<FifoDetails>)
    requires NoneExempt(fifo)
    ensures TaxFreeQuantitySum(fifo) == 0.0
    ensures DeductibleLocalCostSum(fifo) == LocalCostSum(fifo)
    decreases |fifo|
  {
    if |fifo| > 0 {
      NoneExemptSums(fifo[..|fifo| - 1]);
    }
  }

  /** With every lot exempt, every share is tax free and no cost is deductible. */
  lemma {:induction false} AllExemptSums(fifo: seq<FifoDetails>)
    requires AllExempt(fifo)
    ensures TaxFreeQuantitySum(fifo) == QuantitySum(fifo)
    ensures DeductibleLocalCostSum(fifo) == 0.0
    decreases |fifo|
  {
    if |fifo| > 0 {
      AllExemptSums(fifo[..|fifo| - 1]);
    }
  }

  /** Lots that keep the shares of their sources add up to the sources. */
  lemma {:induction false} LotQuantities(fifo: seq<FifoDetails>, sources: seq<StockSellSource>)
    requires |fifo| == |sources|
    requires forall i :: 0 <= i < |fifo| ==> LotQuantity(fifo[i]) == SourceQuantity(sources[i])
    ensures QuantitySum(fifo) == SourcesQuantity(sources)
    decreases |fifo|
  {
    if |fifo| > 0 {
      var n := |fifo| - 1;
      assert forall i :: 0 <= i < n ==> fifo[..n][i] == fifo[i] && sources[..n][i] == sources[i];
      LotQuantities(fifo[..n], sources[..n]);
    }
  }

  /** The lot details of every source of the sell, in order. */
  function Lots(sell: StockSell, country: Country, exemptions: seq<(bool, bool)>, rates: Rates)
    : (r: seq<FifoDetails>)
    requires sell.quantity != 0.0
    ensures |r| == |sell.sources|
    ensures forall i :: 0 <= i < |r| ==> r[i] == LotDetails(sell, sell.sources[i], country, exemptions, rates)
  {
    seq(|sell.sources|, i requires 0 <= i < |sell.sources| => LotDetails(sell, sell.sources[i], country, exemptions, rates))
  }

  /** The share of the sell that is taxed: the shares of the lots without an exemption. */
  function TaxableRatio(sell: StockSell, totals: LotTotals): real
    requires sell.quantity != 0.0
  {
    (sell.quantity - totals.taxFreeQuantity) / sell.quantity
  }

  /** Revenue less the costs of all lots and the sell commission, in the local currency. */
  function LocalProfit(sell: StockSell, country: Country, rates: Rates, totals: LotTotals): real
  {
    var local := country.currency;
    var localRevenue := ConvertToRounding(rates, sell.executionDate, Round(sell.volume), local);
    var localCommission := ConvertToRounding(rates, sell.conclusionDate, Round(sell.commission), local);
    localRevenue.amount - (totals.purchaseLocalCost + localCommission.amount)
  }

  /** The taxable part of the revenue less the deductible costs and the taxable part of the commission. */
  function TaxableLocalProfit(sell: StockSell, country: Country, rates: Rates, totals: LotTotals): real
    requires sell.quantity != 0.0
  {
    var local := country.currency;
    var ratio := TaxableRatio(sell, totals);
    var taxableLocalRevenue := ConvertToRounding(rates, sell.executionDate, MulBy(Round(sell.volume), ratio), local);
    var deductibleLocalCommission := ConvertToRounding(rates, sell.conclusionDate, MulBy(Round(sell.commission), ratio), local);
    taxableLocalRevenue.amount - (totals.deductiblePurchaseLocalCost + deductibleLocalCommission.amount)
  }

  /** The sell-level figures, once the lots and their sums are known (the second half of `calculate_impl`). */
  function Figures(sell: StockSell, country: Country, taxYear: int, rates: Rates,
                   fifo: seq<FifoDetails>, totals: LotTotals): (r: Result<SellDetails>)
    requires country.Valid() && sell.quantity != 0.0
    requires sell.volume.currency == sell.price.currency
  {
    var currency := sell.price.currency;
    var local := country.currency;

    var revenue := Round(sell.volume);
    var localRevenue := ConvertToRounding(rates, sell.executionDate, revenue, local);
    var commission := Round(sell.commission);
    var localCommission := ConvertToRounding(rates, sell.conclusionDate, commission, local);

    var purchaseCost := totals.purchaseCost;
    var purchaseLocalCost := totals.purchaseLocalCost;
    var totalCost := purchaseCost + ConvertToRounding(rates, sell.conclusionDate, commission, currency).amount;
    var totalLocalCost := purchaseLocalCost + localCommission.amount;

    var profit := revenue.amount - totalCost;
    var localProfit := LocalProfit(sell, country, rates, totals);
    var taxableLocalProfit := TaxableLocalProfit(sell, country, rates, totals);

    var taxWithoutDeduction := TaxToPay(country, Trading, taxYear, Cash(local, localProfit), None);
    var taxToPay := TaxToPay(country, Trading, taxYear, Cash(local, taxableLocalProfit), None);
    var taxDeduction := taxWithoutDeduction.amount - taxToPay.amount;

    if taxDeduction < 0.0 then
      Err("Got a negative tax deduction")
    else
      var realTaxRatio := if profit == 0.0 then None
        else Some(ConvertTo(rates, sell.executionDate, taxToPay, currency).amount / profit);
      var realProfit := profit - ConvertToRounding(rates, sell.executionDate, taxToPay, currency).amount;
      var realProfitRatio := if purchaseCost == 0.0 then None else Some(realProfit / purchaseCost);
      var realLocalProfit := localProfit - taxToPay.amount;
      var realLocalProfitRatio := if purchaseLocalCost == 0.0 then None else Some(realLocalProfit / purchaseLocalCost);
      Ok(SellDetails(
        revenue, localRevenue, localCommission,
        Cash(local, purchaseLocalCost), Cash(local, totalLocalCost),
        Cash(currency, profit), Cash(local, localProfit), Cash(local, taxableLocalProfit),
        taxToPay, Cash(local, taxDeduction),
        realTaxRatio, realProfitRatio, realLocalProfitRatio,
        fifo))
  }

  /** The details of a sell with the given lots. */
  function SellDetailsOf(sell: StockSell, country: Country, taxYear: int, rates: Rates,
                         fifo: seq<FifoDetails>): Result<SellDetails>
    requires country.Valid() && sell.quantity != 0.0
    requires sell.volume.currency == sell.price.currency
  {
    Figures(sell, country, taxYear, rates, fifo, Totals(fifo, sell.price.currency, rates))
  }

  /** The sell's figures are an error exactly when the tax of the taxable part exceeds the tax of the whole profit. */
  lemma SellDetailsOfResult(sell: StockSell, country: Country, taxYear: int, rates: Rates, fifo: seq<FifoDetails>)
    requires country.Valid() && sell.quantity != 0.0
    requires sell.volume.currency == sell.price.currency
    ensures var local := country.currency;
      var totals := Totals(fifo, sell.price.currency, rates);
      var whole := TaxToPay(country, Trading, taxYear, Cash(local, LocalProfit(sell, country, rates, totals)), None);
      var taxable := TaxToPay(country, Trading, taxYear, Cash(local, TaxableLocalProfit(sell, country, rates, totals)), None);
      var r := SellDetailsOf(sell, country, taxYear, rates, fifo);
      (r.Err? <==> taxable.amount > whole.amount)
      && (r.Ok? ==> r.value.taxToPay == taxable && r.value.taxDeduction.amount == whole.amount - taxable.amount
                    && r.value.fifo == fifo)
  {
  }

  /** One lot's contribution to the running sums of `calculate_impl`. */
  method AddLot(fifo: seq<FifoDetails>, details: FifoDetails, sourceQuantity: real, currency: string, rates: Rates,
                totalQuantity: real, taxFreeQuantity: real, purchaseCost: real, purchaseLocalCost: real,
                deductiblePurchaseLocalCost: real)
    returns (totalQuantity': real, taxFreeQuantity': real, purchaseCost': real, purchaseLocalCost': real,
             deductiblePurchaseLocalCost': real)
    requires sourceQuantity == LotQuantity(details)
    requires LotTotals(totalQuantity, taxFreeQuantity, purchaseCost, purchaseLocalCost, deductiblePurchaseLocalCost)
      == Totals(fifo, currency, rates)
    ensures LotTotals(totalQuantity', taxFreeQuantity', purchaseCost', purchaseLocalCost', deductiblePurchaseLocalCost')
      == Totals(fifo + [details], currency, rates)
  {
    totalQuantity' := totalQuantity + sourceQuantity;
    taxFreeQuantity' := taxFreeQuantity;
    if details.taxExemptionApplied {
      taxFreeQuantity' := taxFreeQuantity + sourceQuantity;
    }
    purchaseCost' := purchaseCost + TotalCost(details, currency, rates).amount;
    purchaseLocalCost' := purchaseLocalCost + details.totalLocalCost.amount;
    deductiblePurchaseLocalCost' := deductiblePurchaseLocalCost;
    if !details.taxExemptionApplied {
      deductiblePurchaseLocalCost' := deductiblePurchaseLocalCost + details.totalLocalCost.amount;
    }
    TotalsStep(fifo, details, currency, rates);
  }

  lemma TakeStep<T>(s: seq<T>, i: nat)
    requires i < |s|
    ensures s[..i + 1] == s[..i] + [s[i]]
  {
  }

  /** The loop of `calculate_impl`: the details of every lot, accumulating their sums. */
  method AccumulateLots(sell: StockSell, country: Country, exemptions: seq<(bool, bool)>, rates: Rates)
    returns (fifo: seq<FifoDetails>, totals: LotTotals)
    requires sell.quantity != 0.0
    ensures fifo == Lots(sell, country, exemptions, rates)
    ensures totals == Totals(fifo, sell.price.currency, rates)
  {
    var currency := sell.price.currency;
    var purchaseCost := 0.0;
    var purchaseLocalCost := 0.0;
    var deductiblePurchaseLocalCost := 0.0;
    var totalQuantity := 0.0;
    var taxFreeQuantity := 0.0;
    fifo := [];
    ghost var lots := Lots(sell, country, exemptions, rates);

    var i := 0;
    while i < |sell.sources|
      invariant 0 <= i <= |sell.sources|
      invariant fifo == lots[..i]
      invariant LotTotals(totalQuantity, taxFreeQuantity, purchaseCost, purchaseLocalCost, deductiblePurchaseLocalCost)
        == Totals(fifo, currency, rates)
    {
      var source := sell.sources[i];
      var details := LotDetails(sell, source, country, exemptions, rates);
      var sourceQuantity := SourceQuantity(source);
      totalQuantity, taxFreeQuantity, purchaseCost, purchaseLocalCost, deductiblePurchaseLocalCost :=
        AddLot(fifo, details, sourceQuantity, currency, rates,
               totalQuantity, taxFreeQuantity, purchaseCost, purchaseLocalCost, deductiblePurchaseLocalCost);
      TakeStep(lots, i);
      fifo := fifo + [details];
      i := i + 1;
    }
    assert fifo == lots;
    totals := LotTotals(totalQuantity, taxFreeQuantity, purchaseCost, purchaseLocalCost, deductiblePurchaseLocalCost);
  }

  /**
   * `StockSell::calculate_impl`: walks the lots accumulating quantities and costs,
   * checks that they add up to the sell, then derives the sell's figures. The
   * panic on a negative tax deduction is returned as an error.
   */
  method CalculateImpl(sell: StockSell, country: Country, taxYear: int, exemptions: seq<(bool, bool)>,
                       rates: Rates) returns (r: Result<SellDetails>)
    requires country.Valid() && sell.quantity != 0.0
    requires sell.volume.currency == sell.price.currency
    requires SourcesQuantity(sell.sources) == sell.quantity
    ensures r == SellDetailsOf(sell, country, taxYear, rates, Lots(sell, country, exemptions, rates))
  {
    var fifo, totals := AccumulateLots(sell, country, exemptions, rates);
    LotQuantities(fifo, sell.sources);
    assert totals.quantity == sell.quantity;
    r := Figures(sell, country, taxYear, rates, fifo, totals);
  }

  /**
   * When no lot is exempt, the taxable profit is the whole local profit and there
   * is no deduction: the conditions `SellDetails::tax_exemption_applied` asserts.
   */
  lemma {:induction false} NoExemptionNoDeduction(sell: StockSell, country: Country, taxYear: int, rates: Rates,
                                                  fifo: seq<FifoDetails>)
    requires country.Valid() && sell.quantity != 0.0
    requires sell.volume.currency == sell.price.currency
    requires NoneExempt(fifo)
    ensures SellDetailsOf(sell, country, taxYear, rates, fifo).Ok?
    ensures var d := SellDetailsOf(sell, country, taxYear, rates, fifo).value;
      d.taxableLocalProfit == d.localProfit && d.taxDeduction.amount == 0.0
  {
    NoneExemptSums(fifo);
    var totals := Totals(fifo, sell.price.currency, rates);
    assert TaxableRatio(sell, totals) == 1.0;
    assert MulBy(Round(sell.volume), 1.0) == Round(sell.volume);
    assert MulBy(Round(sell.commission), 1.0) == Round(sell.commission);
    assert TaxableLocalProfit(sell, country, rates, totals) == LocalProfit(sell, country, rates, totals);
    SellDetailsOfResult(sell, country, taxYear, rates, fifo);
  }

  /**
   * When every lot is exempt nothing is taxable, and with a non-negative rate the
   * deduction is the whole tax, so it is never negative.
   */
  lemma {:induction false} FullExemptionDeduction(sell: StockSell, country: Country, taxYear: int, rates: Rates,
                                                  fifo: seq<FifoDetails>)
    requires country.Valid() && sell.quantity != 0.0
    requires sell.volume.currency == sell.price.currency
    requires AllExempt(fifo) && QuantitySum(fifo) == sell.quantity
    requires TaxRate(country, Trading, taxYear) >= 0.0
    ensures SellDetailsOf(sell, country, taxYear, rates, fifo).Ok?
    ensures var d := SellDetailsOf(sell, country, taxYear, rates, fifo).value;
      d.taxToPay.amount == 0.0 && d.taxDeduction.amount >= 0.0
  {
    AllExemptSums(fifo);
    var local := country.currency;
    var totals := Totals(fifo, sell.price.currency, rates);
    assert TaxableRatio(sell, totals) == 0.0;
    assert MulBy(Round(sell.volume), 0.0).amount == 0.0;
    assert MulBy(Round(sell.commission), 0.0).amount == 0.0;
    Decimals.RoundZero(2);
    assert TaxableLocalProfit(sell, country, rates, totals) == 0.0;
    assert Round(Cash(local, 0.0)).amount == 0.0;
    TaxToPayBounds(country, Trading, taxYear, Cash(local, LocalProfit(sell, country, rates, totals)), None);
    SellDetailsOfResult(sell, country, taxYear, rates, fifo);
  }

  /**
   * Whatever the lots, with a non-negative rate the deduction is never negative when
   * the taxable profit is not above the whole local profit, or rounds to nothing:
   * only a taxable profit that is positive and above the local profit can make
   * the assertion of `calculate_impl` fail.
   */
  lemma MixedExemptionDeduction(sell: StockSell, country: Country, taxYear: int, rates: Rates,
                                fifo: seq<FifoDetails>)
    requires country.Valid() && sell.quantity != 0.0
    requires sell.volume.currency == sell.price.currency
    requires TaxRate(country, Trading, taxYear) >= 0.0
    ensures var local := country.currency;
      var totals := Totals(fifo, sell.price.currency, rates);
      var taxable := TaxableLocalProfit(sell, country, rates, totals);
      (taxable <= LocalProfit(sell, country, rates, totals) || Round(Cash(local, taxable)).amount <= 0.0) ==>
        SellDetailsOf(sell, country, taxYear, rates, fifo).Ok?
        && SellDetailsOf(sell, country, taxYear, rates, fifo).value.taxDeduction.amount >= 0.0
  {
    var local := country.currency;
    var totals := Totals(fifo, sell.price.currency, rates);
    var whole := Cash(local, LocalProfit(sell, country, rates, totals));
    var taxable := Cash(local, TaxableLocalProfit(sell, country, rates, totals));
    SellDetailsOfResult(sell, country, taxYear, rates, fifo);
    if taxable.amount <= whole.amount {
      TaxToPayMonotone(country, Trading, taxYear, taxable, whole);
    } else if Round(taxable).amount <= 0.0 {
      TaxToPayBounds(country, Trading, taxYear, whole, None);
    }
  }

  /** A forced exemption exempts every lot. */
  lemma ForcedExemptionExemptsAll(sell: StockSell, country: Country, exemptions: seq<(bool, bool)>, rates: Rates)
    requires sell.quantity != 0.0
    requires ExemptionFlags(exemptions).1
    ensures AllExempt(Lots(sell, country, exemptions, rates))
  {
  }

  /** `SellDetails::tax_exemption_applied`: whether any lot is exempt. */
  function TaxExemptionApplied(details: SellDetails): (r: bool)
    requires NoneExempt(details.fifo) ==>
      details.taxableLocalProfit == details.localProfit && details.taxDeduction.amount == 0.0
    ensures r <==> exists i :: 0 <= i < |details.fifo| && details.fifo[i].taxExemptionApplied
  {
    exists i :: 0 <= i < |details.fifo| && details.fifo[i].taxExemptionApplied
  }
}
