/**
 * The joint statement of one broker account (`BrokerStatement` in
 * src/broker_statement/mod.rs): its period, cash, trades and declared open
 * positions, and the bookkeeping that merges partial statements into it, sorts
 * and validates its trades, matches sells against buys and emulates a sale.
 */
module BrokerStatements {
  import opened Wrappers
  import opened Dates
  import opened Currency
  import opened MultiCurrency
  import opened Trades
  import opened Fifo
  import opened PartialStatements
  import Commissions

  // Sorting by (conclusion date, execution date).

  /** The sort key of a trade: its conclusion day, then its execution day. */
  function TradeKey(conclusion: NaiveDate, execution: NaiveDate): (int, int)
  {
    (DayNumber(conclusion), DayNumber(execution))
  }

  function BuyKey(buy: StockBuy): (int, int)
  {
    TradeKey(buy.conclusionDate, buy.executionDate)
  }

  function SellKey(sell: StockSell): (int, int)
  {
    TradeKey(sell.conclusionDate, sell.executionDate)
  }

  /** Lexicographic order of keys. */
  predicate KeyLeq(a: (int, int), b: (int, int))
  {
    a.0 < b.0 || (a.0 == b.0 && a.1 <= b.1)
  }

  predicate SortedBy<T>(s: seq<T>, key: T -> (int, int))
  {
    forall i, j :: 0 <= i < j < |s| ==> KeyLeq(key(s[i]), key(s[j]))
  }

  /** Inserts `x` before the first element whose key is not smaller than its own. */
  function InsertByKey<T>(x: T, s: seq<T>, key: T -> (int, int)): (r: seq<T>)
    ensures multiset(r) == multiset(s) + multiset{x}
    ensures |r| == |s| + 1
    decreases |s|
  {
    if |s| == 0 || KeyLeq(key(x), key(s[0])) then
      [x] + s
    else
      assert s == [s[0]] + s[1..];
      [s[0]] + InsertByKey(x, s[1..], key)
  }

  /** `sort_by_key`: an insertion sort, which keeps trades with equal keys in their order. */
  function SortByKey<T>(s: seq<T>, key: T -> (int, int)): (r: seq<T>)
    ensures multiset(r) == multiset(s)
    ensures |r| == |s|
    decreases |s|
  {
    if |s| == 0 then []
    else
      assert s == [s[0]] + s[1..];
      InsertByKey(s[0], SortByKey(s[1..], key), key)
  }

  lemma {:induction false} InsertKeepsSorted<T>(x: T, s: seq<T>, key: T -> (int, int))
    requires SortedBy(s, key)
    ensures SortedBy(InsertByKey(x, s, key), key)
    decreases |s|
  {
    if |s| > 0 && !KeyLeq(key(x), key(s[0])) {
      var rest := InsertByKey(x, s[1..], key);
      InsertKeepsSorted(x, s[1..], key);
      forall j | 0 <= j < |rest|
        ensures KeyLeq(key(s[0]), key(rest[j]))
      {
        assert rest[j] in multiset(rest);
        if rest[j] != x {
          assert rest[j] in multiset(s[1..]);
          var k :| 0 <= k < |s[1..]| && s[1..][k] == rest[j];
          assert s[k + 1] == rest[j];
        }
      }
      assert InsertByKey(x, s, key) == [s[0]] + rest;
    }
  }

  /** The sorted trades are a permutation of the trades, in key order. */
  lemma {:induction false} SortByKeySorts<T>(s: seq<T>, key: T -> (int, int))
    ensures SortedBy(SortByKey(s, key), key)
    ensures multiset(SortByKey(s, key)) == multiset(s)
    decreases |s|
  {
    if |s| > 0 {
      SortByKeySorts(s[1..], key);
      InsertKeepsSorted(s[0], SortByKey(s[1..], key), key);
    }
  }

  // The execution-order check after sorting.

  /** No execution date is earlier than the one before it. */
  predicate ExecutionOrdered(dates: seq<NaiveDate>)
  {
    forall i :: 0 < i < |dates| ==> !Dates.Less(dates[i], dates[i - 1])
  }

  function BuyExecutionDates(buys: seq<StockBuy>): seq<NaiveDate>
  {
    if |buys| == 0 then [] else BuyExecutionDates(buys[..|buys| - 1]) + [buys[|buys| - 1].executionDate]
  }

  function SellExecutionDates(sells: seq<StockSell>): seq<NaiveDate>
  {
    if |sells| == 0 then [] else SellExecutionDates(sells[..|sells| - 1]) + [sells[|sells| - 1].executionDate]
  }

  /** The loop of `sort_stock_buys` and `sort_stock_sells` that compares each execution date with the previous one. */
  method CheckExecutionOrder(dates: seq<NaiveDate>, message: string) returns (r: Result<()>)
    ensures r.Ok? <==> ExecutionOrdered(dates)
    ensures r.Err? ==> r.error == message
  {
    var prev: Option<NaiveDate> := None;
    var i := 0;
    while i < |dates|
      invariant 0 <= i <= |dates|
      invariant prev == (if i == 0 then None else Some(dates[i - 1]))
      invariant forall j :: 0 < j < i ==> !Dates.Less(dates[j], dates[j - 1])
    {
      if prev.Some? && Dates.Less(dates[i], prev.value) {
        assert !ExecutionOrdered(dates) by {
          assert !(!Dates.Less(dates[i], dates[i - 1]));
        }
        return Err(message);
      }
      prev := Some(dates[i]);
      i := i + 1;
    }
    r := Ok(());
  }

  // The period checks of `validate`.

  /** The check `validate` makes of one sorted list of dates: its first and last dates lie in the period. */
  function ValidateDates(name: string, dates: seq<NaiveDate>, minDate: NaiveDate, maxDate: NaiveDate)
    : (r: Result<()>)
    ensures r.Ok? <==> |dates| == 0 || (!Dates.Less(dates[0], minDate) && !Dates.Less(maxDate, dates[|dates| - 1]))
    ensures r.Err? ==> r.error == "Got a " + name + " outside of statement period"
  {
    if |dates| == 0 then Ok(())
    else if Dates.Less(dates[0], minDate) || Dates.Less(maxDate, dates[|dates| - 1]) then
      Err("Got a " + name + " outside of statement period")
    else Ok(())
  }

  /** Dates in chronological order. */
  predicate Chronological(dates: seq<NaiveDate>)
  {
    forall i, j :: 0 <= i < j < |dates| ==> DayNumber(dates[i]) <= DayNumber(dates[j])
  }

  /** On a sorted list, checking the two ends puts every date inside the period. */
  lemma WithinPeriod(name: string, dates: seq<NaiveDate>, minDate: NaiveDate, maxDate: NaiveDate)
    requires Chronological(dates) && ValidateDates(name, dates, minDate, maxDate).Ok?
    ensures forall i :: 0 <= i < |dates| ==>
      DayNumber(minDate) <= DayNumber(dates[i]) <= DayNumber(maxDate)
  {
    if |dates| > 0 {
      LessDayNumber(dates[0], minDate);
      LessDayNumber(maxDate, dates[|dates| - 1]);
      forall i | 0 <= i < |dates|
        ensures DayNumber(minDate) <= DayNumber(dates[i]) <= DayNumber(maxDate)
      {
        if 0 < i {
          assert DayNumber(dates[0]) <= DayNumber(dates[i]);
        }
        if i < |dates| - 1 {
          assert DayNumber(dates[i]) <= DayNumber(dates[|dates| - 1]);
        }
      }
    }
  }

  // `emulate_sell`.

  /** The execution date of an emulated sale: today's, unless the last sell executes later. */
  function EmulatedExecutionDate(sells: seq<StockSell>, today: NaiveDate): (r: NaiveDate)
    ensures r == today || (|sells| > 0 && r == sells[|sells| - 1].executionDate)
    ensures !Dates.Less(r, today)
    ensures |sells| > 0 ==> !Dates.Less(r, sells[|sells| - 1].executionDate)
  {
    LessDayNumber(today, if |sells| > 0 then sells[|sells| - 1].executionDate else today);
    LessDayNumber(if |sells| > 0 then sells[|sells| - 1].executionDate else today, today);
    if |sells| > 0 && Dates.Less(today, sells[|sells| - 1].executionDate) then sells[|sells| - 1].executionDate
    else today
  }

  /**
   * The open positions after selling `quantity` shares of `symbol`: an exhausted
   * position disappears, a larger one shrinks, and a missing or smaller one is
   * an error.
   */
  function PositionsAfterSale(positions: map<string, real>, symbol: string, quantity: real)
    : (r: Result<map<string, real>>)
    ensures r.Ok? <==> symbol in positions && positions[symbol] >= quantity
    ensures symbol !in positions ==> r == Err("The portfolio has no open position for it")
    ensures symbol in positions && positions[symbol] < quantity ==>
      r == Err("The portfolio has not enough open positions for it")
    ensures r.Ok? ==> (symbol in r.value <==> positions[symbol] != quantity)
    ensures r.Ok? && symbol in r.value ==> r.value[symbol] == positions[symbol] - quantity
    ensures r.Ok? ==> forall s :: s != symbol ==> (s in r.value <==> s in positions)
    ensures r.Ok? ==> forall s :: s != symbol && s in positions ==> r.value[s] == positions[s]
  {
    if symbol !in positions then Err("The portfolio has no open position for it")
    else if positions[symbol] == quantity then Ok(positions - {symbol})
    else if positions[symbol] > quantity then Ok(positions[symbol := positions[symbol] - quantity])
    else Err("The portfolio has not enough open positions for it")
  }

  /** The shares held after a sale plus the shares sold are the shares held before. */
  lemma SaleConservesShares(positions: map<string, real>, symbol: string, quantity: real, other: string)
    requires PositionsAfterSale(positions, symbol, quantity).Ok?
    ensures var after := PositionsAfterSale(positions, symbol, quantity).value;
      (if symbol in after then after[symbol] else 0.0) + quantity == positions[symbol]
      && (other != symbol ==> (other in after <==> other in positions))
  {
  }

  // `merge`.

  /** What `merge` takes from the next partial statement, with its broker's sparseness flag. */
  datatype StatementPart = StatementPart(
    period: Option<Period>, allowSparse: bool,
    cashAssets: Assets,
    fees: seq<NaiveDate>, cashFlows: seq<NaiveDate>, idleCashInterest: seq<NaiveDate>,
    forexTrades: seq<NaiveDate>, dividends: seq<NaiveDate>,
    stockBuys: seq<StockBuy>, stockSells: seq<StockSell>,
    openPositions: map<string, real>)

  /** Whether a part may follow a statement that ends at `end`: sparse brokers allow gaps, others need a contiguous start. */
  function MergeCheck(end: NaiveDate, part: StatementPart): (r: Result<Period>)
    ensures r.Ok? <==> (part.period.Some? &&
      (if part.allowSparse then !Dates.Less(part.period.value.0, end) else part.period.value.0 == end))
    ensures r.Ok? ==> r.value == part.period.value
    ensures part.period.Some? && part.allowSparse && Dates.Less(part.period.value.0, end) ==>
      r == Err("Overlapping periods")
    ensures part.period.Some? && !part.allowSparse && part.period.value.0 != end ==>
      r == Err("Non-continuous periods")
  {
    match GetOption("statement period", part.period)
    case Err(e) => Err(e)
    case Ok(period) =>
      if part.allowSparse && Dates.Less(period.0, end) then Err("Overlapping periods")
      else if !part.allowSparse && period.0 != end then Err("Non-continuous periods")
      else Ok(period)
  }

  /** For a broker without sparse statements, every accepted part starts exactly where the statement ends. */
  lemma ContinuousMergeHasNoGap(end: NaiveDate, part: StatementPart)
    requires !part.allowSparse && MergeCheck(end, part).Ok?
    ensures DaysBetween(end, MergeCheck(end, part).value.0) == 0
  {
  }

  /** For a sparse broker, an accepted part never starts before the statement ends. */
  lemma SparseMergeHasNoOverlap(end: NaiveDate, part: StatementPart)
    requires part.allowSparse && MergeCheck(end, part).Ok?
    ensures DaysBetween(end, MergeCheck(end, part).value.0) >= 0
  {
    LessDayNumber(MergeCheck(end, part).value.0, end);
  }

  class BrokerStatement {
    var period: Period
    var cashAssets: MultiCurrencyCashAccount
    var historicalCashAssets: map<NaiveDate, Assets>

    // The dates of the fees, cash flows, idle cash interest, forex trades and dividends.
    var fees: seq<NaiveDate>
    var cashFlows: seq<NaiveDate>
    var idleCashInterest: seq<NaiveDate>
    var forexTrades: seq<NaiveDate>
    var dividends: seq<NaiveDate>

    var stockBuys: seq<StockBuy>
    var stockSells: seq<StockSell>
    var openPositions: map<string, real>

    /**
     * The period is not reversed, every historical balance is dated inside it,
     * and the trades are fit for matching.
     */
    predicate Valid()
      reads this
    {
      !Dates.Less(period.1, period.0)
      && (forall date :: date in historicalCashAssets ==> Dates.Less(date, period.1))
      && LedgerValid(stockBuys) && SellQuantitiesValid(stockSells)
    }

    /** The statement `new_empty_from` builds: empty, its period starting and ending on `start`. */
    constructor (start: NaiveDate)
      ensures Valid()
      ensures period == (start, start) && fresh(cashAssets) && cashAssets.assets == map[]
      ensures historicalCashAssets == map[] && openPositions == map[]
      ensures fees == [] && cashFlows == [] && idleCashInterest == [] && forexTrades == [] && dividends == []
      ensures stockBuys == [] && stockSells == []
    {
      period := (start, start);
      cashAssets := new MultiCurrencyCashAccount();
      historicalCashAssets := map[];
      fees := [];
      cashFlows := [];
      idleCashInterest := [];
      forexTrades := [];
      dividends := [];
      stockBuys := [];
      stockSells := [];
      openPositions := map[];
    }

    /** `last_date`: the day before the end of the period. */
    function LastDate(): (r: NaiveDate)
      reads this
      ensures DayNumber(r) + 1 == DayNumber(period.1)
    {
      AddDaysNumber(period.1, -1);
      AddDays(period.1, -1)
    }

    /** `merge`: appends the next partial statement, whose period must follow this one's. */
    method Merge(part: StatementPart) returns (r: Result<()>)
      requires Valid()
      requires part.period.Some? ==> Dates.Less(part.period.value.0, part.period.value.1)
      requires LedgerValid(part.stockBuys) && SellQuantitiesValid(part.stockSells)
      modifies this
      ensures Valid()
      ensures r.Ok? <==> MergeCheck(old(period).1, part).Ok?
      ensures r.Err? ==> (period == old(period) && cashAssets == old(cashAssets)
        && historicalCashAssets == old(historicalCashAssets)
        && fees == old(fees) && cashFlows == old(cashFlows) && idleCashInterest == old(idleCashInterest)
        && forexTrades == old(forexTrades) && dividends == old(dividends)
        && stockBuys == old(stockBuys) && stockSells == old(stockSells) && openPositions == old(openPositions))
      ensures r.Ok? ==> (period == (old(period).0, part.period.value.1)
        && fresh(cashAssets) && cashAssets.assets == part.cashAssets
        && historicalCashAssets == old(historicalCashAssets)[LastDate() := part.cashAssets]
        && LastDate() !in old(historicalCashAssets)
        && fees == old(fees) + part.fees && cashFlows == old(cashFlows) + part.cashFlows
        && idleCashInterest == old(idleCashInterest) + part.idleCashInterest
        && forexTrades == old(forexTrades) + part.forexTrades && dividends == old(dividends) + part.dividends
        && stockBuys == old(stockBuys) + part.stockBuys && stockSells == old(stockSells) + part.stockSells
        && openPositions == part.openPositions)
    {
      var checked := MergeCheck(period.1, part);
      if checked.Err? {
        return Err(checked.error);
      }
      var next := checked.value;
      HistoryBeforeNextEnd(historicalCashAssets, period.0, period.1, next);
      period := (period.0, next.1);
      cashAssets := new MultiCurrencyCashAccount.Of(part.cashAssets);
      var lastDate := LastDate();
      historicalCashAssets := historicalCashAssets[lastDate := part.cashAssets];
      ExtendRecords(part);
      openPositions := part.openPositions;
      r := Ok(());
    }

    /** The `extend` calls of `merge`: every list of the part goes after this statement's. */
    method ExtendRecords(part: StatementPart)
      requires LedgerValid(stockBuys) && SellQuantitiesValid(stockSells)
      requires LedgerValid(part.stockBuys) && SellQuantitiesValid(part.stockSells)
      modifies this`fees, this`cashFlows, this`idleCashInterest, this`forexTrades, this`dividends,
               this`stockBuys, this`stockSells
      ensures LedgerValid(stockBuys) && SellQuantitiesValid(stockSells)
      ensures fees == old(fees) + part.fees && cashFlows == old(cashFlows) + part.cashFlows
      ensures idleCashInterest == old(idleCashInterest) + part.idleCashInterest
      ensures forexTrades == old(forexTrades) + part.forexTrades && dividends == old(dividends) + part.dividends
      ensures stockBuys == old(stockBuys) + part.stockBuys && stockSells == old(stockSells) + part.stockSells
    {
      fees := fees + part.fees;
      cashFlows := cashFlows + part.cashFlows;
      idleCashInterest := idleCashInterest + part.idleCashInterest;
      forexTrades := forexTrades + part.forexTrades;
      dividends := dividends + part.dividends;
      LedgerAppend(stockBuys, part.stockBuys);
      SellsAppend(stockSells, part.stockSells);
      stockBuys := stockBuys + part.stockBuys;
      stockSells := stockSells + part.stockSells;
    }

    /** `sort_stock_buys`: sorts the buys by (conclusion, execution) and requires their executions in order. */
    method SortStockBuys() returns (r: Result<()>)
      requires Valid()
      modifies this`stockBuys
      ensures Valid()
      ensures stockBuys == SortByKey(old(stockBuys), BuyKey)
      ensures r.Ok? <==> ExecutionOrdered(BuyExecutionDates(stockBuys))
    {
      var sorted := SortByKey(stockBuys, BuyKey);
      LedgerPermuted(stockBuys, sorted);
      r := CheckExecutionOrder(BuyExecutionDates(sorted), "Got an unexpected execution order for buy trades");
      stockBuys := sorted;
    }

    /** `sort_stock_sells`: the same for the sells. */
    method SortStockSells() returns (r: Result<()>)
      requires Valid()
      modifies this`stockSells
      ensures Valid()
      ensures stockSells == SortByKey(old(stockSells), SellKey)
      ensures r.Ok? <==> ExecutionOrdered(SellExecutionDates(stockSells))
    {
      var sorted := SortByKey(stockSells, SellKey);
      SellsPermuted(stockSells, sorted);
      r := CheckExecutionOrder(SellExecutionDates(sorted), "Got an unexpected execution order for sell trades");
      stockSells := sorted;
    }

    /** `validate`: the first and last dates of every list lie between the start and the last date of the period. */
    function Validate(): (r: Result<()>)
      reads this
      ensures r.Ok? <==>
        ValidateDates("cash flow", cashFlows, period.0, LastDate()).Ok?
        && ValidateDates("fee", fees, period.0, LastDate()).Ok?
        && ValidateDates("idle cash interest", idleCashInterest, period.0, LastDate()).Ok?
        && ValidateDates("forex trade", forexTrades, period.0, LastDate()).Ok?
        && ValidateDates("stock buy", BuyConclusionDates(stockBuys), period.0, LastDate()).Ok?
        && ValidateDates("stock sell", SellConclusionDates(stockSells), period.0, LastDate()).Ok?
        && ValidateDates("dividend", dividends, period.0, LastDate()).Ok?
    {
      var minDate := period.0;
      var maxDate := LastDate();
      AndThen(ValidateDates("cash flow", cashFlows, minDate, maxDate),
      AndThen(ValidateDates("fee", fees, minDate, maxDate),
      AndThen(ValidateDates("idle cash interest", idleCashInterest, minDate, maxDate),
      AndThen(ValidateDates("forex trade", forexTrades, minDate, maxDate),
      AndThen(ValidateDates("stock buy", BuyConclusionDates(stockBuys), minDate, maxDate),
      AndThen(ValidateDates("stock sell", SellConclusionDates(stockSells), minDate, maxDate),
              ValidateDates("dividend", dividends, minDate, maxDate)))))))
    }

    /** `process_trades`: matches the sells against the buys, then compares the open positions with the declared ones. */
    method ProcessTrades() returns (r: Result<()>)
      requires Valid()
      modifies this`stockBuys, this`stockSells
      ensures Valid()
      ensures var processed := ProcessFrom(old(stockBuys), old(stockSells), 0, OpenSymbols(old(stockBuys)));
        (processed.Err? ==> r.Err? && stockBuys == old(stockBuys) && stockSells == old(stockSells))
        && (processed.Ok? ==> (stockBuys == processed.value.0 && stockSells == processed.value.1
            && (r.Ok? <==> UnsoldPositions(stockBuys) == openPositions)))
      ensures r.Ok? ==> forall symbol ::
        UnsoldOf(stockBuys, symbol) == (if symbol in openPositions then openPositions[symbol] else 0.0)
    {
      assert SellsValid(stockSells);
      var processed := ProcessSells(stockBuys, stockSells);
      if processed.Err? {
        return Err(processed.error);
      }
      ProcessedSellsValid(stockSells, processed.value.1);
      stockBuys := processed.value.0;
      stockSells := processed.value.1;
      r := ValidateOpenPositions(stockBuys, openPositions);
      UnsoldPositionsAreTotals(stockBuys);
    }

    /**
     * `emulate_sell`: sells `quantity` shares of an open position at `price`. The
     * commission calculator records the trade and gives its commission first, so
     * its volume stays recorded when the sale is then refused; today's trade dates
     * come from the caller.
     */
    method EmulateSell(symbol: string, quantity: nat, price: Cash, commissionCalc: Commissions.CommissionCalc,
                       conclusionDate: NaiveDate, todayExecutionDate: NaiveDate) returns (r: Result<()>)
      requires Valid() && quantity <= 0xFFFF_FFFF
      modifies this`stockSells, this`openPositions, cashAssets, commissionCalc`volume
      ensures Valid()
      ensures var volume := MulBy(price, quantity as real);
        commissionCalc.volume == old(commissionCalc.volume)[conclusionDate := Deposited(Commissions.AssetsOn(old(commissionCalc.volume), conclusionDate), volume)]
      ensures r.Ok? <==> PositionsAfterSale(old(openPositions), symbol, quantity as real).Ok?
      ensures r.Err? ==> (stockSells == old(stockSells) && openPositions == old(openPositions)
        && cashAssets.assets == old(cashAssets.assets))
      ensures r.Ok? ==>
        var volume := MulBy(price, quantity as real);
        var commission := Commissions.RoundCash(commissionCalc.spec,
          Commissions.TradeCommission(commissionCalc.spec, commissionCalc.rates, conclusionDate, Commissions.Sell, quantity, volume));
        openPositions == PositionsAfterSale(old(openPositions), symbol, quantity as real).value
        && stockSells == old(stockSells) + [StockSell(
             symbol, quantity as real, price, volume, commission,
             conclusionDate, EmulatedExecutionDate(old(stockSells), todayExecutionDate), false, true, [])]
        && cashAssets.assets == Deposited(Deposited(old(cashAssets.assets), volume), Neg(commission))
    {
      var executionDate := EmulatedExecutionDate(stockSells, todayExecutionDate);
      Commissions.WholeSharesOfCount(quantity);
      var charged := commissionCalc.AddTrade(conclusionDate, Commissions.Sell, quantity as real, price);
      var commission := charged.value;
      var volume := MulBy(price, quantity as real);
      var sell := StockSell(symbol, quantity as real, price, volume, commission,
                            conclusionDate, executionDate, false, true, []);

      if symbol in openPositions {
        var available := openPositions[symbol];
        if available == quantity as real {
          openPositions := openPositions - {symbol};
        } else if available > quantity as real {
          openPositions := openPositions[symbol := available - quantity as real];
        } else {
          return Err("The portfolio has not enough open positions for it");
        }
      } else {
        return Err("The portfolio has no open position for it");
      }

      SellsAppend(stockSells, [sell]);
      stockSells := stockSells + [sell];
      cashAssets.Deposit(volume);
      cashAssets.Withdraw(commission);
      r := Ok(());
    }
  }

  /**
   * `new_empty_from`: the empty statement a first partial statement starts. A part
   * without a period, or without the starting-assets flag, is an error, and so is a
   * part that reports starting assets.
   */
  method NewEmptyFrom(statement: PartialBrokerStatement) returns (r: Result<BrokerStatement>)
    ensures r.Ok? <==> statement.period.Some? && statement.hasStartingAssets == Some(false)
    ensures statement.period.None? ==> r == Err(statement.GetPeriod().error)
    ensures statement.period.Some? && statement.hasStartingAssets.None? ==>
      r == Err(statement.GetHasStartingAssets().error)
    ensures statement.period.Some? && statement.hasStartingAssets == Some(true) ==>
      r == Err("Invalid broker statement period: It has a non-zero starting assets")
    ensures r.Ok? ==>
      fresh(r.value) && r.value.Valid()
      && r.value.period == (statement.period.value.0, statement.period.value.0)
      && r.value.cashAssets.assets == map[] && r.value.historicalCashAssets == map[]
      && r.value.openPositions == map[] && r.value.stockBuys == [] && r.value.stockSells == []
      && r.value.fees == [] && r.value.cashFlows == [] && r.value.idleCashInterest == []
      && r.value.forexTrades == [] && r.value.dividends == []
  {
    var period := statement.GetPeriod();
    if period.Err? {
      return Err(period.error);
    }
    var startingAssets := statement.GetHasStartingAssets();
    if startingAssets.Err? {
      return Err(startingAssets.error);
    }
    if startingAssets.value {
      return Err("Invalid broker statement period: It has a non-zero starting assets");
    }
    var empty := new BrokerStatement(period.value.0);
    r := Ok(empty);
  }

  function BuyConclusionDates(buys: seq<StockBuy>): seq<NaiveDate>
  {
    if |buys| == 0 then [] else BuyConclusionDates(buys[..|buys| - 1]) + [buys[|buys| - 1].conclusionDate]
  }

  function SellConclusionDates(sells: seq<StockSell>): seq<NaiveDate>
  {
    if |sells| == 0 then [] else SellConclusionDates(sells[..|sells| - 1]) + [sells[|sells| - 1].conclusionDate]
  }

  /** The `?` of two checks in a row: the first error, or success when both pass. */
  function AndThen(first: Result<()>, second: Result<()>): (r: Result<()>)
    ensures r.Ok? <==> first.Ok? && second.Ok?
    ensures r == (if first.Err? then first else second)
  {
    if first.Err? then first else second
  }

  /**
   * When a period that starts no earlier than `end` and is not empty is appended,
   * its last day is a new history date and every history date stays before the new end.
   */
  lemma HistoryBeforeNextEnd(history: map<NaiveDate, Assets>, start: NaiveDate, end: NaiveDate, next: Period)
    requires !Dates.Less(end, start) && (forall date :: date in history ==> Dates.Less(date, end))
    requires !Dates.Less(next.0, end) && Dates.Less(next.0, next.1)
    ensures !Dates.Less(next.1, start) && AddDays(next.1, -1) !in history
    ensures Dates.Less(AddDays(next.1, -1), next.1)
    ensures forall date :: date in history ==> Dates.Less(date, next.1)
  {
    var last := AddDays(next.1, -1);
    AddDaysNumber(next.1, -1);
    LessDayNumber(next.0, end);
    LessDayNumber(next.0, next.1);
    LessDayNumber(end, start);
    LessDayNumber(next.1, start);
    LessDayNumber(last, next.1);
    LessDayNumber(last, end);
    forall date | date in history
      ensures Dates.Less(date, next.1)
    {
      LessDayNumber(date, end);
      LessDayNumber(date, next.1);
    }
  }

  lemma LedgerAppend(a: seq<StockBuy>, b: seq<StockBuy>)
    requires LedgerValid(a) && LedgerValid(b)
    ensures LedgerValid(a + b)
  {
    forall i | 0 <= i < |a + b|
      ensures SoldInRange((a + b)[i])
    {
      if i >= |a| {
        assert (a + b)[i] == b[i - |a|];
      }
    }
  }

  /** Every sell has a non-negative quantity, processed or not. */
  predicate SellQuantitiesValid(sells: seq<StockSell>)
  {
    forall i :: 0 <= i < |sells| ==> sells[i].quantity >= 0.0
  }

  lemma SellsAppend(a: seq<StockSell>, b: seq<StockSell>)
    requires SellQuantitiesValid(a) && SellQuantitiesValid(b)
    ensures SellQuantitiesValid(a + b)
  {
    forall i | 0 <= i < |a + b|
      ensures (a + b)[i].quantity >= 0.0
    {
      if i >= |a| {
        assert (a + b)[i] == b[i - |a|];
      }
    }
  }

  /** A permutation of a valid ledger is valid. */
  lemma LedgerPermuted(a: seq<StockBuy>, b: seq<StockBuy>)
    requires LedgerValid(a) && multiset(a) == multiset(b)
    ensures LedgerValid(b)
  {
    forall i | 0 <= i < |b|
      ensures SoldInRange(b[i])
    {
      assert b[i] in multiset(a);
      var j :| 0 <= j < |a| && a[j] == b[i];
    }
  }

  lemma SellsPermuted(a: seq<StockSell>, b: seq<StockSell>)
    requires SellQuantitiesValid(a) && multiset(a) == multiset(b)
    ensures SellQuantitiesValid(b)
  {
    forall i | 0 <= i < |b|
      ensures b[i].quantity >= 0.0
    {
      assert b[i] in multiset(a);
      var j :| 0 <= j < |a| && a[j] == b[i];
    }
  }

  /** Recording lots keeps every sell's quantity. */
  lemma ProcessedSellsValid(before: seq<StockSell>, after: seq<StockSell>)
    requires SellQuantitiesValid(before) && |after| == |before|
    requires forall j :: 0 <= j < |before| ==> after[j].(sources := before[j].sources) == before[j]
    ensures SellQuantitiesValid(after)
  {
    forall j | 0 <= j < |after|
      ensures after[j].quantity >= 0.0
    {
      assert after[j].quantity == after[j].(sources := before[j].sources).quantity;
    }
  }
}
