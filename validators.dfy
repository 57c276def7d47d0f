/**
 * The checks the statement parsers run on the lists they have read
 * (src/broker_statement/validators.rs): a date validator that sorts a list and
 * requires it to lie inside the statement period, and the execution-order check
 * of sorted trades.
 */
module Validators {
  import opened Wrappers
  import opened Dates
  import BrokerStatements
  import Trades

  /** `DateValidator`: the first and the last day of the statement period. */
  datatype DateValidator = DateValidator(minDate: NaiveDate, maxDate: NaiveDate)

  predicate InPeriod(v: DateValidator, date: NaiveDate)
  {
    !Dates.Less(date, v.minDate) && !Dates.Less(v.maxDate, date)
  }

  function OutOfPeriodError(name: string): string
  {
    "Got " + name + " outside of statement period"
  }

  /**
   * `validate` as written: the "last" date is read from the first element, so only
   * the first date is ever compared with the period.
   */
  function ValidateAsWritten(v: DateValidator, name: string, dates: seq<NaiveDate>): (r: Result<()>)
    requires |dates| > 0
    ensures r.Ok? <==> InPeriod(v, dates[0])
    ensures r.Err? ==> r.error == OutOfPeriodError(name)
  {
    var firstDate := dates[0];
    var lastDate := dates[0];
    if Dates.Less(firstDate, v.minDate) then Err(OutOfPeriodError(name))
    else if Dates.Less(v.maxDate, lastDate) then Err(OutOfPeriodError(name))
    else Ok(())
  }

  /** `validate` as intended: the first date against the start, the last date against the end. */
  function Validate(v: DateValidator, name: string, dates: seq<NaiveDate>): (r: Result<()>)
    requires |dates| > 0
    ensures r.Ok? <==> !Dates.Less(dates[0], v.minDate) && !Dates.Less(v.maxDate, dates[|dates| - 1])
    ensures r.Err? ==> r.error == OutOfPeriodError(name)
  {
    var firstDate := dates[0];
    var lastDate := dates[|dates| - 1];
    if Dates.Less(firstDate, v.minDate) then Err(OutOfPeriodError(name))
    else if Dates.Less(v.maxDate, lastDate) then Err(OutOfPeriodError(name))
    else Ok(())
  }

  /** No date of the list is earlier than one before it. */
  predicate DatesSorted(dates: seq<NaiveDate>)
  {
    forall i, j :: 0 <= i < j < |dates| ==> !Dates.Less(dates[j], dates[i])
  }

  /** A date of a sorted list lies in the period when the ends pass the checks. */
  lemma BetweenEnds(v: DateValidator, dates: seq<NaiveDate>, i: int)
    requires DatesSorted(dates) && 0 <= i < |dates|
    requires !Dates.Less(dates[0], v.minDate) && !Dates.Less(v.maxDate, dates[|dates| - 1])
    ensures InPeriod(v, dates[i])
  {
    var last := |dates| - 1;
    if 0 < i {
      assert !Dates.Less(dates[i], dates[0]);
    }
    if i < last {
      assert !Dates.Less(dates[last], dates[i]);
    }
  }

  /** On a chronological list the two end checks accept exactly the lists inside the period. */
  lemma ValidatedWithinPeriod(v: DateValidator, name: string, dates: seq<NaiveDate>)
    requires |dates| > 0 && DatesSorted(dates)
    ensures Validate(v, name, dates).Ok? <==> forall i :: 0 <= i < |dates| ==> InPeriod(v, dates[i])
  {
    if Validate(v, name, dates).Ok? {
      forall i | 0 <= i < |dates|
        ensures InPeriod(v, dates[i])
      {
        BetweenEnds(v, dates, i);
      }
    }
  }

  /** The check as written accepts everything the intended check accepts. */
  lemma AsWrittenIsWeaker(v: DateValidator, name: string, dates: seq<NaiveDate>)
    requires |dates| > 0 && DatesSorted(dates) && Validate(v, name, dates).Ok?
    ensures ValidateAsWritten(v, name, dates).Ok?
  {
    ValidatedWithinPeriod(v, name, dates);
    assert InPeriod(v, dates[0]);
  }

  /** A sorted list whose last date falls after the period passes the check as written. */
  lemma AsWrittenMissesLateDate(name: string)
    ensures var v := DateValidator(Date(2020, 1, 1), Date(2020, 12, 31));
      var dates: seq<NaiveDate> := [Date(2020, 6, 1), Date(2021, 2, 1)];
      DatesSorted(dates)
      && ValidateAsWritten(v, name, dates).Ok?
      && !InPeriod(v, dates[1])
      && Validate(v, name, dates).Err?
  {
  }

  // `sort_and_validate`.

  /** The key of every object, in order: the dates `get_date` gives, or the trades' information. */
  function KeysOf<T, K>(objects: seq<T>, key: T -> K): (r: seq<K>)
    ensures |r| == |objects| && forall i :: 0 <= i < |objects| ==> r[i] == key(objects[i])
  {
    seq(|objects|, i requires 0 <= i < |objects| => key(objects[i]))
  }

  /** `sort_by_key(get_date)`: the key of an object is the day number of its date. */
  function DateKey<T>(getDate: T -> NaiveDate): T -> (int, int)
  {
    x => (DayNumber(getDate(x)), 0)
  }

  lemma SortedDatesInOrder<T>(objects: seq<T>, getDate: T -> NaiveDate)
    requires BrokerStatements.SortedBy(objects, DateKey(getDate))
    ensures DatesSorted(KeysOf(objects, getDate))
  {
    var dates := KeysOf(objects, getDate);
    forall i, j | 0 <= i < j < |dates|
      ensures !Dates.Less(dates[j], dates[i])
    {
      assert BrokerStatements.KeyLeq(DateKey(getDate)(objects[i]), DateKey(getDate)(objects[j]));
      LessDayNumber(dates[j], dates[i]);
    }
  }

  /**
   * `sort_and_validate`: sorts the objects by date in place; an empty list is
   * accepted, any other goes through `validate` as written.
   */
  method SortAndValidate<T>(v: DateValidator, name: string, objects: array<T>, getDate: T -> NaiveDate)
    returns (r: Result<()>)
    modifies objects
    ensures objects[..] == BrokerStatements.SortByKey(old(objects[..]), DateKey(getDate))
    ensures r == if objects.Length == 0 then Ok(()) else ValidateAsWritten(v, name, KeysOf(objects[..], getDate))
  {
    var sorted := BrokerStatements.SortByKey(objects[..], DateKey(getDate));
    forall i | 0 <= i < objects.Length {
      objects[i] := sorted[i];
    }
    assert objects[..] == sorted;
    if objects.Length == 0 {
      return Ok(());
    }
    r := ValidateAsWritten(v, name, KeysOf(objects[..], getDate));
  }

  /** An object whose date is not after the date of any object of the list. */
  ghost predicate Earliest<T>(objects: seq<T>, getDate: T -> NaiveDate, x: T)
  {
    x in objects && forall y :: y in objects ==> !Dates.Less(getDate(y), getDate(x))
  }

  /** The first object after sorting has the earliest date. */
  lemma SortedFirstIsEarliest<T>(objects: seq<T>, getDate: T -> NaiveDate)
    requires |objects| > 0
    ensures Earliest(objects, getDate, BrokerStatements.SortByKey(objects, DateKey(getDate))[0])
  {
    var sorted := BrokerStatements.SortByKey(objects, DateKey(getDate));
    BrokerStatements.SortByKeySorts(objects, DateKey(getDate));
    SortedDatesInOrder(sorted, getDate);
    var dates := KeysOf(sorted, getDate);
    assert sorted[0] in multiset(objects);
    forall y | y in objects
      ensures !Dates.Less(getDate(y), getDate(sorted[0]))
    {
      assert y in multiset(sorted);
      var i :| 0 <= i < |sorted| && sorted[i] == y;
      if i > 0 {
        assert !Dates.Less(dates[i], dates[0]);
      }
    }
  }

  /** Two earliest objects have dates on the same day, so both or neither lie in the period. */
  lemma EarliestSameDay<T>(v: DateValidator, objects: seq<T>, getDate: T -> NaiveDate, x: T, y: T)
    requires Earliest(objects, getDate, x) && Earliest(objects, getDate, y)
    ensures InPeriod(v, getDate(x)) <==> InPeriod(v, getDate(y))
  {
    LessDayNumber(getDate(x), getDate(y));
    LessDayNumber(getDate(y), getDate(x));
    LessDayNumber(getDate(x), v.minDate);
    LessDayNumber(getDate(y), v.minDate);
    LessDayNumber(v.maxDate, getDate(x));
    LessDayNumber(v.maxDate, getDate(y));
  }

  /**
   * After sorting, the check as written accepts a non-empty list exactly when its
   * earliest date lies in the period: no later date is looked at.
   */
  lemma SortedListWithinPeriod<T>(v: DateValidator, name: string, objects: seq<T>, getDate: T -> NaiveDate)
    requires |objects| > 0
    ensures var sorted := BrokerStatements.SortByKey(objects, DateKey(getDate));
      ValidateAsWritten(v, name, KeysOf(sorted, getDate)).Ok?
      <==> exists x :: Earliest(objects, getDate, x) && InPeriod(v, getDate(x))
  {
    var sorted := BrokerStatements.SortByKey(objects, DateKey(getDate));
    BrokerStatements.SortByKeySorts(objects, DateKey(getDate));
    SortedFirstIsEarliest(objects, getDate);
    var first := sorted[0];
    assert KeysOf(sorted, getDate)[0] == getDate(first);
    forall x | Earliest(objects, getDate, x)
      ensures InPeriod(v, getDate(x)) <==> InPeriod(v, getDate(first))
    {
      EarliestSameDay(v, objects, getDate, x, first);
    }
  }

  /**
   * The corrected check after sorting accepts a non-empty list exactly when every
   * one of its dates lies in the period.
   */
  lemma SortedListWithinPeriodCorrected<T>(v: DateValidator, name: string, objects: seq<T>, getDate: T -> NaiveDate)
    requires |objects| > 0
    ensures var sorted := BrokerStatements.SortByKey(objects, DateKey(getDate));
      Validate(v, name, KeysOf(sorted, getDate)).Ok? <==> forall x :: x in objects ==> InPeriod(v, getDate(x))
  {
    var sorted := BrokerStatements.SortByKey(objects, DateKey(getDate));
    BrokerStatements.SortByKeySorts(objects, DateKey(getDate));
    SortedDatesInOrder(sorted, getDate);
    var dates := KeysOf(sorted, getDate);
    ValidatedWithinPeriod(v, name, dates);
    forall x | x in objects
      ensures exists i :: 0 <= i < |sorted| && sorted[i] == x
    {
      assert x in multiset(sorted);
      assert x in sorted;
    }
    forall i | 0 <= i < |sorted|
      ensures sorted[i] in objects
    {
      assert sorted[i] in multiset(objects);
    }
  }

  // `validate_trades`.

  /** `TradeInfo`: what the check reads of a buy or a sell. */
  datatype TradeInfo = TradeInfo(symbol: string, conclusionDate: NaiveDate, executionDate: NaiveDate, margin: bool)

  /** `StockTrade::info` of a buy. */
  function BuyInfo(buy: Trades.StockBuy): TradeInfo
  {
    TradeInfo(buy.symbol, buy.conclusionDate, buy.executionDate, buy.margin)
  }

  /** `StockTrade::info` of a sell. */
  function SellInfo(sell: Trades.StockSell): TradeInfo
  {
    TradeInfo(sell.symbol, sell.conclusionDate, sell.executionDate, sell.margin)
  }

  /** Trades are sorted by (conclusion date, execution date). */
  function InfoKey<T>(info: T -> TradeInfo): T -> (int, int)
  {
    x => BrokerStatements.TradeKey(info(x).conclusionDate, info(x).executionDate)
  }

  /** Trade `i` is not a margin trade and executes before the trade preceding it. */
  predicate Disordered(infos: seq<TradeInfo>, i: int)
    requires 0 < i < |infos|
  {
    Dates.Less(infos[i].executionDate, infos[i - 1].executionDate) && !infos[i].margin
  }

  predicate ExecutionsOrdered(infos: seq<TradeInfo>)
  {
    forall i :: 0 < i < |infos| ==> !Disordered(infos, i)
  }

  predicate FirstDisordered(infos: seq<TradeInfo>, i: int)
  {
    0 < i < |infos| && Disordered(infos, i) && forall j :: 0 < j < i ==> !Disordered(infos, j)
  }

  function ExecutionOrderError(name: string, prev: TradeInfo, trade: TradeInfo): string
  {
    "Got an unexpected execution order of " + name + " trades: " + prev.symbol + " -> " + trade.symbol
  }

  /** The loop of `validate_trades`: each trade is compared with the one before it, margin or not. */
  method CheckExecutionOrder(name: string, infos: seq<TradeInfo>) returns (r: Result<()>)
    ensures r.Ok? <==> ExecutionsOrdered(infos)
    ensures r.Err? ==> exists i :: FirstDisordered(infos, i) && r.error == ExecutionOrderError(name, infos[i - 1], infos[i])
  {
    var prev: Option<TradeInfo> := None;
    for i := 0 to |infos|
      invariant prev == if i == 0 then None else Some(infos[i - 1])
      invariant forall j :: 0 < j < i ==> !Disordered(infos, j)
    {
      var trade := infos[i];
      if prev.Some? {
        if Dates.Less(trade.executionDate, prev.value.executionDate) && !trade.margin {
          assert FirstDisordered(infos, i);
          return Err(ExecutionOrderError(name, prev.value, trade));
        }
      }
      prev := Some(trade);
    }
    r := Ok(());
  }

  /**
   * `validate_trades`: sorts the trades in place by (conclusion date, execution date)
   * and requires every non-margin trade to execute no earlier than the trade before it.
   */
  method ValidateTrades<T>(name: string, trades: array<T>, info: T -> TradeInfo) returns (r: Result<()>)
    modifies trades
    ensures trades[..] == BrokerStatements.SortByKey(old(trades[..]), InfoKey(info))
    ensures r.Ok? <==> ExecutionsOrdered(KeysOf(trades[..], info))
    ensures r.Err? ==> exists i ::
      FirstDisordered(KeysOf(trades[..], info), i) && r.error == ExecutionOrderError(name, info(trades[i - 1]), info(trades[i]))
  {
    var sorted := BrokerStatements.SortByKey(trades[..], InfoKey(info));
    forall i | 0 <= i < trades.Length {
      trades[i] := sorted[i];
    }
    assert trades[..] == sorted;
    r := CheckExecutionOrder(name, KeysOf(sorted, info));
  }

  /** In sorted trades, a trade can only execute before its predecessor when it was concluded on a later day. */
  lemma DisorderNeedsLaterConclusion<T>(trades: seq<T>, info: T -> TradeInfo, i: int)
    requires BrokerStatements.SortedBy(trades, InfoKey(info))
    requires 0 < i < |trades|
    ensures Disordered(KeysOf(trades, info), i) ==>
      Dates.Less(info(trades[i - 1]).conclusionDate, info(trades[i]).conclusionDate)
  {
    var prev := info(trades[i - 1]);
    var trade := info(trades[i]);
    assert BrokerStatements.KeyLeq(InfoKey(info)(trades[i - 1]), InfoKey(info)(trades[i]));
    LessDayNumber(trade.executionDate, prev.executionDate);
    LessDayNumber(prev.conclusionDate, trade.conclusionDate);
  }

  /** Sorted trades concluded on one day are always accepted: the sort already orders their executions. */
  lemma SameDayTradesAccepted<T>(trades: seq<T>, info: T -> TradeInfo, day: NaiveDate)
    requires BrokerStatements.SortedBy(trades, InfoKey(info))
    requires forall i :: 0 <= i < |trades| ==> info(trades[i]).conclusionDate == day
    ensures ExecutionsOrdered(KeysOf(trades, info))
  {
    forall i | 0 < i < |trades|
      ensures !Disordered(KeysOf(trades, info), i)
    {
      DisorderNeedsLaterConclusion(trades, info, i);
    }
  }
}
