/**
 * The per-instrument view of the performance analysis
 * (src/analysis/performance/instrument_view.rs): it collects an instrument's trades
 * per day and per `portfolio:symbol`, and turns them into the periods during which a
 * position in the instrument was open.
 */
module InstrumentView {
  import opened Wrappers
  import opened Dates
  import Deposit = DepositEmulation

  /** Traded quantities per `portfolio:symbol`, or balances per symbol. */
  type Quantities = map<string, real>

  /** A missing entry counts as zero (`or_default`). */
  function Get(quantities: Quantities, id: string): real
  {
    if id in quantities then quantities[id] else 0.0
  }

  /** `format!("{}:{}", portfolio_id, symbol)`. */
  function InstrumentId(portfolioId: string, symbol: string): string
  {
    portfolioId + ":" + symbol
  }

  /** The trade days of the view in the order of the source's `BTreeMap`: strictly increasing dates. */
  predicate DaysSorted(days: seq<(NaiveDate, Quantities)>)
  {
    forall i :: 0 < i < |days| ==> Dates.Less(days[i - 1].0, days[i].0)
  }

  /** The trades booked on `date`: nothing on a day without trades. */
  function DayTrades(days: seq<(NaiveDate, Quantities)>, date: NaiveDate): Quantities
  {
    if |days| == 0 then map[]
    else if days[0].0 == date then days[0].1
    else DayTrades(days[1..], date)
  }

  /** The trade days with `quantity` added to the entry of `id` on `date` (`entry(..).or_default() += quantity`). */
  function AddDayTrade(days: seq<(NaiveDate, Quantities)>, date: NaiveDate, id: string, quantity: real)
    : (r: seq<(NaiveDate, Quantities)>)
    ensures |r| > 0 && (r[0].0 == date || (|days| > 0 && r[0].0 == days[0].0))
  {
    if |days| == 0 then [(date, map[id := quantity])]
    else if days[0].0 == date then [(date, days[0].1[id := Get(days[0].1, id) + quantity])] + days[1..]
    else if Dates.Less(date, days[0].0) then [(date, map[id := quantity])] + days
    else [days[0]] + AddDayTrade(days[1..], date, id, quantity)
  }

  lemma Trichotomy(a: NaiveDate, b: NaiveDate)
    ensures Dates.Less(a, b) || a == b || Dates.Less(b, a)
  {
    LessDayNumber(a, b);
    LessDayNumber(b, a);
    if DayNumber(a) == DayNumber(b) {
      DayNumberInjective(a, b);
    }
  }

  /** Adding a trade keeps the days in date order. */
  lemma {:induction false} AddDayTradeSorted(days: seq<(NaiveDate, Quantities)>, date: NaiveDate, id: string, quantity: real)
    requires DaysSorted(days)
    ensures DaysSorted(AddDayTrade(days, date, id, quantity))
  {
    if |days| > 0 && days[0].0 != date && !Dates.Less(date, days[0].0) {
      Trichotomy(date, days[0].0);
      assert DaysSorted(days[1..]) by {
        forall i | 0 < i < |days[1..]| ensures Dates.Less(days[1..][i - 1].0, days[1..][i].0) {
          assert days[1..][i - 1] == days[i] && days[1..][i] == days[i + 1];
        }
      }
      AddDayTradeSorted(days[1..], date, id, quantity);
      var rest := AddDayTrade(days[1..], date, id, quantity);
      assert AddDayTrade(days, date, id, quantity) == [days[0]] + rest;
      assert Dates.Less(days[0].0, rest[0].0);
    }
  }

  /**
   * The view's trades after `trade`: the entry of `id` on `date` grows by `quantity`;
   * every other entry stays as it was.
   */
  lemma {:induction false} AddDayTradeLookup(days: seq<(NaiveDate, Quantities)>, date: NaiveDate, id: string, quantity: real, day: NaiveDate)
    requires DaysSorted(days)
    ensures DayTrades(AddDayTrade(days, date, id, quantity), day)
      == if day == date then DayTrades(days, date)[id := Get(DayTrades(days, date), id) + quantity]
         else DayTrades(days, day)
  {
    if |days| > 0 && days[0].0 != date {
      if Dates.Less(date, days[0].0) {
        if day == date {
          NotBeforeFirst(days, date);
        }
      } else {
        assert DaysSorted(days[1..]) by {
          forall i | 0 < i < |days[1..]| ensures Dates.Less(days[1..][i - 1].0, days[1..][i].0) {
            assert days[1..][i - 1] == days[i] && days[1..][i] == days[i + 1];
          }
        }
        AddDayTradeLookup(days[1..], date, id, quantity, day);
        var rest := AddDayTrade(days[1..], date, id, quantity);
        assert AddDayTrade(days, date, id, quantity) == [days[0]] + rest;
        assert ([days[0]] + rest)[1..] == rest;
      }
    }
  }

  /** A date before the first trade day has no trades. */
  lemma {:induction false} NotBeforeFirst(days: seq<(NaiveDate, Quantities)>, date: NaiveDate)
    requires DaysSorted(days) && |days| > 0 && Dates.Less(date, days[0].0)
    ensures DayTrades(days, date) == map[]
    decreases |days|
  {
    if |days| > 1 {
      assert DaysSorted(days[1..]) by {
        forall i | 0 < i < |days[1..]| ensures Dates.Less(days[1..][i - 1].0, days[1..][i].0) {
          assert days[1..][i - 1] == days[i] && days[1..][i] == days[i + 1];
        }
      }
      LessTransitive(date, days[0].0, days[1].0);
      NotBeforeFirst(days[1..], date);
    }
  }

  lemma LessTransitive(a: NaiveDate, b: NaiveDate, c: NaiveDate)
    requires Dates.Less(a, b) && Dates.Less(b, c)
    ensures Dates.Less(a, c)
  {
    LessDayNumber(a, b);
    LessDayNumber(b, c);
    LessDayNumber(a, c);
  }

  // ---------------------------------------------------------------------------
  // One logical open position (`OpenPosition`).
  // ---------------------------------------------------------------------------

  /** A symbol's balance after the day's trades. */
  function Balance(symbols: Quantities, trades: Quantities, symbol: string): real
  {
    Get(symbols, symbol) + Get(trades, symbol)
  }

  /** Some symbol's balance drops below zero: a sale of stock the position does not hold. */
  predicate GoesNegative(symbols: Quantities, trades: Quantities)
  {
    exists symbol :: symbol in trades && Balance(symbols, trades, symbol) < 0.0
  }

  /** A balance once the symbols in `done` have been traded. */
  function PartBalance(symbols: Quantities, trades: Quantities, done: set<string>, symbol: string): real
  {
    Get(symbols, symbol) + (if symbol in done then Get(trades, symbol) else 0.0)
  }

  /** The balances once the symbols in `done` have been traded; symbols at zero are dropped. */
  function Traded(symbols: Quantities, trades: Quantities, done: set<string>): Quantities
  {
    map symbol | symbol in symbols.Keys + done && PartBalance(symbols, trades, done, symbol) != 0.0
      :: PartBalance(symbols, trades, done, symbol)
  }

  /** Balances of an open position are positive. */
  predicate Positive(symbols: Quantities)
  {
    forall symbol :: symbol in symbols ==> symbols[symbol] > 0.0
  }

  /** The balances after all of a day's trades, unless one goes negative. */
  function AfterTrades(symbols: Quantities, trades: Quantities): (r: Result<Quantities>)
    ensures r.Ok? <==> !GoesNegative(symbols, trades)
  {
    if GoesNegative(symbols, trades) then Err("Got a negative balance")
    else Ok(Traded(symbols, trades, trades.Keys))
  }

  /** A position that does not go negative keeps positive balances. */
  lemma AfterTradesPositive(symbols: Quantities, trades: Quantities)
    requires Positive(symbols) && AfterTrades(symbols, trades).Ok?
    ensures Positive(AfterTrades(symbols, trades).value)
  {
    var r := AfterTrades(symbols, trades).value;
    forall symbol | symbol in r ensures r[symbol] > 0.0 {
      if symbol !in trades {
        assert r[symbol] == symbols[symbol];
      } else {
        assert Balance(symbols, trades, symbol) >= 0.0;
      }
    }
  }

  /** Before any trade the balances are the opening ones. */
  lemma TradedNothing(symbols: Quantities, trades: Quantities)
    requires Positive(symbols)
    ensures Traded(symbols, trades, {}) == symbols
  {
  }

  /** A symbol not yet traded still has its opening balance. */
  lemma TradedUntouched(symbols: Quantities, trades: Quantities, done: set<string>, symbol: string)
    requires symbol !in done
    ensures Get(Traded(symbols, trades, done), symbol) == Get(symbols, symbol)
  {
  }

  /** Trading one more symbol leaves the other balances as they were. */
  lemma TradedOthers(symbols: Quantities, trades: Quantities, done: set<string>, symbol: string, other: string)
    requires other != symbol
    ensures PartBalance(symbols, trades, done, other) == PartBalance(symbols, trades, done + {symbol}, other)
  {
  }

  /** Trading one more symbol sets or removes its balance. */
  lemma TradedStep(symbols: Quantities, trades: Quantities, done: set<string>, symbol: string, current: real)
    requires symbol !in done && current == Balance(symbols, trades, symbol)
    ensures current != 0.0 ==> Traded(symbols, trades, done)[symbol := current] == Traded(symbols, trades, done + {symbol})
    ensures current == 0.0 ==> Traded(symbols, trades, done) - {symbol} == Traded(symbols, trades, done + {symbol})
  {
    var before, after := Traded(symbols, trades, done), Traded(symbols, trades, done + {symbol});
    forall other | other != symbol
      ensures PartBalance(symbols, trades, done, other) == PartBalance(symbols, trades, done + {symbol}, other)
    {
      TradedOthers(symbols, trades, done, symbol, other);
    }
    if current != 0.0 {
      assert before[symbol := current].Keys == after.Keys;
    } else {
      assert (before - {symbol}).Keys == after.Keys;
    }
  }

  /** `OpenPosition`: the day it opened and the balances of its symbols. */
  class OpenPosition {
    var openDate: NaiveDate
    var symbols: Quantities

    constructor(openDate: NaiveDate)
      ensures this.openDate == openDate && symbols == map[]
    {
      this.openDate := openDate;
      symbols := map[];
    }

    /**
     * `trade`: applies a day's trades. It fails when a balance goes negative, drops the
     * symbols that reach zero and tells whether the position is still open. After a
     * failure the position is not used again, so its balances are left unspecified.
     */
    method Trade(date: NaiveDate, trades: Quantities) returns (r: Result<bool>)
      requires Positive(symbols)
      modifies this
      ensures openDate == old(openDate)
      ensures r.Ok? <==> AfterTrades(old(symbols), trades).Ok?
      ensures r.Ok? ==> symbols == AfterTrades(old(symbols), trades).value && r.value == (symbols != map[])
      ensures r.Err? ==> r.error == "Got a negative balance"
    {
      ghost var start := symbols;
      ghost var done: set<string> := {};
      TradedNothing(start, trades);
      var pending := trades.Keys;
      while pending != {}
        invariant done + pending == trades.Keys && done !! pending
        invariant openDate == old(openDate)
        invariant symbols == Traded(start, trades, done)
        invariant forall symbol :: symbol in done ==> Balance(start, trades, symbol) >= 0.0
        decreases pending
      {
        var symbol :| symbol in pending;
        TradedUntouched(start, trades, done, symbol);
        var current := Get(symbols, symbol) + trades[symbol];
        TradedStep(start, trades, done, symbol, current);
        if current > 0.0 {
          symbols := symbols[symbol := current];
        } else if current == 0.0 {
          symbols := symbols - {symbol};
        } else {
          assert Balance(start, trades, symbol) < 0.0;
          return Err("Got a negative balance");
        }
        pending := pending - {symbol};
        done := done + {symbol};
      }
      return Ok(symbols != map[]);
    }
  }

  // ---------------------------------------------------------------------------
  // The open position periods (`calculate_open_position_periods`).
  // ---------------------------------------------------------------------------

  /** A logical open position as a value. */
  datatype Position = Position(openDate: NaiveDate, symbols: Quantities)

  /** The state after some trade days: the position still open, if any, and the periods so far. */
  datatype Scan = Scan(open: Option<Position>, periods: seq<Deposit.InterestPeriod>)

  /** Appends the period `[openDate, closeDate)`, or extends the last one when it reaches `openDate`. */
  function AddPeriod(periods: seq<Deposit.InterestPeriod>, openDate: NaiveDate, closeDate: NaiveDate): seq<Deposit.InterestPeriod>
  {
    if |periods| > 0 && LessEq(openDate, periods[|periods| - 1].end) then
      periods[..|periods| - 1] + [Deposit.InterestPeriod(periods[|periods| - 1].start, closeDate)]
    else
      periods + [Deposit.InterestPeriod(openDate, closeDate)]
  }

  /** One trade day: opens a position if none is open, trades, and closes the position when it is empty. */
  function ScanDay(state: Scan, date: NaiveDate, trades: Quantities): Result<Scan>
  {
    var position := if state.open.Some? then state.open.value else Position(date, map[]);
    var after := AfterTrades(position.symbols, trades);
    if after.Err? then Err(after.error)
    else if after.value != map[] then Ok(Scan(Some(Position(position.openDate, after.value)), state.periods))
    else
      var closeDate := if date == position.openDate then Succ(date) else date;
      Ok(Scan(None, AddPeriod(state.periods, position.openDate, closeDate)))
  }

  /** The state after the trade days `days`, in order; the first error stops the scan. */
  function ScanDays(days: seq<(NaiveDate, Quantities)>): Result<Scan>
  {
    if |days| == 0 then Ok(Scan(None, []))
    else
      var before := ScanDays(days[..|days| - 1]);
      if before.Err? then before else ScanDay(before.value, days[|days| - 1].0, days[|days| - 1].1)
  }

  /** What `calculate_open_position_periods` computes from the view's trade days. */
  function OpenPositionPeriods(days: seq<(NaiveDate, Quantities)>): Result<seq<Deposit.InterestPeriod>>
  {
    if |days| == 0 then Err("Got an unexpected transaction which has no trades")
    else
      var scan := ScanDays(days);
      if scan.Err? then Err(scan.error)
      else if scan.value.open.Some? then Err("The portfolio contains unsold stocks when sellout simulation is expected")
      else Ok(scan.value.periods)
  }

  /** A failed scan stays failed, with the same error. */
  lemma {:induction false} ScanErrSticky(days: seq<(NaiveDate, Quantities)>, i: nat)
    requires i <= |days| && ScanDays(days[..i]).Err?
    ensures ScanDays(days) == ScanDays(days[..i])
    decreases |days| - i
  {
    if i < |days| {
      assert days[..i + 1][..i] == days[..i];
      ScanErrSticky(days, i + 1);
    } else {
      assert days[..i] == days;
    }
  }

  /** Periods that are non-empty, in order, and separated by at least a day. */
  predicate Separated(periods: seq<Deposit.InterestPeriod>)
  {
    (forall i :: 0 <= i < |periods| ==> Dates.Less(periods[i].start, periods[i].end))
    && (forall i :: 0 < i < |periods| ==> Dates.Less(periods[i - 1].end, periods[i].start))
  }

  /**
   * The invariant of the scan after the trade day `last`: the periods are separated, end
   * no later than the day after `last`, and an open position opened no later than `last`,
   * on or after the last period's end, with positive balances.
   */
  predicate ScanValid(state: Scan, last: NaiveDate)
  {
    Separated(state.periods)
    && (|state.periods| > 0 ==> LessEq(state.periods[|state.periods| - 1].end, Succ(last)))
    && (state.open.None? ==> |state.periods| > 0)
    && (state.open.Some? ==>
          LessEq(state.open.value.openDate, last) && Positive(state.open.value.symbols)
          && (|state.periods| > 0 ==> LessEq(state.periods[|state.periods| - 1].end, state.open.value.openDate)))
  }

  /** The first trade day opens the scan validly. */
  lemma ScanFirstDay(date: NaiveDate, trades: Quantities)
    requires ScanDay(Scan(None, []), date, trades).Ok?
    ensures ScanValid(ScanDay(Scan(None, []), date, trades).value, date)
  {
    AfterTradesPositive(map[], trades);
    SuccDayNumber(date);
    LessDayNumber(date, Succ(date));
  }

  /** The day after `a` is later than `a`. */
  lemma LessSucc(a: NaiveDate)
    ensures Dates.Less(a, Succ(a))
  {
    SuccDayNumber(a);
    LessDayNumber(a, Succ(a));
  }

  /** A day later than `a` is no earlier than the day after `a`. */
  lemma SuccAtMost(a: NaiveDate, b: NaiveDate)
    requires Dates.Less(a, b)
    ensures LessEq(Succ(a), b)
  {
    SuccDayNumber(a);
    LessDayNumber(a, b);
    LessDayNumber(b, Succ(a));
  }

  /** A trade day after `last` that leaves the position open keeps the scan valid. */
  lemma ScanStepOpen(state: Scan, last: NaiveDate, date: NaiveDate, trades: Quantities)
    requires ScanValid(state, last) && Dates.Less(last, date) && ScanDay(state, date, trades).Ok?
    requires ScanDay(state, date, trades).value.open.Some?
    ensures ScanValid(ScanDay(state, date, trades).value, date)
  {
    var position := if state.open.Some? then state.open.value else Position(date, map[]);
    var after := AfterTrades(position.symbols, trades);
    assert ScanDay(state, date, trades).value == Scan(Some(Position(position.openDate, after.value)), state.periods);
    AfterTradesPositive(position.symbols, trades);
    SuccAtMost(last, date);
    LessSucc(date);
  }

  /** A trade day after `last` that closes the position keeps the scan valid. */
  lemma ScanStepClose(state: Scan, last: NaiveDate, date: NaiveDate, trades: Quantities)
    requires ScanValid(state, last) && Dates.Less(last, date) && ScanDay(state, date, trades).Ok?
    requires ScanDay(state, date, trades).value.open.None?
    ensures ScanValid(ScanDay(state, date, trades).value, date)
  {
    var position := if state.open.Some? then state.open.value else Position(date, map[]);
    var closeDate := if date == position.openDate then Succ(date) else date;
    var periods := state.periods;
    assert ScanDay(state, date, trades).value == Scan(None, AddPeriod(periods, position.openDate, closeDate));
    LessSucc(date);
    assert Dates.Less(position.openDate, closeDate) && LessEq(closeDate, Succ(date));
    if |periods| > 0 {
      AddPeriodSeparated(periods, position.openDate, closeDate);
    }
  }

  /** Extending or appending keeps the periods separated when the new one ends after both its start and the last end. */
  lemma AddPeriodSeparated(periods: seq<Deposit.InterestPeriod>, openDate: NaiveDate, closeDate: NaiveDate)
    requires Separated(periods) && |periods| > 0 && Dates.Less(openDate, closeDate)
    requires Dates.Less(periods[|periods| - 1].end, closeDate)
    ensures Separated(AddPeriod(periods, openDate, closeDate))
    ensures AddPeriod(periods, openDate, closeDate)[|AddPeriod(periods, openDate, closeDate)| - 1].end == closeDate
  {
    var n := |periods|;
    if LessEq(openDate, periods[n - 1].end) {
      var r := periods[..n - 1] + [Deposit.InterestPeriod(periods[n - 1].start, closeDate)];
      LessTransitive(periods[n - 1].start, periods[n - 1].end, closeDate);
      assert forall i :: 0 <= i < n - 1 ==> r[i] == periods[i];
    } else {
      Trichotomy(openDate, periods[n - 1].end);
    }
  }

  /** A trade day after `last` keeps the scan valid. */
  lemma ScanStep(state: Scan, last: NaiveDate, date: NaiveDate, trades: Quantities)
    requires ScanValid(state, last) && Dates.Less(last, date) && ScanDay(state, date, trades).Ok?
    ensures ScanValid(ScanDay(state, date, trades).value, date)
  {
    if ScanDay(state, date, trades).value.open.Some? {
      ScanStepOpen(state, last, date, trades);
    } else {
      ScanStepClose(state, last, date, trades);
    }
  }

  /** The scan of sorted trade days, when it does not fail, is valid after the last day. */
  lemma {:induction false} ScanDaysValid(days: seq<(NaiveDate, Quantities)>)
    requires DaysSorted(days) && |days| > 0 && ScanDays(days).Ok?
    ensures ScanValid(ScanDays(days).value, days[|days| - 1].0)
  {
    var n := |days|;
    var prefix := days[..n - 1];
    if n == 1 {
      assert prefix == [];
    } else {
      assert DaysSorted(prefix) by {
        forall i | 0 < i < |prefix| ensures Dates.Less(prefix[i - 1].0, prefix[i].0) {
          assert prefix[i - 1] == days[i - 1] && prefix[i] == days[i];
        }
      }
      ScanDaysValid(prefix);
      ScanStep(ScanDays(prefix).value, days[n - 2].0, days[n - 1].0, days[n - 1].1);
    }
  }

  /**
   * A successful calculation gives at least one period; the periods are non-empty, in
   * date order and separated, because adjacent ones are merged.
   */
  lemma OpenPositionPeriodsSeparated(days: seq<(NaiveDate, Quantities)>)
    requires DaysSorted(days) && OpenPositionPeriods(days).Ok?
    ensures |OpenPositionPeriods(days).value| > 0 && Separated(OpenPositionPeriods(days).value)
  {
    ScanDaysValid(days);
  }

  /** A position opened and closed on the same day gives the one-day period. */
  lemma SameDayRoundTrip(date: NaiveDate, id: string)
    ensures OpenPositionPeriods([(date, map[id := 0.0])]) == Ok([Deposit.InterestPeriod(date, Succ(date))])
  {
    var days := [(date, map[id := 0.0])];
    assert days[..0] == [];
    assert !GoesNegative(map[], map[id := 0.0]) by {
      forall symbol | symbol in map[id := 0.0] ensures Balance(map[], map[id := 0.0], symbol) >= 0.0 {
        assert symbol == id;
      }
    }
    assert map[id := 0.0].Keys == {id};
    assert Traded(map[], map[id := 0.0], {id}) == map[];
    assert ScanDays(days) == ScanDay(Scan(None, []), date, map[id := 0.0]);
    assert AfterTrades(map[], map[id := 0.0]) == Ok(map[]);
    assert AddPeriod([], date, Succ(date)) == [Deposit.InterestPeriod(date, Succ(date))];
    assert ScanDay(Scan(None, []), date, map[id := 0.0]) == Ok(Scan(None, [Deposit.InterestPeriod(date, Succ(date))]));
  }

  /** A sale of stock never bought is an error, and so is a position still open at the end. */
  lemma BadTradeDays(date: NaiveDate, id: string)
    ensures OpenPositionPeriods([(date, map[id := -1.0])]).Err?
    ensures OpenPositionPeriods([(date, map[id := 1.0])]).Err?
    ensures OpenPositionPeriods([]).Err?
  {
    var buy := [(date, map[id := 1.0])];
    var sell := [(date, map[id := -1.0])];
    assert buy[..0] == [] && sell[..0] == [];
    assert Balance(map[], map[id := -1.0], id) < 0.0;
    assert ScanDay(Scan(None, []), date, map[id := -1.0]).Err?;
    assert ScanDays(sell) == ScanDay(Scan(None, []), date, map[id := -1.0]);
    assert !GoesNegative(map[], map[id := 1.0]) by {
      forall symbol | symbol in map[id := 1.0] ensures Balance(map[], map[id := 1.0], symbol) >= 0.0 {
        assert symbol == id;
      }
    }
    assert map[id := 1.0].Keys == {id};
    assert id in Traded(map[], map[id := 1.0], {id});
    assert ScanDays(buy) == ScanDay(Scan(None, []), date, map[id := 1.0]);
    assert ScanDay(Scan(None, []), date, map[id := 1.0]).value.open.Some?;
  }

  /** The scan of a prefix of sorted trade days is valid after the prefix's last day. */
  lemma ScanPrefixValid(days: seq<(NaiveDate, Quantities)>, i: nat)
    requires DaysSorted(days) && 0 < i <= |days| && ScanDays(days[..i]).Ok?
    ensures ScanValid(ScanDays(days[..i]).value, days[i - 1].0)
  {
    var prefix := days[..i];
    assert DaysSorted(prefix) by {
      forall k | 0 < k < |prefix| ensures Dates.Less(prefix[k - 1].0, prefix[k].0) {
        assert prefix[k - 1] == days[k - 1] && prefix[k] == days[k];
      }
    }
    ScanDaysValid(prefix);
  }

  /**
   * Closing a position: the period ends the day after a same-day round trip, else on the
   * closing day; it extends the last period when that one reaches the opening day. The
   * source asserts that the last period then ends exactly on the opening day, before the
   * new closing day.
   */
  method ClosePeriod(periods: seq<Deposit.InterestPeriod>, openDate: NaiveDate, date: NaiveDate)
    returns (r: seq<Deposit.InterestPeriod>)
    requires LessEq(openDate, date) && (|periods| > 0 ==> LessEq(periods[|periods| - 1].end, openDate))
    ensures r == AddPeriod(periods, openDate, if date == openDate then Succ(date) else date)
  {
    var closeDate := if date == openDate then Succ(date) else date;
    SuccDayNumber(date);
    LessDayNumber(date, Succ(date));
    LessDayNumber(openDate, date);
    LessDayNumber(openDate, closeDate);
    if |periods| > 0 && LessEq(openDate, periods[|periods| - 1].end) {
      LessDayNumber(periods[|periods| - 1].end, openDate);
      LessDayNumber(openDate, periods[|periods| - 1].end);
      assert periods[|periods| - 1].end == openDate;
      assert Dates.Less(periods[|periods| - 1].end, closeDate);
      r := periods[..|periods| - 1] + [Deposit.InterestPeriod(periods[|periods| - 1].start, closeDate)];
    } else {
      r := periods + [Deposit.InterestPeriod(openDate, closeDate)];
    }
  }

  /**
   * One iteration of `calculate_open_position_periods`: opens a position if none is
   * open, applies the day's trades and closes the position once it is empty. `error` is
   * the failure of `OpenPosition::trade`.
   */
  method ScanTradeDay(days: seq<(NaiveDate, Quantities)>, i: nat, openPosition: OpenPosition?, periods: seq<Deposit.InterestPeriod>)
    returns (next: OpenPosition?, nextPeriods: seq<Deposit.InterestPeriod>, error: Option<string>)
    requires DaysSorted(days) && i < |days|
    requires ScanDays(days[..i]) == Ok(Scan(if openPosition == null then None
      else Some(Position(openPosition.openDate, openPosition.symbols)), periods))
    modifies openPosition
    ensures next != null ==> next == openPosition || fresh(next)
    ensures error.Some? ==> ScanDays(days[..i + 1]) == Err(error.value)
    ensures error.None? ==> ScanDays(days[..i + 1]) == Ok(Scan(if next == null then None
      else Some(Position(next.openDate, next.symbols)), nextPeriods))
  {
    var date := days[i].0;
    assert days[..i + 1][..i] == days[..i];
    if i > 0 {
      ScanPrefixValid(days, i);
      LessDayNumber(days[i - 1].0, date);
      SuccDayNumber(days[i - 1].0);
      LessDayNumber(Succ(days[i - 1].0), date);
    }
    var current: OpenPosition;
    if openPosition == null {
      current := new OpenPosition(date);
    } else {
      current := openPosition;
    }
    var stillOpen := current.Trade(date, days[i].1);
    if stillOpen.Err? {
      return null, periods, Some(stillOpen.error);
    }
    if stillOpen.value {
      return current, periods, None;
    }
    nextPeriods := ClosePeriod(periods, current.openDate, date);
    return null, nextPeriods, None;
  }

  /** The loop of `calculate_open_position_periods` over the trade days. */
  method ScanOpenPositions(days: seq<(NaiveDate, Quantities)>) returns (r: Result<seq<Deposit.InterestPeriod>>)
    requires DaysSorted(days)
    ensures r == OpenPositionPeriods(days)
  {
    if |days| == 0 {
      return Err("Got an unexpected transaction which has no trades");
    }
    var openPosition: OpenPosition? := null;
    var periods: seq<Deposit.InterestPeriod> := [];
    for i := 0 to |days|
      invariant openPosition != null ==> fresh(openPosition)
      invariant ScanDays(days[..i]) == Ok(Scan(if openPosition == null then None
        else Some(Position(openPosition.openDate, openPosition.symbols)), periods))
    {
      var error: Option<string>;
      openPosition, periods, error := ScanTradeDay(days, i, openPosition, periods);
      if error.Some? {
        ScanErrSticky(days, i + 1);
        return Err(error.value);
      }
    }
    assert days[..|days|] == days;
    if openPosition != null {
      return Err("The portfolio contains unsold stocks when sellout simulation is expected");
    }
    return Ok(periods);
  }

  /** The view of one instrument (`InstrumentDepositView`). */
  class InstrumentDepositView {
    const symbol: string
    var name: Option<string>
    var trades: seq<(NaiveDate, Quantities)>
    var transactions: seq<Deposit.Transaction>
    var interestPeriods: seq<Deposit.InterestPeriod>
    var closed: bool

    predicate Valid()
      reads this
    {
      DaysSorted(trades)
    }

    /** `new`: no trades, transactions or periods yet; the view starts closed. */
    constructor(symbol: string)
      ensures Valid() && this.symbol == symbol && name == None && trades == [] && transactions == []
      ensures interestPeriods == [] && closed
    {
      this.symbol := symbol;
      name := None;
      trades := [];
      transactions := [];
      interestPeriods := [];
      closed := true;
    }

    /** `trade`: adds `quantity` to the day's entry for `portfolio:symbol`. */
    method Trade(portfolioId: string, symbol: string, date: NaiveDate, quantity: real)
      requires Valid()
      modifies this
      ensures Valid()
      ensures trades == AddDayTrade(old(trades), date, InstrumentId(portfolioId, symbol), quantity)
      ensures name == old(name) && transactions == old(transactions)
      ensures interestPeriods == old(interestPeriods) && closed == old(closed)
    {
      AddDayTradeSorted(trades, date, InstrumentId(portfolioId, symbol), quantity);
      trades := AddDayTrade(trades, date, InstrumentId(portfolioId, symbol), quantity);
    }

    /** `transaction`: records a non-zero cash flow; assets received for free are skipped. */
    method Transaction(date: NaiveDate, amount: real)
      modifies this
      ensures transactions == if amount != 0.0 then old(transactions) + [Deposit.Transaction(date, amount)] else old(transactions)
      ensures name == old(name) && trades == old(trades)
      ensures interestPeriods == old(interestPeriods) && closed == old(closed)
    {
      if amount != 0.0 {
        transactions := transactions + [Deposit.Transaction(date, amount)];
      }
    }

    /** `calculate_open_position_periods`: stores the periods on success and fails as `OpenPositionPeriods` does. */
    method CalculateOpenPositionPeriods() returns (r: Result<()>)
      requires Valid()
      modifies this
      ensures r.Ok? <==> OpenPositionPeriods(old(trades)).Ok?
      ensures r.Ok? ==> interestPeriods == OpenPositionPeriods(old(trades)).value
      ensures r.Err? ==> r.error == OpenPositionPeriods(old(trades)).error && interestPeriods == old(interestPeriods)
      ensures Valid() && trades == old(trades) && name == old(name) && transactions == old(transactions) && closed == old(closed)
    {
      var periods := ScanOpenPositions(trades);
      if periods.Err? {
        return Err(periods.error);
      }
      interestPeriods := periods.value;
      return Ok(());
    }
  }
}
