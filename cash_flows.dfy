/**
 * The actual dates of account cash flow operations of an Interactive Brokers
 * statement (src/broker_statement/ib/cash_flows.rs). The statement lists every
 * operation under its own date; the cash flow section gives, per operation, the
 * dates it really happened on. Each operation takes the oldest such date left.
 */
module CashFlowDates {
  import opened Wrappers
  import opened Dates
  import opened Currency
  import opened PartialStatements

  /** An operation as the statement shows it. */
  datatype CashFlowId = CashFlowId(statementDate: NaiveDate, description: string, amount: Cash)

  /** The dates still waiting for operations of one id, and whether one was already taken. */
  datatype CashFlowRecords = CashFlowRecords(dates: seq<NaiveDate>, consumed: bool)

  /** The mutable part of `CashFlows`. */
  datatype CashFlowState = CashFlowState(flows: map<CashFlowId, CashFlowRecords>, enableWarnings: bool)

  const MappingError := "Not all operations were mapped to their cash flow dates correctly"

  /** `add`: the date joins the end of the id's queue; a new id starts unconsumed. */
  function AddSpec(flows: map<CashFlowId, CashFlowRecords>, id: CashFlowId, date: NaiveDate)
    : (r: map<CashFlowId, CashFlowRecords>)
    ensures r.Keys == flows.Keys + {id}
    ensures forall other :: other in flows && other != id ==> r[other] == flows[other]
    ensures id in flows ==> r[id] == flows[id].(dates := flows[id].dates + [date])
    ensures id !in flows ==> r[id] == CashFlowRecords([date], false)
  {
    var records := if id in flows then flows[id] else CashFlowRecords([], false);
    flows[id := records.(dates := records.dates + [date])]
  }

  /** The date an unmapped operation falls back to: the given one, moved up to the period start. */
  function FallbackDate(period: Result<Period>, fallback: NaiveDate): (r: Result<NaiveDate>)
    ensures r.Err? <==> period.Err?
    ensures r.Ok? ==> !Dates.Less(r.value, fallback) && !Dates.Less(r.value, period.value.0)
    ensures r.Ok? ==> r.value == fallback || r.value == period.value.0
  {
    if period.Err? then Err(period.error)
    else if Dates.Less(fallback, period.value.0) then Ok(period.value.0)
    else Ok(fallback)
  }

  /** `on_mapping_error`: an error in a debug build; otherwise warnings are switched off. */
  function MappingErrorSpec(state: CashFlowState, strict: bool): (Result<()>, CashFlowState)
  {
    if strict then (Err(MappingError), state)
    else (Ok(()), state.(enableWarnings := false))
  }

  /** `map`: the date an operation is mapped to, and the state afterwards. */
  function MapSpec(state: CashFlowState, strict: bool, period: Result<Period>, id: CashFlowId, fallback: NaiveDate)
    : (Result<NaiveDate>, CashFlowState)
  {
    if state.flows == map[] then
      (FallbackDate(period, fallback), state.(enableWarnings := false))
    else if id in state.flows && |state.flows[id].dates| > 0 then
      var records := state.flows[id];
      (Ok(records.dates[0]), state.(flows := state.flows[id := CashFlowRecords(records.dates[1..], true)]))
    else
      var (error, after) := MappingErrorSpec(state, strict);
      if error.Err? then (Err(error.error), after)
      else (FallbackDate(period, fallback), after)
  }

  /** Some operations of this id took a date, yet dates are left over. */
  predicate Leftover(records: CashFlowRecords)
  {
    records.consumed && |records.dates| > 0
  }

  predicate AnyLeftover(flows: map<CashFlowId, CashFlowRecords>, ids: set<CashFlowId>)
  {
    exists id :: id in ids && id in flows && Leftover(flows[id])
  }

  /** `commit`: the mapping error when any id has leftovers, then whether warnings are still on. */
  function CommitSpec(state: CashFlowState, strict: bool): Result<bool>
  {
    if AnyLeftover(state.flows, state.flows.Keys) then
      if strict then Err(MappingError) else Ok(false)
    else Ok(state.enableWarnings)
  }

  class CashFlows {
    var cashFlows: map<CashFlowId, CashFlowRecords>
    var enableWarnings: bool
    /** Whether the program is a debug build, where mapping errors are fatal. */
    const strict: bool

    function State(): CashFlowState
      reads this
    {
      CashFlowState(cashFlows, enableWarnings)
    }

    constructor (enableWarnings: bool, strict: bool)
      ensures cashFlows == map[] && this.enableWarnings == enableWarnings && this.strict == strict
    {
      cashFlows := map[];
      this.enableWarnings := enableWarnings;
      this.strict := strict;
    }

    method Add(id: CashFlowId, date: NaiveDate)
      modifies this
      ensures cashFlows == AddSpec(old(cashFlows), id, date)
      ensures enableWarnings == old(enableWarnings)
    {
      var records := if id in cashFlows then cashFlows[id] else CashFlowRecords([], false);
      cashFlows := cashFlows[id := records.(dates := records.dates + [date])];
    }

    method OnMappingError() returns (r: Result<()>)
      modifies this
      ensures (r, State()) == MappingErrorSpec(old(State()), strict)
      ensures cashFlows == old(cashFlows)
    {
      if strict {
        return Err(MappingError);
      }
      if enableWarnings {
        enableWarnings := false;
      }
      r := Ok(());
    }

    method Map(statement: PartialBrokerStatement, id: CashFlowId, fallback: NaiveDate) returns (r: Result<NaiveDate>)
      modifies this
      ensures (r, State()) == MapSpec(old(State()), strict, statement.GetPeriod(), id, fallback)
    {
      if cashFlows == map[] {
        if enableWarnings {
          enableWarnings := false;
        }
      } else {
        if id in cashFlows {
          var records := cashFlows[id];
          if |records.dates| > 0 {
            var date := records.dates[0];
            cashFlows := cashFlows[id := CashFlowRecords(records.dates[1..], true)];
            return Ok(date);
          }
        }
        var error := OnMappingError();
        if error.Err? {
          return Err(error.error);
        }
      }

      var period := statement.GetPeriod();
      if period.Err? {
        return Err(period.error);
      }
      var date := fallback;
      if Dates.Less(date, period.value.0) {
        date := period.value.0;
      }
      r := Ok(date);
    }

    /** Walks the records in an unspecified order, reporting each id with leftover dates. */
    method Commit() returns (r: Result<bool>)
      modifies this
      ensures r == CommitSpec(old(State()), strict)
      ensures cashFlows == map[]
    {
      var flows := cashFlows;
      cashFlows := map[];
      ghost var before := enableWarnings;
      var pending := flows.Keys;
      while pending != {}
        invariant pending <= flows.Keys && cashFlows == map[]
        invariant !strict ==> enableWarnings == (before && !AnyLeftover(flows, flows.Keys - pending))
        invariant strict ==> enableWarnings == before && !AnyLeftover(flows, flows.Keys - pending)
        decreases pending
      {
        var id :| id in pending;
        LeftoverAdd(flows, flows.Keys - pending, id);
        assert flows.Keys - (pending - {id}) == (flows.Keys - pending) + {id};
        if Leftover(flows[id]) {
          var error := OnMappingError();
          if error.Err? {
            return Err(error.error);
          }
        }
        pending := pending - {id};
      }
      assert flows.Keys - pending == flows.Keys;
      r := Ok(enableWarnings);
    }
  }

  lemma LeftoverAdd(flows: map<CashFlowId, CashFlowRecords>, ids: set<CashFlowId>, id: CashFlowId)
    requires id in flows
    ensures AnyLeftover(flows, ids + {id}) <==> AnyLeftover(flows, ids) || Leftover(flows[id])
  {
    if AnyLeftover(flows, ids + {id}) {
      var other :| other in ids + {id} && other in flows && Leftover(flows[other]);
      if other != id {
        assert AnyLeftover(flows, ids);
      }
    }
  }

  /** Adding several dates for one id, one by one. */
  function AddAll(flows: map<CashFlowId, CashFlowRecords>, id: CashFlowId, dates: seq<NaiveDate>)
    : map<CashFlowId, CashFlowRecords>
    decreases |dates|
  {
    if |dates| == 0 then flows else AddAll(AddSpec(flows, id, dates[0]), id, dates[1..])
  }

  /** The dates of an id are queued in the order they were added; other ids are untouched. */
  lemma {:induction false} AddAllAppends(flows: map<CashFlowId, CashFlowRecords>, id: CashFlowId,
                                         dates: seq<NaiveDate>)
    requires id in flows || |dates| > 0
    ensures var r := AddAll(flows, id, dates);
      id in r && r.Keys == flows.Keys + {id}
      && r[id].dates == (if id in flows then flows[id].dates else []) + dates
      && r[id].consumed == (id in flows && flows[id].consumed)
      && forall other :: other in flows && other != id ==> r[other] == flows[other]
    decreases |dates|
  {
    if |dates| > 0 {
      var before := if id in flows then flows[id].dates else [];
      var next := AddSpec(flows, id, dates[0]);
      assert next[id].dates == before + [dates[0]];
      AddAllAppends(next, id, dates[1..]);
      assert before + [dates[0]] + dates[1..] == before + dates;
    }
  }

  /** Mapping the same operation `n` times in a row: the dates given and the state afterwards. */
  function MapRepeated(state: CashFlowState, strict: bool, period: Result<Period>, id: CashFlowId,
                       fallback: NaiveDate, n: nat): (seq<Result<NaiveDate>>, CashFlowState)
    decreases n
  {
    if n == 0 then ([], state)
    else
      var (first, next) := MapSpec(state, strict, period, id, fallback);
      var (rest, last) := MapRepeated(next, strict, period, id, fallback, n - 1);
      ([first] + rest, last)
  }

  /**
   * Operations of one id take the queued dates oldest first: `n` of them get the
   * first `n` dates, and the rest stay queued with the id marked consumed.
   */
  lemma {:induction false} MapTakesInOrder(state: CashFlowState, strict: bool, period: Result<Period>,
                                           id: CashFlowId, fallback: NaiveDate, n: nat)
    requires id in state.flows && n <= |state.flows[id].dates|
    ensures var (results, after) := MapRepeated(state, strict, period, id, fallback, n);
      var dates := state.flows[id].dates;
      |results| == n
      && (forall k :: 0 <= k < n ==> results[k] == Ok(dates[k]))
      && after.enableWarnings == state.enableWarnings
      && after.flows == state.flows[id := CashFlowRecords(dates[n..], n > 0 || state.flows[id].consumed)]
    decreases n
  {
    if n > 0 {
      var dates := state.flows[id].dates;
      var (first, next) := MapSpec(state, strict, period, id, fallback);
      assert first == Ok(dates[0]);
      assert next.flows == state.flows[id := CashFlowRecords(dates[1..], true)];
      MapTakesInOrder(next, strict, period, id, fallback, n - 1);
      assert dates[1..][n - 1..] == dates[n..];
      var (rest, last) := MapRepeated(next, strict, period, id, fallback, n - 1);
      assert forall k :: 0 <= k < n - 1 ==> rest[k] == Ok(dates[k + 1]);
    }
  }

  /** Once the queue of an id is exhausted, the next operation of that id is a mapping error. */
  lemma ExhaustedIsMappingError(state: CashFlowState, period: Result<Period>, id: CashFlowId, fallback: NaiveDate)
    requires id in state.flows && state.flows[id].dates == []
    ensures MapSpec(state, true, period, id, fallback).0 == Err(MappingError)
    ensures MapSpec(state, false, period, id, fallback) == (FallbackDate(period, fallback), state.(enableWarnings := false))
  {
  }

  /** Without any cash flow information every operation keeps its own date, raised to the period start. */
  lemma NoInformationFallsBack(enableWarnings: bool, strict: bool, period: Result<Period>, id: CashFlowId,
                               fallback: NaiveDate)
    ensures var (r, after) := MapSpec(CashFlowState(map[], enableWarnings), strict, period, id, fallback);
      r == FallbackDate(period, fallback) && after == CashFlowState(map[], false)
  {
  }

  /** An id whose queue was partly taken is reported by `commit`; one taken completely is not. */
  lemma CommitFlagsPartialQueues(state: CashFlowState, id: CashFlowId)
    requires id in state.flows
    ensures Leftover(state.flows[id]) ==> CommitSpec(state, true) == Err(MappingError)
    ensures Leftover(state.flows[id]) ==> CommitSpec(state, false) == Ok(false)
    ensures (forall other :: other in state.flows ==> !Leftover(state.flows[other]))
            ==> CommitSpec(state, true) == Ok(state.enableWarnings)
  {
    if Leftover(state.flows[id]) {
      assert AnyLeftover(state.flows, state.flows.Keys);
    }
  }

  /** An id none of whose dates was taken is never a leftover, however many dates it holds. */
  lemma UnusedQueueIsNoLeftover(flows: map<CashFlowId, CashFlowRecords>, id: CashFlowId, dates: seq<NaiveDate>)
    requires id !in flows && |dates| > 0
    ensures var r := AddAll(flows, id, dates); id in r && !Leftover(r[id])
  {
    AddAllAppends(flows, id, dates);
  }
}
