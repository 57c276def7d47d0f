/**
 * The statement a parser fills in piece by piece (src/broker_statement/partial.rs):
 * fields that may be set only once, and the positions the broker declares.
 */
module PartialStatements {
  import opened Wrappers
  import opened Dates
  import opened MultiCurrency

  /** A statement period: from its first day up to, not including, its end. */
  type Period = (NaiveDate, NaiveDate)

  /** `get_option`: the stored value, or an error naming the missing field. */
  function GetOption<T>(name: string, option: Option<T>): (r: Result<T>)
    ensures r.Ok? <==> option.Some?
    ensures r.Ok? ==> r.value == option.value
    ensures r.Err? ==> r.error == name + " is missing"
  {
    match option
    case Some(value) => Ok(value)
    case None => Err(name + " is missing")
  }

  /** `set_option`: the field holding `value`, or an error when it was already set. */
  function SetOption<T>(name: string, option: Option<T>, value: T): (r: Result<Option<T>>)
    ensures r.Ok? <==> option.None?
    ensures r.Ok? ==> r.value == Some(value)
    ensures r.Err? ==> r.error == "Duplicate " + name
  {
    if option.Some? then Err("Duplicate " + name) else Ok(Some(value))
  }

  /** A field that was set reads back the value it was set to, and cannot be set again. */
  lemma SetOnce<T>(name: string, value: T, other: T)
    ensures SetOption(name, None, value).Ok?
    ensures GetOption(name, SetOption(name, None, value).value) == Ok(value)
    ensures SetOption(name, SetOption(name, None, value).value, other).Err?
  {
  }

  class PartialBrokerStatement {
    var period: Option<Period>
    var hasStartingAssets: Option<bool>
    var cash: Option<Assets>
    var openPositions: map<string, real>

    /** Every declared open position holds a strictly positive quantity. */
    predicate Valid()
      reads this
    {
      forall symbol :: symbol in openPositions ==> openPositions[symbol] > 0.0
    }

    /** `new`: nothing is set; the cash assets start at zero only for brokers that report none. */
    constructor (zeroCashAssets: bool)
      ensures Valid()
      ensures period.None? && hasStartingAssets.None? && openPositions == map[]
      ensures cash == (if zeroCashAssets then Some(map[]) else None)
    {
      period := None;
      hasStartingAssets := None;
      cash := if zeroCashAssets then Some(map[]) else None;
      openPositions := map[];
    }

    method SetPeriod(value: Period) returns (r: Result<()>)
      modifies this
      ensures r.Ok? <==> old(period).None?
      ensures period == (if r.Ok? then Some(value) else old(period))
      ensures hasStartingAssets == old(hasStartingAssets) && cash == old(cash)
      ensures openPositions == old(openPositions)
    {
      var updated := SetOption("statement period", period, value);
      if updated.Err? {
        return Err(updated.error);
      }
      period := updated.value;
      r := Ok(());
    }

    function GetPeriod(): (r: Result<Period>)
      reads this
      ensures r.Ok? <==> period.Some?
      ensures r.Ok? ==> r.value == period.value
    {
      GetOption("statement period", period)
    }

    method SetHasStartingAssets(present: bool) returns (r: Result<()>)
      modifies this
      ensures r.Ok? <==> old(hasStartingAssets).None?
      ensures hasStartingAssets == (if r.Ok? then Some(present) else old(hasStartingAssets))
      ensures period == old(period) && cash == old(cash)
      ensures openPositions == old(openPositions)
    {
      var updated := SetOption("has starting assets", hasStartingAssets, present);
      if updated.Err? {
        return Err(updated.error);
      }
      hasStartingAssets := updated.value;
      r := Ok(());
    }

    function GetHasStartingAssets(): (r: Result<bool>)
      reads this
      ensures r.Ok? <==> hasStartingAssets.Some?
      ensures r.Ok? ==> r.value == hasStartingAssets.value
    {
      GetOption("has starting assets", hasStartingAssets)
    }

    /**
     * `add_open_position`: a strictly positive quantity for a symbol not declared
     * yet; anything else is an error and leaves the positions as they were.
     */
    method AddOpenPosition(symbol: string, quantity: real) returns (r: Result<()>)
      requires Valid()
      modifies this
      ensures Valid()
      ensures r.Ok? <==> quantity > 0.0 && symbol !in old(openPositions)
      ensures openPositions == (if r.Ok? then old(openPositions)[symbol := quantity] else old(openPositions))
      ensures period == old(period) && hasStartingAssets == old(hasStartingAssets) && cash == old(cash)
    {
      if quantity <= 0.0 {
        return Err("Invalid open position quantity: it must be positive");
      }
      if symbol in openPositions {
        return Err("Got a duplicated open position");
      }
      openPositions := openPositions[symbol := quantity];
      r := Ok(());
    }

    /** `validate`: the period is checked first, then whether starting assets were reported. */
    function Validate(): (r: Result<()>)
      reads this
      ensures r.Ok? <==> period.Some? && hasStartingAssets.Some?
      ensures period.None? ==> r == Err("statement period is missing")
      ensures period.Some? && hasStartingAssets.None? ==> r == Err("has starting assets is missing")
    {
      match GetPeriod()
      case Err(e) => Err(e)
      case Ok(_) =>
        match GetHasStartingAssets()
        case Err(e) => Err(e)
        case Ok(_) => Ok(())
    }
  }
}
