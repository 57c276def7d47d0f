/**
 * Joining of two-part stock splits in Interactive Brokers statements
 * (src/broker_statement/ib/corporate_actions.rs). A reverse split is reported as two
 * records: the shares taken away (`from_change`) and then the shares given
 * (`to_change`); `commit` joins each such pair into one corporate action.
 */
module CorporateActions {
  import opened Wrappers
  import opened Dates

  datatype StockSplitRatio = StockSplitRatio(from: nat, to: nat)

  datatype CorporateActionType =
    | StockSplit(ratio: StockSplitRatio, fromChange: Option<real>, toChange: Option<real>)
      /** Spinoffs and the other kinds of action, which `commit` passes through. */
    | OtherAction(kind: string)

  datatype CorporateAction = CorporateAction(date: NaiveDate, reportDate: Option<NaiveDate>, symbol: string,
                                             action: CorporateActionType)

  const UnsupportedSplit := "Unsupported stock split"

  /** The first record of a split that still waits for its second half. */
  predicate IsFromHalf(a: CorporateAction)
  {
    a.action.StockSplit? && a.action.fromChange.Some?
  }

  /** A split record carrying both changes. */
  predicate IsComplete(a: CorporateAction)
  {
    a.action.StockSplit? && a.action.fromChange.Some? && a.action.toChange.Some?
  }

  /** `parse` gives every split exactly one of the two changes, so `commit` never meets a complete record. */
  predicate NoCompleteSplits(actions: seq<CorporateAction>)
  {
    forall i :: 0 <= i < |actions| ==> !IsComplete(actions[i])
  }

  /** Whether `second` is the second half of the held `first`: same date, symbol and ratio, with only a `to_change`. */
  predicate Completes(first: CorporateAction, second: CorporateAction)
    requires first.action.StockSplit?
  {
    second.action.StockSplit? && second.action.fromChange.None? && second.action.toChange.Some?
    && second.date == first.date && second.symbol == first.symbol && second.action.ratio == first.action.ratio
  }

  /** The joined split: the first record with the second one's `to_change`. */
  function Joined(first: CorporateAction, second: CorporateAction): (r: CorporateAction)
    requires first.action.StockSplit? && Completes(first, second)
    ensures IsComplete(r) == first.action.fromChange.Some?
  {
    first.(action := StockSplit(first.action.ratio, first.action.fromChange, second.action.toChange))
  }

  function Prepend(a: seq<CorporateAction>, r: Result<seq<CorporateAction>>): Result<seq<CorporateAction>>
  {
    match r
    case Ok(rest) => Ok(a + rest)
    case Err(e) => Err(e)
  }

  /** The actions `commit` pushes, given the held first half (if any) and the records still to come. */
  function JoinFrom(held: Option<CorporateAction>, actions: seq<CorporateAction>): Result<seq<CorporateAction>>
    requires held.Some? ==> IsFromHalf(held.value)
    decreases |actions|
  {
    if |actions| == 0 then
      if held.Some? then Err(UnsupportedSplit) else Ok([])
    else
      var a := actions[0];
      match held
      case None =>
        if IsFromHalf(a) then JoinFrom(Some(a), actions[1..])
        else Prepend([a], JoinFrom(None, actions[1..]))
      case Some(first) =>
        if Completes(first, a) then Prepend([Joined(first, a)], JoinFrom(None, actions[1..]))
        else Err(UnsupportedSplit)
  }

  function Join(actions: seq<CorporateAction>): Result<seq<CorporateAction>>
  {
    JoinFrom(None, actions)
  }

  class CorporateActionsParser {
    var corporateActions: seq<CorporateAction>

    constructor ()
      ensures corporateActions == []
    {
      corporateActions := [];
    }

    /** The record-parsing step: a parsed action joins the list. */
    method Add(action: CorporateAction)
      modifies this
      ensures corporateActions == old(corporateActions) + [action]
    {
      corporateActions := corporateActions + [action];
    }

    /** `commit`: the statement's corporate actions after the joined ones are pushed. */
    method Commit(statement: seq<CorporateAction>) returns (r: Result<seq<CorporateAction>>)
      requires NoCompleteSplits(corporateActions)
      ensures r == Prepend(statement, Join(corporateActions))
    {
      var actions := corporateActions;
      var pushed := statement;
      var held: Option<CorporateAction> := None;
      for i := 0 to |actions|
        invariant held.Some? ==> IsFromHalf(held.value) && !IsComplete(held.value)
        invariant Prepend(statement, Join(actions)) == Prepend(pushed, JoinFrom(held, actions[i..]))
      {
        var action := actions[i];
        assert actions[i..][0] == action && actions[i..][1..] == actions[i + 1..];
        if held.None? {
          if IsFromHalf(action) {
            held := Some(action);
          } else {
            PrependConcat(pushed, [action], JoinFrom(None, actions[i + 1..]));
            pushed := pushed + [action];
          }
          continue;
        }
        var first := held.value;
        held := None;
        if !Completes(first, action) {
          assert JoinFrom(Some(first), actions[i..]) == Err(UnsupportedSplit);
          return Err(UnsupportedSplit);
        }
        PrependConcat(pushed, [Joined(first, action)], JoinFrom(None, actions[i + 1..]));
        pushed := pushed + [Joined(first, action)];
      }
      assert actions[|actions|..] == [];
      assert JoinFrom(None, []) == Ok([]) && pushed + [] == pushed;
      if held.Some? {
        return Err(UnsupportedSplit);
      }
      r := Ok(pushed);
    }
  }

  lemma PrependConcat(a: seq<CorporateAction>, b: seq<CorporateAction>, r: Result<seq<CorporateAction>>)
    ensures Prepend(a, Prepend(b, r)) == Prepend(a + b, r)
  {
    if r.Ok? {
      assert a + (b + r.value) == a + b + r.value;
    }
  }

  predicate NoFromHalves(actions: seq<CorporateAction>)
  {
    forall i :: 0 <= i < |actions| ==> !IsFromHalf(actions[i])
  }

  /** Records that open no split, including second halves and spinoffs, pass through unchanged and in order. */
  lemma {:induction false} PassThrough(actions: seq<CorporateAction>)
    requires NoFromHalves(actions)
    ensures Join(actions) == Ok(actions)
    decreases |actions|
  {
    if |actions| > 0 {
      PassThrough(actions[1..]);
      assert [actions[0]] + actions[1..] == actions;
    }
  }

  /** Every split left after joining carries its `to_change`: no first half survives. */
  predicate NoDanglingHalves(actions: seq<CorporateAction>)
  {
    forall i :: 0 <= i < |actions| ==> actions[i].action.StockSplit? ==> actions[i].action.toChange.Some?
  }

  /** The split records of the input all carry one change, a `to_change` when not a first half. */
  predicate SplitsHaveChanges(actions: seq<CorporateAction>)
  {
    forall i :: 0 <= i < |actions| ==>
      actions[i].action.StockSplit? ==> actions[i].action.fromChange.Some? || actions[i].action.toChange.Some?
  }

  lemma {:induction false} JoinedAreComplete(held: Option<CorporateAction>, actions: seq<CorporateAction>)
    requires held.Some? ==> IsFromHalf(held.value)
    requires SplitsHaveChanges(actions)
    requires JoinFrom(held, actions).Ok?
    ensures NoDanglingHalves(JoinFrom(held, actions).value)
    decreases |actions|
  {
    if |actions| > 0 {
      var a := actions[0];
      var tail := actions[1..];
      assert SplitsHaveChanges(tail) by {
        assert forall i :: 0 <= i < |tail| ==> tail[i] == actions[i + 1];
      }
      if held.None? && IsFromHalf(a) {
        JoinedAreComplete(Some(a), tail);
      } else {
        JoinedAreComplete(None, tail);
        var rest := JoinFrom(None, tail).value;
        var head := if held.None? then a else Joined(held.value, a);
        assert JoinFrom(held, actions).value == [head] + rest;
        assert head.action.StockSplit? ==> head.action.toChange.Some?;
      }
    }
  }

  /** After a successful `commit`, every split carries the shares given. */
  lemma CommitLeavesNoHalves(actions: seq<CorporateAction>)
    requires SplitsHaveChanges(actions) && Join(actions).Ok?
    ensures NoDanglingHalves(Join(actions).value)
  {
    JoinedAreComplete(None, actions);
  }

  /** The actions that are not splits. */
  function NonSplits(actions: seq<CorporateAction>): seq<CorporateAction>
    decreases |actions|
  {
    if |actions| == 0 then []
    else (if actions[0].action.StockSplit? then [] else [actions[0]]) + NonSplits(actions[1..])
  }

  /** Joining keeps the other actions, in their order. */
  lemma {:induction false} JoinKeepsNonSplits(held: Option<CorporateAction>, actions: seq<CorporateAction>)
    requires held.Some? ==> IsFromHalf(held.value)
    requires JoinFrom(held, actions).Ok?
    ensures NonSplits(JoinFrom(held, actions).value) == NonSplits(actions)
    decreases |actions|
  {
    if |actions| > 0 {
      var a := actions[0];
      var tail := actions[1..];
      if held.None? && IsFromHalf(a) {
        JoinKeepsNonSplits(Some(a), tail);
      } else {
        JoinKeepsNonSplits(None, tail);
        var rest := JoinFrom(None, tail).value;
        var head := if held.None? then a else Joined(held.value, a);
        assert JoinFrom(held, actions).value == [head] + rest;
        assert ([head] + rest)[1..] == rest;
      }
    }
  }

  /** A first half as the last record is an error, whatever comes before it. */
  lemma {:induction false} DanglingHalfAtEnd(held: Option<CorporateAction>, actions: seq<CorporateAction>,
                                             last: CorporateAction)
    requires held.Some? ==> IsFromHalf(held.value)
    requires IsFromHalf(last)
    ensures JoinFrom(held, actions + [last]) == Err(UnsupportedSplit)
    decreases |actions|
  {
    if |actions| == 0 {
      assert [last][1..] == [];
    } else {
      var all := actions + [last];
      assert all[0] == actions[0] && all[1..] == actions[1..] + [last];
      if held.None? && IsFromHalf(actions[0]) {
        DanglingHalfAtEnd(Some(actions[0]), actions[1..], last);
      } else if held.None? || Completes(held.value, actions[0]) {
        DanglingHalfAtEnd(None, actions[1..], last);
      }
    }
  }

  /** A first half followed by anything other than its second half is an error. */
  lemma MismatchedHalf(first: CorporateAction, second: CorporateAction, rest: seq<CorporateAction>)
    requires IsFromHalf(first)
    requires !Completes(first, second)
    ensures Join([first, second] + rest) == Err(UnsupportedSplit)
  {
    var all := [first, second] + rest;
    assert all[0] == first && all[1..] == [second] + rest && ([second] + rest)[0] == second;
    assert Join(all) == JoinFrom(Some(first), [second] + rest);
  }

  /** The VISL reverse split of 31 July 2020: 80 shares out, 13.3333 shares in, 1 for 6. */
  lemma ReverseSplitExample()
    ensures var ratio := StockSplitRatio(6, 1);
      var from := CorporateAction(Date(2020, 7, 31), Some(Date(2020, 8, 3)), "VISL", StockSplit(ratio, Some(80.0), None));
      var to := CorporateAction(Date(2020, 7, 31), Some(Date(2020, 8, 3)), "VISL", StockSplit(ratio, None, Some(13.3333)));
      Join([from, to]) == Ok([CorporateAction(Date(2020, 7, 31), Some(Date(2020, 8, 3)), "VISL",
                                              StockSplit(ratio, Some(80.0), Some(13.3333)))])
  {
    var ratio := StockSplitRatio(6, 1);
    var from := CorporateAction(Date(2020, 7, 31), Some(Date(2020, 8, 3)), "VISL", StockSplit(ratio, Some(80.0), None));
    var to := CorporateAction(Date(2020, 7, 31), Some(Date(2020, 8, 3)), "VISL", StockSplit(ratio, None, Some(13.3333)));
    assert [from, to][1..] == [to] && [to][1..] == [];
    assert Completes(from, to);
    assert Join([from, to]) == JoinFrom(Some(from), [to]);
    assert JoinFrom(Some(from), [to]) == Prepend([Joined(from, to)], JoinFrom(None, []));
    assert JoinFrom(None, []) == Ok([]) && [Joined(from, to)] + [] == [Joined(from, to)];
    assert Joined(from, to) == CorporateAction(Date(2020, 7, 31), Some(Date(2020, 8, 3)), "VISL",
                                               StockSplit(ratio, Some(80.0), Some(13.3333)));
  }
}
