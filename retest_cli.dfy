/**
 * The test selection of the regression test runner's command line
 * (tests/retest/src/bin/retest/cli.rs): a comma-separated list of test numbers
 * and `low-high` ranges, collected into a set of unsigned 32-bit numbers.
 */
module RetestCli {
  import opened Wrappers
  import opened Texts

  const U32Limit: nat := 0x1_0000_0000

  newtype U32 = x: int | 0 <= x < 0x1_0000_0000

  const TooSmallError := "each test number must be 1 or more"
  const RangeError := "test ranges must have the form low-high"

  predicate InRange(low: U32, high: U32, x: U32)
  {
    low <= x <= high
  }

  /** The numbers `low..=high`. */
  function Range(low: U32, high: U32): (r: set<U32>)
    ensures forall x :: x in r <==> InRange(low, high, x)
  {
    set x: U32 | InRange(low, high, x)
  }

  /** One span: a single number of at least 1, or a range whose low end is at least 1 and whose high end is not below it. */
  function SpanNumbers(span: string): (r: Result<set<U32>>)
    ensures r.Ok? ==> forall x :: x in r.value ==> x >= 1
  {
    var ranges := SplitOnce(span, '-');
    if |ranges| == 1 then
      match ParseUnsigned(ranges[0], U32Limit)
      case Err(e) => Err(e)
      case Ok(number) =>
        if number < 1 then Err(TooSmallError) else Ok({number as U32})
    else
      match ParseUnsigned(ranges[0], U32Limit)
      case Err(e) => Err(e)
      case Ok(start) =>
        if start < 1 then Err(TooSmallError)
        else
          match ParseUnsigned(ranges[1], U32Limit)
          case Err(e) => Err(e)
          case Ok(end) =>
            if end < start then Err(RangeError) else Ok(Range(start as U32, end as U32))
  }

  /** The spans in order: each one's numbers join the set until one of them is refused. */
  function AddSpans(spans: seq<string>, numbers: set<U32>): (Result<()>, set<U32>)
    decreases |spans|
  {
    if |spans| == 0 then (Ok(()), numbers)
    else
      match SpanNumbers(spans[0])
      case Err(e) => (Err(e), numbers)
      case Ok(found) => AddSpans(spans[1..], numbers + found)
  }

  lemma AddSpansStep(spans: seq<string>, i: int, numbers: set<U32>)
    requires 0 <= i < |spans|
    ensures var span := SpanNumbers(spans[i]);
      AddSpans(spans[i..], numbers)
      == if span.Err? then (Err(span.error), numbers) else AddSpans(spans[i + 1..], numbers + span.value)
  {
    assert spans[i..][1..] == spans[i + 1..];
  }

  /** The inner loop: inserts `start..=end` one number at a time. */
  method InsertRange(numbers: set<U32>, start: U32, end: U32) returns (updated: set<U32>)
    requires start <= end
    ensures updated == numbers + Range(start, end)
  {
    updated := numbers;
    var number: int := start as int;
    while number <= end as int
      invariant start as int <= number <= end as int + 1
      invariant forall x :: x in updated <==> x in numbers || (start <= x && (x as int) < number)
      decreases end as int + 1 - number
    {
      updated := updated + {number as U32};
      number := number + 1;
    }
  }

  /**
   * `parse_numbers`: every comma-separated span is parsed and its numbers inserted
   * in place; the first refused span ends the parse with its error, and the numbers
   * of the spans before it stay inserted.
   */
  method ParseNumbers(s: string, numbers: set<U32>) returns (r: Result<()>, updated: set<U32>)
    ensures (r, updated) == AddSpans(Split(s, ','), numbers)
  {
    var spans := Split(s, ',');
    updated := numbers;
    for i := 0 to |spans|
      invariant AddSpans(spans[i..], updated) == AddSpans(spans, numbers)
    {
      AddSpansStep(spans, i, updated);
      var span := spans[i];
      var ranges := SplitOnce(span, '-');
      if |ranges| == 1 {
        var number := ParseUnsigned(ranges[0], U32Limit);
        if number.Err? {
          return Err(number.error), updated;
        }
        if number.value < 1 {
          return Err(TooSmallError), updated;
        }
        updated := updated + {number.value as U32};
      } else {
        var start := ParseUnsigned(ranges[0], U32Limit);
        if start.Err? {
          return Err(start.error), updated;
        }
        if start.value < 1 {
          return Err(TooSmallError), updated;
        }
        var end := ParseUnsigned(ranges[1], U32Limit);
        if end.Err? {
          return Err(end.error), updated;
        }
        if end.value < start.value {
          return Err(RangeError), updated;
        }
        updated := InsertRange(updated, start.value as U32, end.value as U32);
      }
    }
    assert spans[|spans|..] == [];
    r := Ok(());
  }

  /** Whatever happens, the numbers already there stay and every added number is at least 1. */
  lemma {:induction false} AddSpansKeeps(spans: seq<string>, numbers: set<U32>)
    ensures var updated := AddSpans(spans, numbers).1;
      numbers <= updated && forall x :: x in updated && x !in numbers ==> x >= 1
    decreases |spans|
  {
    if |spans| > 0 && SpanNumbers(spans[0]).Ok? {
      AddSpansKeeps(spans[1..], numbers + SpanNumbers(spans[0]).value);
    }
  }

  /** An accepted list accepts every span and adds exactly the numbers of its spans. */
  lemma {:induction false} AddSpansCollects(spans: seq<string>, numbers: set<U32>)
    requires AddSpans(spans, numbers).0.Ok?
    ensures forall k :: 0 <= k < |spans| ==> SpanNumbers(spans[k]).Ok?
    ensures forall x :: x in AddSpans(spans, numbers).1 <==>
      x in numbers || exists k :: 0 <= k < |spans| && SpanNumbers(spans[k]).Ok? && x in SpanNumbers(spans[k]).value
    decreases |spans|
  {
    if |spans| > 0 {
      var found := SpanNumbers(spans[0]).value;
      var rest := spans[1..];
      AddSpansCollects(rest, numbers + found);
      var updated := AddSpans(rest, numbers + found).1;
      forall k | 0 < k < |spans|
        ensures spans[k] == rest[k - 1]
      {
      }
      forall x | x in updated
        ensures x in numbers || exists k :: 0 <= k < |spans| && SpanNumbers(spans[k]).Ok? && x in SpanNumbers(spans[k]).value
      {
        if x !in numbers && x !in found {
          var k :| 0 <= k < |rest| && SpanNumbers(rest[k]).Ok? && x in SpanNumbers(rest[k]).value;
          assert spans[k + 1] == rest[k];
        }
      }
    }
  }

  /** A single number of at least 1 selects that test. */
  lemma SingleNumber(n: U32)
    requires n >= 1
    ensures SpanNumbers(Digits(n as nat)) == Ok({n})
  {
    ParseDigits(n as nat, U32Limit);
    assert NoChar(Digits(n as nat), '-');
  }

  /** A range `low-high` with 1 <= low <= high selects every test from low to high. */
  lemma RangeOfNumbers(low: U32, high: U32)
    requires 1 <= low <= high
    ensures SpanNumbers(Digits(low as nat) + "-" + Digits(high as nat)) == Ok(Range(low, high))
  {
    var a, b := Digits(low as nat), Digits(high as nat);
    assert NoChar(a, '-');
    var s := a + "-" + b;
    assert Find(s, '-') == Some(|a|) by {
      assert s[|a|] == '-';
      assert forall i :: 0 <= i < |a| ==> s[i] == a[i];
    }
    assert s[..|a|] == a && s[|a| + 1..] == b;
    ParseDigits(low as nat, U32Limit);
    ParseDigits(high as nat, U32Limit);
  }

  /** Zero is refused, alone or as the low end of a range. */
  lemma ZeroRefused(rest: string)
    ensures SpanNumbers("0") == Err(TooSmallError)
    ensures SpanNumbers("0-" + rest) == Err(TooSmallError)
  {
    assert SplitOnce("0", '-') == ["0"];
    assert Find("0-" + rest, '-') == Some(1);
    assert ("0-" + rest)[..1] == "0";
    assert ParseUnsigned("0", U32Limit) == Ok(0) by {
      assert UnsignedText("0", "0");
    }
  }

  /** A range whose high end is below its low end is refused. */
  lemma DescendingRangeRefused(low: U32, high: U32)
    requires 1 <= high < low
    ensures SpanNumbers(Digits(low as nat) + "-" + Digits(high as nat)) == Err(RangeError)
  {
    var a, b := Digits(low as nat), Digits(high as nat);
    assert NoChar(a, '-');
    var s := a + "-" + b;
    assert Find(s, '-') == Some(|a|) by {
      assert s[|a|] == '-';
      assert forall i :: 0 <= i < |a| ==> s[i] == a[i];
    }
    assert s[..|a|] == a && s[|a| + 1..] == b;
    ParseDigits(low as nat, U32Limit);
    ParseDigits(high as nat, U32Limit);
  }
}
