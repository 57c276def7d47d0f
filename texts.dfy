/**
 * The string handling the parsers share: decimal digits, `str::find` of one
 * character, `str::split`, `str::splitn(2, _)` and `str::parse` of unsigned
 * integers.
 */
module Texts {
  import opened Wrappers

  predicate IsDigit(c: char)
  {
    '0' <= c <= '9'
  }

  predicate AllDigits(s: string)
  {
    forall i :: 0 <= i < |s| ==> IsDigit(s[i])
  }

  /** The number a string of decimal digits spells, leading zeros allowed. */
  function DigitsValue(s: string): (n: nat)
    requires AllDigits(s)
    decreases |s|
  {
    if |s| == 0 then 0 else DigitsValue(s[..|s| - 1]) * 10 + (s[|s| - 1] as int - '0' as int)
  }

  /** The decimal digits of `n`, without leading zeros. */
  function Digits(n: nat): (s: string)
    ensures |s| > 0 && AllDigits(s)
    ensures n > 0 ==> s[0] != '0'
    decreases n
  {
    var last := ['0' + ((n % 10) as char)];
    if n < 10 then last else Digits(n / 10) + last
  }

  /** Reading the digits back gives the number. */
  lemma {:induction false} DigitsRoundTrip(n: nat)
    ensures DigitsValue(Digits(n)) == n
    decreases n
  {
    var s := Digits(n);
    if n >= 10 {
      DigitsRoundTrip(n / 10);
      assert s[..|s| - 1] == Digits(n / 10);
    }
  }

  /** Position of the first `c` in `s`, if any. */
  function Find(s: string, c: char): (r: Option<nat>)
    ensures r.Some? ==> r.value < |s| && s[r.value] == c && forall i :: 0 <= i < r.value ==> s[i] != c
    ensures r.None? ==> forall i :: 0 <= i < |s| ==> s[i] != c
    decreases |s|
  {
    if |s| == 0 then None
    else if s[0] == c then Some(0)
    else match Find(s[1..], c)
      case None => None
      case Some(i) => Some(i + 1)
  }

  /** `str::split(c)`: the pieces between the separators, empty ones included. */
  function Split(s: string, c: char): (parts: seq<string>)
    ensures |parts| > 0
    decreases |s|
  {
    match Find(s, c)
    case None => [s]
    case Some(i) => [s[..i]] + Split(s[i + 1..], c)
  }

  /** The pieces joined back with the separator. */
  function Join(parts: seq<string>, c: char): string
    requires |parts| > 0
    decreases |parts|
  {
    if |parts| == 1 then parts[0] else parts[0] + [c] + Join(parts[1..], c)
  }

  predicate NoChar(s: string, c: char)
  {
    forall i :: 0 <= i < |s| ==> s[i] != c
  }

  /** Splitting loses nothing: the pieces, joined with the separator, are the string; none holds the separator. */
  lemma {:induction false} SplitJoin(s: string, c: char)
    ensures Join(Split(s, c), c) == s
    ensures forall k :: 0 <= k < |Split(s, c)| ==> NoChar(Split(s, c)[k], c)
    decreases |s|
  {
    match Find(s, c)
    case None =>
    case Some(i) =>
      var rest := s[i + 1..];
      SplitJoin(rest, c);
      assert Split(s, c) == [s[..i]] + Split(rest, c);
      assert Split(s, c)[1..] == Split(rest, c);
      assert s == s[..i] + [c] + rest;
  }

  /** Two pieces without the separator split back into themselves. */
  lemma SplitTwo(a: string, b: string, c: char)
    requires NoChar(a, c) && NoChar(b, c)
    ensures Split(a + [c] + b, c) == [a, b]
  {
    var s := a + [c] + b;
    assert forall i :: 0 <= i < |a| ==> s[i] == a[i];
    assert s[|a|] == c;
    assert Find(s, c) == Some(|a|);
    assert s[..|a|] == a && s[|a| + 1..] == b;
  }

  /** `str::splitn(2, c)`: the string, or the pieces before and after the first separator. */
  function SplitOnce(s: string, c: char): (parts: seq<string>)
    ensures |parts| == 1 <==> NoChar(s, c)
    ensures |parts| == 1 ==> parts[0] == s
    ensures |parts| != 1 ==> |parts| == 2 && s == parts[0] + [c] + parts[1] && NoChar(parts[0], c)
  {
    match Find(s, c)
    case None => [s]
    case Some(i) =>
      assert s == s[..i] + [c] + s[i + 1..];
      [s[..i], s[i + 1..]]
  }

  /** The error messages of Rust's `ParseIntError`. */
  const EmptyError := "cannot parse integer from empty string"
  const InvalidDigitError := "invalid digit found in string"
  const OverflowError := "number too large to fit in target type"

  /**
   * `str::parse` of an unsigned integer below `limit`: an optional '+' and at least
   * one decimal digit.
   */
  function ParseUnsigned(s: string, limit: nat): (r: Result<nat>)
    ensures r.Ok? <==> exists digits :: UnsignedText(s, digits) && DigitsValue(digits) < limit
    ensures r.Ok? ==> r.value < limit
    ensures forall digits :: UnsignedText(s, digits) && r.Ok? ==> r.value == DigitsValue(digits)
  {
    var digits := if |s| > 0 && s[0] == '+' then s[1..] else s;
    if |s| == 0 then Err(EmptyError)
    else if |digits| == 0 || !AllDigits(digits) then Err(InvalidDigitError)
    else if DigitsValue(digits) >= limit then Err(OverflowError)
    else
      assert UnsignedText(s, digits);
      Ok(DigitsValue(digits))
  }

  /** `s` is `digits`, possibly after a '+'. */
  predicate UnsignedText(s: string, digits: string)
  {
    |digits| > 0 && AllDigits(digits) && (s == digits || s == "+" + digits)
  }

  /** Every number below the limit reads back from its digits. */
  lemma ParseDigits(n: nat, limit: nat)
    requires n < limit
    ensures ParseUnsigned(Digits(n), limit) == Ok(n)
  {
    DigitsRoundTrip(n);
    assert UnsignedText(Digits(n), Digits(n));
  }
}
