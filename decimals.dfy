/**
 * Decimal rounding. Decimal numbers are modelled by exact `real`s; the crate's own
 * rounding helper rounds half away from zero, as the unit tests of src/currency/mod.rs
 * show (1.005 -> 1.01, 1.115 -> 1.12, 1.125 -> 1.13). Rounding to `p` places is
 * rounding ten times the amount to `p - 1` places, down to rounding to whole units.
 */
module Decimals {
  /** 10^n as a real. */
  function Scale(n: nat): (s: real)
    ensures s >= 1.0
  {
    if n == 0 then 1.0 else 10.0 * Scale(n - 1)
  }

  /** Smallest integer not below `x`. */
  function Ceil(x: real): (r: int)
    ensures r as real - 1.0 < x <= r as real
  {
    -((-x).Floor)
  }

  predicate IsWhole(x: real)
  {
    x.Floor as real == x
  }

  /** True when `x` has at most `points` decimal places. */
  predicate HasPlaces(x: real, points: nat)
    decreases points
  {
    if points == 0 then IsWhole(x) else HasPlaces(x * 10.0, points - 1)
  }

  /** Rounds half away from zero to a whole number. */
  function RoundWhole(x: real): (r: real)
    ensures IsWhole(r)
    ensures -0.5 <= r - x <= 0.5
    ensures x >= 0.0 ==> r >= 0.0
    ensures x <= 0.0 ==> r <= 0.0
  {
    if x >= 0.0 then
      var n := (x + 0.5).Floor;
      assert n as real <= x + 0.5 < n as real + 1.0;
      assert (n as real).Floor == n;
      n as real
    else
      var n := (-x + 0.5).Floor;
      assert n as real <= -x + 0.5 < n as real + 1.0;
      assert (-n as real).Floor == -n;
      -n as real
  }

  /** Rounds half away from zero to `points` decimal places (`util::round`). */
  function Round(x: real, points: nat): real
    decreases points
  {
    if points == 0 then RoundWhole(x) else Round(x * 10.0, points - 1) / 10.0
  }

  lemma FloorMonotone(a: real, b: real)
    requires a <= b
    ensures a.Floor <= b.Floor
  {
    var i, j := a.Floor, b.Floor;
    assert i as real <= a;
    assert b < j as real + 1.0;
    assert i as real < (j + 1) as real;
  }

  lemma RoundWholeMonotone(x: real, y: real)
    requires x <= y
    ensures RoundWhole(x) <= RoundWhole(y)
  {
    if x >= 0.0 {
      FloorMonotone(x + 0.5, y + 0.5);
    } else if y < 0.0 {
      FloorMonotone(-y + 0.5, -x + 0.5);
    }
  }

  lemma RoundWholeExact(x: real)
    requires IsWhole(x)
    ensures RoundWhole(x) == x
  {
    var n := x.Floor;
    if x >= 0.0 {
      assert (x + 0.5).Floor == n;
    } else {
      assert -x == (-n) as real;
      assert (-x + 0.5).Floor == -n;
    }
  }

  /** Rounding keeps the sign: it never turns an income into a loss or back. */
  lemma {:induction false} RoundSign(x: real, points: nat)
    ensures x >= 0.0 ==> Round(x, points) >= 0.0
    ensures x <= 0.0 ==> Round(x, points) <= 0.0
    decreases points
  {
    if points > 0 {
      RoundSign(x * 10.0, points - 1);
    }
  }

  /** Rounding never swaps the order of two amounts. */
  lemma {:induction false} RoundMonotone(x: real, y: real, points: nat)
    requires x <= y
    ensures Round(x, points) <= Round(y, points)
    decreases points
  {
    if points == 0 {
      RoundWholeMonotone(x, y);
    } else {
      RoundMonotone(x * 10.0, y * 10.0, points - 1);
    }
  }

  /** The result has the requested number of places. */
  lemma {:induction false} RoundHasPlaces(x: real, points: nat)
    ensures HasPlaces(Round(x, points), points)
    decreases points
  {
    if points > 0 {
      RoundHasPlaces(x * 10.0, points - 1);
      var r := Round(x * 10.0, points - 1);
      assert r / 10.0 * 10.0 == r;
    }
  }

  /** An amount that already has the requested places is left unchanged. */
  lemma {:induction false} RoundExact(x: real, points: nat)
    requires HasPlaces(x, points)
    ensures Round(x, points) == x
    decreases points
  {
    if points == 0 {
      RoundWholeExact(x);
    } else {
      RoundExact(x * 10.0, points - 1);
    }
  }

  /** Zero rounds to zero. */
  lemma {:induction false} RoundZero(points: nat)
    ensures Round(0.0, points) == 0.0
    decreases points
  {
    if points > 0 {
      RoundZero(points - 1);
    }
  }

  /** How far rounding moves `x`, in units of the last place. */
  function ScaledError(x: real, points: nat): real
  {
    (Round(x, points) - x) * Scale(points)
  }

  /** The result is at most half a unit of the last place away from the amount. */
  lemma RoundError(x: real, points: nat)
    ensures -0.5 <= (Round(x, points) - x) * Scale(points) <= 0.5
  {
    ScaledErrorBound(x, points);
  }

  lemma {:induction false} ScaledErrorBound(x: real, points: nat)
    ensures -0.5 <= ScaledError(x, points) <= 0.5
    decreases points
  {
    if points > 0 {
      ScaledErrorBound(x * 10.0, points - 1);
      ScaledErrorStep(x, points);
    }
  }

  /** Rounding `x` is rounding ten times `x` at one place fewer, so the scaled error is the same. */
  lemma ScaledErrorStep(x: real, points: nat)
    requires points > 0
    ensures ScaledError(x, points) == ScaledError(x * 10.0, points - 1)
  {
    var d := Round(x, points) - x;
    assert d * 10.0 == Round(x * 10.0, points - 1) - x * 10.0;
    ScaleStep(d, Round(x * 10.0, points - 1) - x * 10.0, points);
  }

  /** Ten times `d` at `points - 1` places is `d` at `points` places. */
  lemma ScaleStep(d: real, e: real, points: nat)
    requires points > 0 && d * 10.0 == e
    ensures d * Scale(points) == e * Scale(points - 1)
  {
    assert Scale(points) == 10.0 * Scale(points - 1);
  }

  /** Rounding twice to the same places is the same as rounding once. */
  lemma {:induction false} RoundIdempotent(x: real, points: nat)
    ensures Round(Round(x, points), points) == Round(x, points)
  {
    RoundHasPlaces(x, points);
    RoundExact(Round(x, points), points);
  }

  /** Rounding is symmetric around zero. */
  lemma {:induction false} RoundNegate(x: real, points: nat)
    ensures Round(-x, points) == -Round(x, points)
    decreases points
  {
    if points > 0 {
      RoundNegate(x * 10.0, points - 1);
      assert -x * 10.0 == -(x * 10.0);
    } else if x == 0.0 {
      assert -x == 0.0;
    }
  }

  /** The half-away-from-zero cases of the crate's rounding tests. */
  lemma {:induction false} RoundingTestValues()
    ensures Round(1.005, 2) == 1.01
    ensures Round(1.115, 2) == 1.12
    ensures Round(1.125, 2) == 1.13
    ensures Round(1.004, 2) == 1.0
    ensures Round(-1.125, 2) == -1.13
  {
    RoundNegate(1.125, 2);
  }
}
