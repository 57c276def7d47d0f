/** Sums over finite sets, for totals whose source iterates a hash map in no fixed order. */
module Sums {
  /** The sum of `f` over `s`. */
  ghost function Sum<T>(s: set<T>, f: T -> real): real
    decreases s
  {
    if s == {} then 0.0
    else
      var x :| x in s;
      f(x) + Sum(s - {x}, f)
  }

  /** Any element may be taken out first: the sum does not depend on the iteration order. */
  lemma {:induction false} SumRemove<T>(s: set<T>, f: T -> real, x: T)
    requires x in s
    ensures Sum(s, f) == f(x) + Sum(s - {x}, f)
    decreases s
  {
    var first :| first in s && Sum(s, f) == f(first) + Sum(s - {first}, f);
    if first != x {
      SumRemove(s - {first}, f, x);
      SumRemove(s - {x}, f, first);
      assert s - {first} - {x} == s - {x} - {first};
    }
  }

  /** Adding an element to the set adds its value to the sum. */
  lemma SumAdd<T>(s: set<T>, f: T -> real, x: T)
    requires x !in s
    ensures Sum(s + {x}, f) == Sum(s, f) + f(x)
  {
    SumRemove(s + {x}, f, x);
    assert s + {x} - {x} == s;
  }

  /** A sum of zeros is zero. */
  lemma {:induction false} SumZero<T>(s: set<T>, f: T -> real)
    requires forall x :: x in s ==> f(x) == 0.0
    ensures Sum(s, f) == 0.0
    decreases s
  {
    if s != {} {
      var x :| x in s;
      SumRemove(s, f, x);
      SumZero(s - {x}, f);
    }
  }
}
