/** Finite sums over sets, independent of the order in which the elements are visited. */
module Sums {

  ghost function Sum<T(!new)>(xs: set<T>, f: T -> int): int {
    if xs == {} then 0
    else
      var x :| x in xs;
      f(x) + Sum(xs - {x}, f)
  }

  /** Any element can be taken out first. */
  lemma {:induction false} SumTake<T(!new)>(xs: set<T>, x: T, f: T -> int)
    requires x in xs
    ensures Sum(xs, f) == f(x) + Sum(xs - {x}, f)
    decreases |xs|
  {
    var y :| y in xs && Sum(xs, f) == f(y) + Sum(xs - {y}, f);
    if y != x {
      SumTake(xs - {y}, x, f);
      SumTake(xs - {x}, y, f);
      assert xs - {y} - {x} == xs - {x} - {y};
    }
  }

  lemma {:induction false} SumSame<T(!new)>(xs: set<T>, f: T -> int, g: T -> int)
    requires forall x :: x in xs ==> f(x) == g(x)
    ensures Sum(xs, f) == Sum(xs, g)
    decreases |xs|
  {
    if xs != {} {
      var x :| x in xs;
      SumTake(xs, x, f);
      SumTake(xs, x, g);
      SumSame(xs - {x}, f, g);
    }
  }

  /** Changing one summand changes the sum by the same amount. */
  lemma SumChange<T(!new)>(xs: set<T>, x: T, f: T -> int, g: T -> int)
    requires x in xs && forall y :: y in xs && y != x ==> f(y) == g(y)
    ensures Sum(xs, g) == Sum(xs, f) - f(x) + g(x)
  {
    SumTake(xs, x, f);
    SumTake(xs, x, g);
    SumSame(xs - {x}, f, g);
  }

  /** Adding a new element adds its summand. */
  lemma SumAdd<T(!new)>(xs: set<T>, x: T, f: T -> int)
    requires x !in xs
    ensures Sum(xs + {x}, f) == Sum(xs, f) + f(x)
  {
    SumTake(xs + {x}, x, f);
    assert xs + {x} - {x} == xs;
  }

  lemma {:induction false} SumNonNegative<T(!new)>(xs: set<T>, f: T -> int)
    requires forall x :: x in xs ==> f(x) >= 0
    ensures Sum(xs, f) >= 0
    decreases |xs|
  {
    if xs != {} {
      var x :| x in xs;
      SumTake(xs, x, f);
      SumNonNegative(xs - {x}, f);
    }
  }

  /** A sum of non-negative summands is at least any two of them together. */
  lemma SumAtLeastPair<T(!new)>(xs: set<T>, x: T, y: T, f: T -> int)
    requires x in xs && y in xs && x != y && forall z :: z in xs ==> f(z) >= 0
    ensures Sum(xs, f) >= f(x) + f(y)
  {
    SumTake(xs, x, f);
    SumTake(xs - {x}, y, f);
    SumNonNegative(xs - {x} - {y}, f);
  }
}
