/** Sums of natural numbers over finite sets. */
module Sums {
  ghost function Sum<T>(xs: set<T>, f: T -> nat): nat {
    if xs == {} then 0
    else
      var x :| x in xs;
      f(x) + Sum(xs - {x}, f)
  }

  /** Sums are monotone, strictly where one term is. */
  lemma {:induction false} SumMono<T>(xs: set<T>, less: T -> nat, more: T -> nat)
    requires forall x :: x in xs ==> less(x) <= more(x)
    ensures Sum(xs, less) <= Sum(xs, more)
    ensures (exists x :: x in xs && less(x) < more(x)) ==> Sum(xs, less) < Sum(xs, more)
  {
    if xs != {} {
      var x :| && x in xs && Sum(xs, less) == less(x) + Sum(xs - {x}, less)
               && Sum(xs, more) == more(x) + Sum(xs - {x}, more);
      SumMono(xs - {x}, less, more);
    }
  }

  /** No term exceeds the sum. */
  lemma {:induction false} SumMember<T>(xs: set<T>, f: T -> nat, x: T)
    requires x in xs
    ensures f(x) <= Sum(xs, f)
  {
    var y :| y in xs && Sum(xs, f) == f(y) + Sum(xs - {y}, f);
    var rest: nat := Sum(xs - {y}, f);
    if x == y {
      assert f(x) + rest == Sum(xs, f);
    } else {
      SumMember(xs - {y}, f, x);
    }
  }
}
