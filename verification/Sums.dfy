/** Elements of finite sets, and sums over them. */
module Sums {
  lemma AnElement<T>(xs: set<T>) returns (x: T)
    requires xs != {}
    ensures x in xs
  {
    x :| x in xs;
  }

  /** A number above all of a finite set. */
  lemma {:induction false} AboveAll(names: set<nat>) returns (bound: nat)
    ensures forall w :: w in names ==> w < bound
  {
    if names == {} {
      bound := 0;
    } else {
      var w :| w in names;
      var rest := AboveAll(names - {w});
      bound := if rest <= w then w + 1 else rest;
      assert forall v :: v in names ==> v == w || v in names - {w};
    }
  }

  ghost function Sum<T>(xs: set<T>, f: T -> int): int {
    if xs == {} then 0 else var x :| x in xs; f(x) + Sum(xs - {x}, f)
  }

  /** Any element may be taken out first. */
  lemma {:induction false} SumPull<T>(xs: set<T>, f: T -> int, y: T)
    requires y in xs
    ensures Sum(xs, f) == f(y) + Sum(xs - {y}, f)
  {
    var x :| x in xs && Sum(xs, f) == f(x) + Sum(xs - {x}, f);
    if x != y {
      SumPull(xs - {x}, f, y);
      SumPull(xs - {y}, f, x);
      assert xs - {x} - {y} == xs - {y} - {x};
    }
  }

  lemma {:induction false} SumOfEqual<T>(xs: set<T>, f: T -> int, g: T -> int)
    requires forall x :: x in xs ==> f(x) == g(x)
    ensures Sum(xs, f) == Sum(xs, g)
  {
    if xs != {} {
      var x :| x in xs;
      SumPull(xs, f, x);
      SumPull(xs, g, x);
      SumOfEqual(xs - {x}, f, g);
    }
  }

  /** Raising one summand raises the sum by as much. */
  lemma SumRaised<T>(xs: set<T>, f: T -> int, g: T -> int, y: T, more: int)
    requires y in xs && g(y) == f(y) + more
    requires forall x :: x in xs && x != y ==> f(x) == g(x)
    ensures Sum(xs, g) == Sum(xs, f) + more
  {
    SumPull(xs, f, y);
    SumPull(xs, g, y);
    SumOfEqual(xs - {y}, f, g);
  }

  lemma {:induction false} SumOfZero<T>(xs: set<T>, f: T -> int)
    requires forall x :: x in xs ==> f(x) == 0
    ensures Sum(xs, f) == 0
  {
    if xs != {} {
      var x :| x in xs;
      SumPull(xs, f, x);
      SumOfZero(xs - {x}, f);
    }
  }
}
