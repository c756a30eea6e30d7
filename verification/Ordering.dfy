/** Iteration order of the source's `BTreeMap` and `BTreeSet`: the elements of a finite set,
    listed strictly upwards along a total order. */
module Ordering {

  ghost predicate TotalOrder<T(!new)>(less: (T, T) -> bool) {
    && (forall x :: !less(x, x))
    && (forall x, y :: x != y ==> less(x, y) || less(y, x))
    && (forall x, y :: less(x, y) ==> !less(y, x))
    && (forall x, y, z :: less(x, y) && less(y, z) ==> less(x, z))
  }

  ghost predicate Ascending<T>(xs: seq<T>, less: (T, T) -> bool) {
    forall i, j :: 0 <= i < j < |xs| ==> less(xs[i], xs[j])
  }

  lemma LeastWith<T(!new)>(s: set<T>, x: T, m: T, less: (T, T) -> bool)
    requires TotalOrder(less) && x in s && m in s && x != m
    requires forall y :: y in s && y != x && y != m ==> less(m, y)
    ensures exists least :: least in s && forall y :: y in s && y != least ==> less(least, y)
  {
    var least := if less(x, m) then x else m;
    forall y | y in s && y != least
      ensures less(least, y)
    {
      if y != x && y != m { assert less(m, y); }
    }
  }

  lemma {:induction false} LeastExists<T(!new)>(s: set<T>, less: (T, T) -> bool)
    requires s != {} && TotalOrder(less)
    ensures exists x :: x in s && forall y :: y in s && y != x ==> less(x, y)
    decreases |s|
  {
    var x :| x in s;
    var rest := s - {x};
    if rest == {} {
      assert s == {x};
      assert forall y :: y in s && y != x ==> less(x, y);
    } else {
      LeastExists(rest, less);
      var m :| m in rest && forall y :: y in rest && y != m ==> less(m, y);
      LeastWith(s, x, m, less);
    }
  }

  /** The elements of `s` in ascending order. */
  function Sorted<T(==, !new)>(s: set<T>, less: (T, T) -> bool): (r: seq<T>)
    requires TotalOrder(less)
    ensures forall x :: x in r <==> x in s
    ensures Ascending(r, less)
    decreases |s|
  {
    if s == {} then []
    else
      LeastExists(s, less);
      var x :| x in s && forall y :: y in s && y != x ==> less(x, y);
      var rest := Sorted(s - {x}, less);
      [x] + rest
  }
}
