/** Two facts about finite sets. */
module Sets {
  lemma {:induction false} SubsetSize<T>(a: set<T>, b: set<T>)
    requires a <= b
    ensures |a| <= |b| && (|a| == |b| ==> a == b)
  {
    assert b == a + (b - a);
    if b - a != {} {
      assert |b - a| > 0;
    }
  }

  ghost predicate Least<T(!new)>(s: set<T>, leq: (T, T) -> bool, x: T) {
    x in s && forall y :: y in s ==> leq(x, y)
  }

  ghost predicate Total<T(!new)>(s: set<T>, leq: (T, T) -> bool) {
    && (forall x, y :: x in s && y in s ==> leq(x, y) || leq(y, x))
    && (forall x, y, z :: x in s && y in s && z in s && leq(x, y) && leq(y, z) ==> leq(x, z))
  }

  lemma {:induction false} HasLeast<T(!new)>(s: set<T>, leq: (T, T) -> bool)
    requires s != {} && Total(s, leq)
    ensures exists x :: Least(s, leq, x)
    decreases |s|
  {
    var x :| x in s;
    var rest := s - {x};
    if rest == {} {
      assert s == {x};
      assert Least(s, leq, x);
    } else {
      HasLeast(rest, leq);
      var y :| Least(rest, leq, y);
      assert forall z :: z in s ==> z == x || z in rest;
      assert Least(s, leq, if leq(x, y) then x else y);
    }
  }
}
