/** Cardinalities of finite sets. */
module Sets {
  lemma SubsetCard<T>(a: set<T>, b: set<T>)
    requires a <= b
    ensures |a| <= |b|
  {
    assert b == a + (b - a);
  }

  /** A set is no larger than one it maps into without collisions. */
  lemma {:induction false} ImageCard<A, B>(s: set<A>, t: set<B>, f: A -> B)
    requires forall x :: x in s ==> f(x) in t
    requires forall x, y :: x in s && y in s && f(x) == f(y) ==> x == y
    ensures |s| <= |t|
  {
    if s != {} {
      var x :| x in s;
      ImageCard(s - {x}, t - {f(x)}, f);
    }
  }

  /** The numbers from `first` on, `n` of them. */
  function Range(first: nat, n: nat): set<nat> {
    if n == 0 then {} else Range(first, n - 1) + {first + n - 1}
  }

  lemma {:induction false} RangeIs(first: nat, n: nat)
    ensures |Range(first, n)| == n && forall i: nat :: i in Range(first, n) <==> first <= i < first + n
  {
    if n > 0 {
      RangeIs(first, n - 1);
    }
  }
}
