/** Things in order, and the keys of an ordered map in ascending order. */
module Ordered {

  lemma {:induction false} LeastKey(keys: set<nat>) returns (k: nat)
    requires keys != {}
    ensures k in keys && forall j | j in keys :: k <= j
    decreases keys
  {
    var first :| first in keys;
    k := first;
    if keys - {first} != {} {
      var j := LeastKey(keys - {first});
      k := if j < first then j else first;
    }
    assert forall j | j in keys :: j == first || j in keys - {first};
  }

  ghost predicate Sorted<T(!new)>(less: (T, T) -> bool, xs: seq<T>) {
    forall i, j | 0 <= i < j < |xs| :: less(xs[i], xs[j])
  }

  /** There is one way to list things in order. */
  lemma {:induction false} SortedOnce<T(!new)>(less: (T, T) -> bool, xs: seq<T>, ys: seq<T>)
    requires forall a, b :: less(a, b) ==> !less(b, a)
    requires Sorted(less, xs) && Sorted(less, ys) && forall x :: x in xs <==> x in ys
    ensures xs == ys
  {
    SameEmpty(xs, ys);
    if xs != [] {
      var (x, y, xs', ys') := (xs[0], ys[0], xs[1..], ys[1..]);
      assert x in ys && y in xs;
      assert x == y;
      forall z
        ensures z in xs' <==> z in ys'
      {
        assert !less(x, x);
        assert z in xs <==> z == x || z in xs';
        assert z in ys <==> z == y || z in ys';
      }
      SortedOnce(less, xs', ys');
    }
  }

  lemma SameEmpty<T>(xs: seq<T>, ys: seq<T>)
    requires forall x :: x in xs <==> x in ys
    ensures xs == [] <==> ys == []
  {
    if xs != [] {
      assert xs[0] in ys;
    }
    if ys != [] {
      assert ys[0] in xs;
    }
  }

  predicate Ascending(ks: seq<nat>) {
    forall i, j | 0 <= i < j < |ks| :: ks[i] < ks[j]
  }

  method InKeyOrder(keys: set<nat>) returns (ks: seq<nat>)
    ensures Ascending(ks) && forall k :: k in ks <==> k in keys
  {
    ks := [];
    var rest := keys;
    while rest != {}
      invariant Ascending(ks) && rest <= keys && forall k :: k in ks <==> k in keys && k !in rest
      invariant forall i, k | 0 <= i < |ks| && k in rest :: ks[i] < k
    {
      ghost var least := LeastKey(rest);
      var k :| k in rest && forall j | j in rest :: k <= j;
      ks := ks + [k];
      rest := rest - {k};
    }
  }
}
