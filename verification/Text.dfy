/** Names: blank ones, and the order names are listed in. */
module Text {

  /** The characters Unicode counts as white space. */
  predicate Space(c: char) {
    c in {'\U{9}', '\U{A}', '\U{B}', '\U{C}', '\U{D}', ' ', '\U{85}', '\U{A0}', '\U{1680}', '\U{2028}', '\U{2029}',
          '\U{202F}', '\U{205F}', '\U{3000}'}
    || '\U{2000}' <= c <= '\U{200A}'
  }

  predicate Blank(s: string) {
    forall i | 0 <= i < |s| :: Space(s[i])
  }

  // ---- the order of names ---------------------------------------------

  /** `a` comes before `b`, character by character. */
  predicate Before(a: string, b: string) {
    b != [] && (a == [] || a[0] < b[0] || (a[0] == b[0] && Before(a[1..], b[1..])))
  }

  lemma {:induction false} BeforeOrEqual(a: string, b: string)
    ensures a == b || Before(a, b) || Before(b, a)
    decreases |a|
  {
    if a != [] && b != [] && a[0] == b[0] {
      BeforeOrEqual(a[1..], b[1..]);
      assert a == [a[0]] + a[1..] && b == [b[0]] + b[1..];
    }
  }

  lemma {:induction false} BeforeTrans(a: string, b: string, c: string)
    requires Before(a, b) && Before(b, c)
    ensures Before(a, c)
    decreases |a|
  {
    if a != [] && a[0] == b[0] == c[0] {
      BeforeTrans(a[1..], b[1..], c[1..]);
    }
  }

  lemma {:induction false} BeforeAsym(a: string, b: string)
    requires Before(a, b)
    ensures !Before(b, a)
    decreases |a|
  {
    if a != [] && a[0] == b[0] {
      BeforeAsym(a[1..], b[1..]);
    }
  }

  lemma {:induction false} FirstName(names: set<string>) returns (first: string)
    requires names != {}
    ensures first in names && forall n | n in names && n != first :: Before(first, n)
    decreases names
  {
    var some :| some in names;
    var others := names - {some};
    assert forall n | n in names && n != some :: n in others;
    first := some;
    if others != {} {
      var other := FirstName(others);
      BeforeOrEqual(some, other);
      if Before(other, some) {
        first := other;
      } else {
        forall n | n in others
          ensures Before(some, n)
        {
          if n != other {
            BeforeTrans(some, other, n);
          }
        }
      }
    }
  }

  predicate Ascending(ns: seq<string>) {
    forall i, j | 0 <= i < j < |ns| :: Before(ns[i], ns[j])
  }

  /** The names, in order. */
  method InNameOrder(names: set<string>) returns (ns: seq<string>)
    ensures Ascending(ns) && |ns| == |names| && forall n :: n in ns <==> n in names
  {
    ns := [];
    var rest := names;
    while rest != {}
      invariant rest <= names && |ns| + |rest| == |names|
      invariant Ascending(ns) && forall n :: n in ns <==> n in names && n !in rest
      invariant forall i, n | 0 <= i < |ns| && n in rest :: Before(ns[i], n)
    {
      ghost var first := FirstName(rest);
      var n :| n in rest && forall n' | n' in rest && n' != n :: Before(n, n');
      ns := ns + [n];
      rest := rest - {n};
    }
  }
}
