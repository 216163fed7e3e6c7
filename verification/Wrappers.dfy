/** What several modules need of optional values, errors, sets and sequences. */
module Wrappers {

  datatype Option<+T> = None | Some(value: T)

  datatype Result<+T, +E> = Ok(value: T) | Err(error: E)

  lemma SubsetSize<T>(s: set<T>, s': set<T>)
    requires s <= s'
    ensures |s| <= |s'| && (s != s' ==> |s| < |s'|)
  {
    assert s' == s + (s' - s);
  }

  lemma Assoc<T>(a: seq<T>, b: seq<T>, c: seq<T>)
    ensures a + b + c == a + (b + c)
  {
  }
}
