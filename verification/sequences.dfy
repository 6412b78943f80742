/** Facts about sequences shared by the other modules. */
module Sequences {

  /** No element occurs twice. */
  predicate Distinct<T(==)>(s: seq<T>) {
    forall a, b :: 0 <= a < b < |s| ==> s[a] != s[b]
  }

  /** No two elements share a key: the uniqueness React asks of list keys. */
  predicate DistinctBy<T, K(==)>(s: seq<T>, key: T -> K) {
    forall a, b :: 0 <= a < b < |s| ==> key(s[a]) != key(s[b])
  }
}
