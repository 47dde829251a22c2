/** Small shared vocabulary. */
module Basics {

  datatype Option<+T> = None | Some(value: T)

  predicate Distinct<T(==)>(s: seq<T>) { forall i, j :: 0 <= i < j < |s| ==> s[i] != s[j] }

  function Elems<T>(s: seq<T>): set<T> { set x | x in s }
}
