/** Listings of a finite set in a strict order. */
module Sorting {
  import opened Basics

  ghost predicate Strict<T(!new)>(less: (T, T) -> bool) { forall x, y :: less(x, y) ==> !less(y, x) }

  ghost predicate StrictTotal<T(!new)>(less: (T, T) -> bool) {
    && Strict(less)
    && (forall x, y :: x == y || less(x, y) || less(y, x))
    && (forall x, y, z :: less(x, y) && less(y, z) ==> less(x, z))
  }

  predicate Sorted<T>(less: (T, T) -> bool, s: seq<T>) { forall i, j :: 0 <= i < j < |s| ==> less(s[i], s[j]) }

  predicate Lists<T(==)>(less: (T, T) -> bool, s: seq<T>, items: set<T>) { Sorted(less, s) && Elems(s) == items }

  lemma TailElems<T(!new)>(less: (T, T) -> bool, s: seq<T>)
    requires Strict(less) && Sorted(less, s) && s != []
    ensures Sorted(less, s[1..]) && Elems(s[1..]) == Elems(s) - {s[0]}
  {
    assert s == [s[0]] + s[1..];
    forall x | x in s[1..]
      ensures less(s[0], x) && x != s[0]
    {
      assert less(s[0], x);
    }
  }

  /** A set has only one listing in a strict order. */
  lemma {:induction false} ListingUnique<T(!new)>(less: (T, T) -> bool, a: seq<T>, b: seq<T>)
    requires Strict(less) && Sorted(less, a) && Sorted(less, b) && Elems(a) == Elems(b)
    ensures a == b
    decreases |a|
  {
    if a == [] {
      assert forall i :: 0 <= i < |b| ==> b[i] in Elems(b);
    } else {
      assert a[0] in Elems(b);
      assert b != [] && b[0] in Elems(a);
      assert a[0] == b[0];
      TailElems(less, a);
      TailElems(less, b);
      ListingUnique(less, a[1..], b[1..]);
      assert a == [a[0]] + a[1..] && b == [b[0]] + b[1..];
    }
  }

  lemma {:induction false} LeastExists<T(!new)>(less: (T, T) -> bool, items: set<T>) returns (m: T)
    requires StrictTotal(less) && items != {}
    ensures m in items && forall x <- items :: x == m || less(m, x)
    decreases items
  {
    m :| m in items;
    if items != {m} {
      var n := LeastExists(less, items - {m});
      assert items == items - {m} + {m};
      if less(n, m) {
        m := n;
      }
    }
  }

  method SortSet<T(==, !new)>(less: (T, T) -> bool, items: set<T>) returns (s: seq<T>)
    requires StrictTotal(less)
    ensures Lists(less, s, items)
  {
    s := [];
    var rest := items;
    while rest != {}
      invariant rest <= items && Sorted(less, s) && Elems(s) == items - rest
      invariant forall i, y :: 0 <= i < |s| && y in rest ==> less(s[i], y)
      decreases rest
    {
      ghost var least := LeastExists(less, rest);
      var m :| m in rest && forall x <- rest :: x == m || less(m, x);
      assert Elems(s + [m]) == Elems(s) + {m};
      s, rest := s + [m], rest - {m};
    }
  }
}
