/** Python's `list.sort(key=..., reverse=...)` (a stable sort) on integer keys. */
module Sorting {

  /** `a` may precede `b` in a list sorted by `key`, ascending or descending. */
  predicate InOrder<T>(key: T -> int, descending: bool, a: T, b: T) {
    if descending then key(a) >= key(b) else key(a) <= key(b)
  }

  ghost predicate Sorted<T>(s: seq<T>, key: T -> int, descending: bool) {
    forall i, j :: 0 <= i < j < |s| ==> InOrder(key, descending, s[i], s[j])
  }

  /** Inserts `x` before the first element that `x` must not follow; elements with
      the same key as `x` stay after it, which keeps the sort stable. */
  function Insert<T>(x: T, s: seq<T>, key: T -> int, descending: bool): (r: seq<T>)
    ensures |r| == |s| + 1
  {
    if s == [] || InOrder(key, descending, x, s[0]) then [x] + s
    else [s[0]] + Insert(x, s[1..], key, descending)
  }

  /** Insertion adds exactly `x`. */
  lemma {:induction false} InsertPermutes<T>(x: T, s: seq<T>, key: T -> int, descending: bool)
    ensures multiset(Insert(x, s, key, descending)) == multiset(s) + multiset{x}
  {
    if s != [] && !InOrder(key, descending, x, s[0]) {
      assert s == [s[0]] + s[1..];
      InsertPermutes(x, s[1..], key, descending);
    }
  }

  /** Insertion into a sorted list keeps it sorted. */
  lemma {:induction false} InsertSorted<T>(x: T, s: seq<T>, key: T -> int, descending: bool)
    requires Sorted(s, key, descending)
    ensures Sorted(Insert(x, s, key, descending), key, descending)
  {
    if s == [] || InOrder(key, descending, x, s[0]) {
      assert forall j :: 0 <= j < |s| ==> InOrder(key, descending, x, s[j]) by {
        if s != [] {
          assert forall j :: 0 <= j < |s| ==> InOrder(key, descending, s[0], s[j]);
        }
      }
      ConsSorted(key, descending, x, s);
    } else {
      var t := Insert(x, s[1..], key, descending);
      assert Sorted(s[1..], key, descending) by {
        assert forall j :: 0 <= j < |s[1..]| ==> s[1..][j] == s[j + 1];
      }
      InsertSorted(x, s[1..], key, descending);
      InsertPermutes(x, s[1..], key, descending);
      var u := s[1..] + [x];
      assert multiset(u) == multiset(t);
      assert forall j :: 0 <= j < |u| ==> InOrder(key, descending, s[0], u[j]) by {
        assert forall j :: 0 <= j < |s[1..]| ==> u[j] == s[j + 1];
      }
      FirstBoundsPermutation(key, descending, s[0], u, t);
      ConsSorted(key, descending, s[0], t);
    }
  }

  /** A sorted list stays sorted behind an element that may precede all of it. */
  lemma ConsSorted<T>(key: T -> int, descending: bool, a: T, t: seq<T>)
    requires Sorted(t, key, descending)
    requires forall j :: 0 <= j < |t| ==> InOrder(key, descending, a, t[j])
    ensures Sorted([a] + t, key, descending)
  {
    var r := [a] + t;
    forall i, j | 0 <= i < j < |r| ensures InOrder(key, descending, r[i], r[j]) {
      assert r[j] == t[j - 1];
      if i > 0 {
        assert r[i] == t[i - 1];
      }
    }
  }

  /** An element that may precede every element of `u` may precede every element of a
      permutation of `u`. */
  lemma FirstBoundsPermutation<T>(key: T -> int, descending: bool, a: T, u: seq<T>, t: seq<T>)
    requires multiset(u) == multiset(t)
    requires forall j :: 0 <= j < |u| ==> InOrder(key, descending, a, u[j])
    ensures forall j :: 0 <= j < |t| ==> InOrder(key, descending, a, t[j])
  {
    forall j | 0 <= j < |t| ensures InOrder(key, descending, a, t[j]) {
      assert t[j] in multiset(u);
      var k :| 0 <= k < |u| && u[k] == t[j];
    }
  }

  /** `sorted(s, key=key, reverse=descending)`: insertion of each element into the
      sorted rest; `SortBySorted` and `SortByPermutes` state what it computes. */
  function SortBy<T>(s: seq<T>, key: T -> int, descending: bool): (r: seq<T>)
    ensures |r| == |s|
  {
    if s == [] then []
    else
      Insert(s[0], SortBy(s[1..], key, descending), key, descending)
  }

  /** The result of `SortBy` is a permutation of its input. */
  lemma {:induction false} SortByPermutes<T>(s: seq<T>, key: T -> int, descending: bool)
    ensures multiset(SortBy(s, key, descending)) == multiset(s)
  {
    if s != [] {
      SortByPermutes(s[1..], key, descending);
      InsertPermutes(s[0], SortBy(s[1..], key, descending), key, descending);
      assert s == [s[0]] + s[1..];
    }
  }

  /** The result of `SortBy` is in key order. */
  lemma {:induction false} SortBySorted<T>(s: seq<T>, key: T -> int, descending: bool)
    ensures Sorted(SortBy(s, key, descending), key, descending)
  {
    if s != [] {
      SortBySorted(s[1..], key, descending);
      InsertSorted(s[0], SortBy(s[1..], key, descending), key, descending);
    }
  }
}
