/**
 * Sorting by a real-valued key, the shape every `sorted(by:)` call of the
 * history screens takes: a comparator `key(a) < key(b)` (or `>`, by
 * negating the key).
 */
module Sorting {

  predicate SortedBy<T>(s: seq<T>, key: T -> real) {
    forall i, j :: 0 <= i < j < |s| ==> key(s[i]) <= key(s[j])
  }

  /** No two elements agree on `f`. */
  ghost predicate DistinctBy<T, U>(s: seq<T>, f: T -> U) {
    forall i, j :: 0 <= i < j < |s| ==> f(s[i]) != f(s[j])
  }

  function Insert<T>(x: T, s: seq<T>, key: T -> real): (r: seq<T>)
    requires SortedBy(s, key)
    ensures SortedBy(r, key)
    ensures multiset(r) == multiset(s) + multiset{x}
    ensures |r| == |s| + 1
    ensures r[0] == x || (s != [] && r[0] == s[0])
  {
    if s == [] then [x]
    else if key(x) <= key(s[0]) then [x] + s
    else
      var rest := Insert(x, s[1..], key);
      assert multiset(s) == multiset{s[0]} + multiset(s[1..]) by {
        assert s == [s[0]] + s[1..];
      }
      assert multiset([s[0]] + rest) == multiset{s[0]} + multiset(rest);
      [s[0]] + rest
  }

  /** Insertion sort: a permutation of `s`, ordered by `key`. */
  function SortBy<T>(s: seq<T>, key: T -> real): (r: seq<T>)
    ensures SortedBy(r, key)
    ensures multiset(r) == multiset(s)
    ensures |r| == |s|
  {
    if s == [] then []
    else
      assert s == [s[0]] + s[1..];
      Insert(s[0], SortBy(s[1..], key), key)
  }

  /** What `Insert` returns holds `x` and the elements of `s`, nothing else. */
  lemma InsertMember<T>(x: T, s: seq<T>, key: T -> real, y: T)
    requires SortedBy(s, key)
    requires y in Insert(x, s, key)
    ensures y == x || y in s
  {
    assert y in multiset(Insert(x, s, key));
  }

  /** Putting in front an element that differs on `f` from all others keeps the list distinct. */
  lemma PrependKeepsDistinct<T, U>(x: T, s: seq<T>, f: T -> U)
    requires DistinctBy(s, f)
    requires forall y :: y in s ==> f(y) != f(x)
    ensures DistinctBy([x] + s, f)
  {
    var r := [x] + s;
    forall i, j | 0 <= i < j < |r|
      ensures f(r[i]) != f(r[j])
    {
      assert r[j] == s[j - 1];
      if i > 0 {
        assert r[i] == s[i - 1];
      } else {
        assert r[j] in s;
      }
    }
  }

  lemma {:induction false} InsertKeepsDistinct<T, U>(x: T, s: seq<T>, key: T -> real, f: T -> U)
    requires SortedBy(s, key)
    requires DistinctBy(s, f)
    requires forall y :: y in s ==> f(y) != f(x)
    ensures DistinctBy(Insert(x, s, key), f)
  {
    if s == [] || key(x) <= key(s[0]) {
      PrependKeepsDistinct(x, s, f);
    } else {
      var tail := s[1..];
      var rest := Insert(x, tail, key);
      assert forall y :: y in tail ==> y in s;
      assert DistinctBy(tail, f);
      InsertKeepsDistinct(x, tail, key, f);
      forall y | y in rest
        ensures f(y) != f(s[0])
      {
        InsertMember(x, tail, key, y);
        if y != x {
          var k :| 0 <= k < |tail| && tail[k] == y;
          assert s[k + 1] == y;
        }
      }
      PrependKeepsDistinct(s[0], rest, f);
    }
  }

  /** Sorting keeps elements that differ on `f` different on `f`. */
  lemma {:induction false} SortKeepsDistinct<T, U>(s: seq<T>, key: T -> real, f: T -> U)
    requires DistinctBy(s, f)
    ensures DistinctBy(SortBy(s, key), f)
  {
    if s != [] {
      var sorted := SortBy(s[1..], key);
      SortKeepsDistinct(s[1..], key, f);
      forall y | y in sorted
        ensures f(y) != f(s[0])
      {
        assert y in multiset(s[1..]);
        var k :| 1 <= k < |s| && s[k] == y;
      }
      InsertKeepsDistinct(s[0], sorted, key, f);
    }
  }

  /** Sorted with pairwise different keys means strictly increasing keys. */
  lemma SortedDistinctIsStrict<T>(s: seq<T>, key: T -> real)
    requires SortedBy(s, key) && DistinctBy(s, key)
    ensures forall i, j :: 0 <= i < j < |s| ==> key(s[i]) < key(s[j])
  {
  }
}
