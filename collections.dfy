/**
 * The list operations the history screens use: Swift's `filter`, `count`,
 * `map` and `reduce(0, +)`, and `contains(where:)`.
 */
module Collections {

  function Filter<T>(s: seq<T>, p: T -> bool): (r: seq<T>)
    ensures |r| <= |s|
    ensures forall x :: x in r ==> x in s && p(x)
    ensures forall x :: x in s && p(x) ==> x in r
    ensures forall x :: x in s ==> multiset(r)[x] == if p(x) then multiset(s)[x] else 0
  {
    if s == [] then []
    else
      var init, last := s[..|s| - 1], s[|s| - 1];
      assert s == init + [last];
      if p(last) then Filter(init, p) + [last]
      else Filter(init, p)
  }

  /** `s.filter(p).count`. */
  function CountWhere<T>(s: seq<T>, p: T -> bool): (n: nat)
    ensures n <= |s|
  {
    |Filter(s, p)|
  }

  /** `contains(where:)`. */
  predicate Contains<T>(s: seq<T>, p: T -> bool) {
    exists i :: 0 <= i < |s| && p(s[i])
  }

  function Sum(s: seq<real>): real {
    if s == [] then 0.0 else Sum(s[..|s| - 1]) + s[|s| - 1]
  }

  function SumInt(s: seq<int>): int {
    if s == [] then 0 else SumInt(s[..|s| - 1]) + s[|s| - 1]
  }

  function Map<T, U>(s: seq<T>, f: T -> U): (r: seq<U>)
    ensures |r| == |s| && forall i :: 0 <= i < |s| ==> r[i] == f(s[i])
  {
    seq(|s|, i requires 0 <= i < |s| => f(s[i]))
  }

  lemma {:induction false} SumAppend(a: seq<real>, b: seq<real>)
    ensures Sum(a + b) == Sum(a) + Sum(b)
    decreases |b|
  {
    if b == [] {
      assert a + b == a;
    } else {
      assert (a + b)[..|a + b| - 1] == a + b[..|b| - 1];
      SumAppend(a, b[..|b| - 1]);
    }
  }

  lemma {:induction false} SumIntAppend(a: seq<int>, b: seq<int>)
    ensures SumInt(a + b) == SumInt(a) + SumInt(b)
    decreases |b|
  {
    if b == [] {
      assert a + b == a;
    } else {
      assert (a + b)[..|a + b| - 1] == a + b[..|b| - 1];
      SumIntAppend(a, b[..|b| - 1]);
    }
  }

  /** Taking out the element at `k` takes one copy of it out of the multiset. */
  lemma RemoveAt<T>(b: seq<T>, k: int)
    requires 0 <= k < |b|
    ensures b == b[..k] + [b[k]] + b[k + 1..]
    ensures multiset(b[..k] + b[k + 1..]) == multiset(b) - multiset{b[k]}
  {
    assert b == b[..k] + [b[k]] + b[k + 1..];
    assert multiset(b) == multiset(b[..k]) + multiset{b[k]} + multiset(b[k + 1..]);
  }

  /** The element `k` of a list can be moved last without changing the multiset. */
  lemma PermutationPeel<T>(a: seq<T>, b: seq<T>) returns (k: int)
    requires multiset(a) == multiset(b) && a != []
    ensures 0 <= k < |b| && b[k] == a[|a| - 1]
    ensures multiset(b[..k] + b[k + 1..]) == multiset(a[..|a| - 1])
  {
    var x := a[|a| - 1];
    assert a == a[..|a| - 1] + [x];
    assert multiset(a) == multiset(a[..|a| - 1]) + multiset{x};
    assert x in multiset(b);
    k :| 0 <= k < |b| && b[k] == x;
    RemoveAt(b, k);
  }

  /** Summing the list with one element taken out, plus that element. */
  lemma SumSplit(s: seq<real>, u: seq<real>, x: real, v: seq<real>, t: seq<real>)
    requires s == u + [x] + v && t == u + v
    ensures Sum(s) == Sum(t) + x
  {
    SumAppend(u + [x], v);
    SumAppend(u, v);
    assert (u + [x])[..|u|] == u;
  }

  lemma SumIntSplit(s: seq<int>, u: seq<int>, x: int, v: seq<int>, t: seq<int>)
    requires s == u + [x] + v && t == u + v
    ensures SumInt(s) == SumInt(t) + x
  {
    SumIntAppend(u + [x], v);
    SumIntAppend(u, v);
    assert (u + [x])[..|u|] == u;
  }

  /** `Map` commutes with taking out the element at `k`. */
  lemma MapRemoveAt<T, U>(b: seq<T>, k: int, f: T -> U)
    requires 0 <= k < |b|
    ensures Map(b, f) == Map(b[..k], f) + [f(b[k])] + Map(b[k + 1..], f)
    ensures Map(b[..k] + b[k + 1..], f) == Map(b[..k], f) + Map(b[k + 1..], f)
  {
  }

  /** `Map` commutes with dropping the last element. */
  lemma MapInit<T, U>(a: seq<T>, f: T -> U)
    requires a != []
    ensures Map(a, f)[..|a| - 1] == Map(a[..|a| - 1], f)
    ensures Map(a, f)[|a| - 1] == f(a[|a| - 1])
  {
  }

  /** Summing `f` over a list does not depend on the order of the list. */
  lemma {:induction false} SumMapPermutation<T>(a: seq<T>, b: seq<T>, f: T -> real)
    requires multiset(a) == multiset(b)
    ensures Sum(Map(a, f)) == Sum(Map(b, f))
    decreases |a|
  {
    if a != [] {
      var k := PermutationPeel(a, b);
      var rest := b[..k] + b[k + 1..];
      SumMapPermutation(a[..|a| - 1], rest, f);
      MapInit(a, f);
      MapRemoveAt(b, k, f);
      SumSplit(Map(b, f), Map(b[..k], f), f(b[k]), Map(b[k + 1..], f), Map(rest, f));
      SumLast(Map(a, f), Map(a[..|a| - 1], f), f(a[|a| - 1]));
    }
  }

  lemma SumLast(s: seq<real>, init: seq<real>, x: real)
    requires s != [] && s[..|s| - 1] == init && s[|s| - 1] == x
    ensures Sum(s) == Sum(init) + x
  {
  }

  /** The integer version of `SumMapPermutation`. */
  lemma {:induction false} SumIntMapPermutation<T>(a: seq<T>, b: seq<T>, f: T -> int)
    requires multiset(a) == multiset(b)
    ensures SumInt(Map(a, f)) == SumInt(Map(b, f))
    decreases |a|
  {
    if a != [] {
      var k := PermutationPeel(a, b);
      var rest := b[..k] + b[k + 1..];
      SumIntMapPermutation(a[..|a| - 1], rest, f);
      MapInit(a, f);
      MapRemoveAt(b, k, f);
      SumIntSplit(Map(b, f), Map(b[..k], f), f(b[k]), Map(b[k + 1..], f), Map(rest, f));
    }
  }

  /** Everything satisfies exactly one of `p` and its negation. */
  lemma {:induction false} CountComplement<T>(s: seq<T>, p: T -> bool, q: T -> bool)
    requires forall x :: q(x) == !p(x)
    ensures CountWhere(s, p) + CountWhere(s, q) == |s|
  {
    if s != [] {
      CountComplement(s[..|s| - 1], p, q);
    }
  }

  /** Counts of three pairwise-exclusive predicates, plus the count of what
      none of them holds for, make up the whole list. */
  lemma {:induction false} CountPartition<T>(s: seq<T>, a: T -> bool, b: T -> bool, c: T -> bool, none: T -> bool)
    requires forall x :: none(x) == (!a(x) && !b(x) && !c(x))
    requires forall x :: !(a(x) && b(x)) && !(a(x) && c(x)) && !(b(x) && c(x))
    ensures CountWhere(s, a) + CountWhere(s, b) + CountWhere(s, c) + CountWhere(s, none) == |s|
  {
    if s != [] {
      CountPartition(s[..|s| - 1], a, b, c, none);
    }
  }

  /** A sum of values in [lo, hi] lies in [n * lo, n * hi]. */
  lemma {:induction false} SumBounds(s: seq<real>, lo: real, hi: real)
    requires forall i :: 0 <= i < |s| ==> lo <= s[i] <= hi
    ensures |s| as real * lo <= Sum(s) <= |s| as real * hi
  {
    if s != [] {
      SumBounds(s[..|s| - 1], lo, hi);
    }
  }

  /** The mean of values in [lo, hi] lies in [lo, hi]. */
  lemma MeanBounds(s: seq<real>, lo: real, hi: real)
    requires |s| > 0
    requires forall i :: 0 <= i < |s| ==> lo <= s[i] <= hi
    ensures lo <= Sum(s) / |s| as real <= hi
  {
    SumBounds(s, lo, hi);
    var n := |s| as real;
    assert lo * n <= Sum(s) <= hi * n;
    assert Sum(s) / n >= lo by { assert Sum(s) >= lo * n; }
    assert Sum(s) / n <= hi by { assert Sum(s) <= hi * n; }
  }
}
