/** Finite sums over sequences, and when two of them agree. */
module Sums {

  function Sum<T>(s: seq<T>, f: T -> int): int {
    if s == [] then 0 else Sum(s[..|s| - 1], f) + f(s[|s| - 1])
  }

  function SumReal<T>(s: seq<T>, f: T -> real): real {
    if s == [] then 0.0 else SumReal(s[..|s| - 1], f) + f(s[|s| - 1])
  }

  lemma SumSnoc<T>(s: seq<T>, x: T, f: T -> int)
    ensures Sum(s + [x], f) == Sum(s, f) + f(x)
  {
    assert (s + [x])[..|s|] == s;
  }

  lemma {:induction false} SumAppend<T>(a: seq<T>, b: seq<T>, f: T -> int)
    ensures Sum(a + b, f) == Sum(a, f) + Sum(b, f)
  {
    if b == [] {
      assert a + b == a;
    } else {
      var n := |b| - 1;
      assert a + b == (a + b[..n]) + [b[n]];
      SumSnoc(a + b[..n], b[n], f);
      SumAppend(a, b[..n], f);
    }
  }

  lemma {:induction false} SumCongruence<T>(s: seq<T>, f: T -> int, g: T -> int)
    requires forall i :: 0 <= i < |s| ==> f(s[i]) == g(s[i])
    ensures Sum(s, f) == Sum(s, g)
  {
    if s != [] {
      SumCongruence(s[..|s| - 1], f, g);
    }
  }

  lemma {:induction false} SumMonotone<T>(s: seq<T>, f: T -> int, g: T -> int)
    requires forall i :: 0 <= i < |s| ==> f(s[i]) <= g(s[i])
    ensures Sum(s, f) <= Sum(s, g)
  {
    if s != [] {
      SumMonotone(s[..|s| - 1], f, g);
    }
  }

  lemma {:induction false} SumDifference<T>(s: seq<T>, f: T -> int, g: T -> int, h: T -> int)
    requires forall i :: 0 <= i < |s| ==> h(s[i]) == f(s[i]) - g(s[i])
    ensures Sum(s, h) == Sum(s, f) - Sum(s, g)
  {
    if s != [] {
      SumDifference(s[..|s| - 1], f, g, h);
    }
  }

  function Without<T>(s: seq<T>, k: nat): (r: seq<T>)
    requires k < |s|
    ensures |r| == |s| - 1
    ensures forall i :: 0 <= i < |r| ==> r[i] == if i < k then s[i] else s[i + 1]
  {
    s[..k] + s[k + 1..]
  }

  lemma WithoutMultiset<T>(s: seq<T>, k: nat)
    requires k < |s|
    ensures multiset(Without(s, k)) == multiset(s) - multiset{s[k]}
  {
    assert s == s[..k] + [s[k]] + s[k + 1..];
  }

  lemma {:induction false} SumWithout<T>(s: seq<T>, k: nat, f: T -> int)
    requires k < |s|
    ensures Sum(s, f) == Sum(Without(s, k), f) + f(s[k])
  {
    var n := |s| - 1;
    if k == n {
      assert Without(s, k) == s[..n];
    } else {
      SumWithout(s[..n], k, f);
      var r := Without(s, k);
      assert r[..n - 1] == Without(s[..n], k);
      assert r[n - 1] == s[n];
    }
  }

  // A sum does not depend on the order of its terms.
  lemma {:induction false} SumPermutation<T>(a: seq<T>, b: seq<T>, f: T -> int)
    requires multiset(a) == multiset(b)
    ensures Sum(a, f) == Sum(b, f)
    decreases |a|
  {
    if a == [] {
      assert |multiset(b)| == |b|;
      assert |multiset(a)| == 0;
      assert b == [];
    } else {
      var n := |a| - 1;
      assert a == a[..n] + [a[n]];
      assert a[n] in multiset(b);
      var k :| 0 <= k < |b| && b[k] == a[n];
      WithoutMultiset(b, k);
      SumPermutation(a[..n], Without(b, k), f);
      SumWithout(b, k, f);
    }
  }

  function Map<A, B>(s: seq<A>, f: A -> B): (r: seq<B>)
    ensures |r| == |s| && forall i :: 0 <= i < |r| ==> r[i] == f(s[i])
  {
    seq(|s|, i requires 0 <= i < |s| => f(s[i]))
  }

  lemma MapSnoc<A, B>(s: seq<A>, n: nat, f: A -> B)
    requires |s| == n + 1
    ensures multiset(s) == multiset(s[..n]) + multiset{s[n]}
    ensures multiset(Map(s, f)) == multiset(Map(s[..n], f)) + multiset{f(s[n])}
  {
    assert s == s[..n] + [s[n]];
    assert Map(s, f) == Map(s[..n], f) + [f(s[n])];
  }

  lemma MapWithout<A, B>(s: seq<A>, k: nat, f: A -> B)
    requires k < |s|
    ensures multiset(Map(Without(s, k), f)) == multiset(Map(s, f)) - multiset{f(s[k])}
    ensures f(s[k]) in multiset(Map(s, f))
  {
    assert Map(Without(s, k), f) == Without(Map(s, f), k);
    WithoutMultiset(Map(s, f), k);
    assert Map(s, f)[k] == f(s[k]);
  }

  lemma Member<T>(a: seq<T>, b: seq<T>, n: nat) returns (k: nat)
    requires multiset(a) == multiset(b) && n < |a|
    ensures k < |b| && b[k] == a[n]
  {
    assert a[n] in multiset(b);
    k :| 0 <= k < |b| && b[k] == a[n];
  }

  lemma SameLength<T>(a: seq<T>, b: seq<T>)
    requires multiset(a) == multiset(b)
    ensures |a| == |b|
  {
    assert |multiset(a)| == |a| && |multiset(b)| == |b|;
  }

  lemma {:induction false} PermutedMap<A, B>(a: seq<A>, b: seq<A>, f: A -> B)
    requires multiset(a) == multiset(b)
    ensures multiset(Map(a, f)) == multiset(Map(b, f))
    decreases |a|
  {
    hide *;
    SameLength(a, b);
    if a == [] {
      assert a == b;
    } else {
      var n := |a| - 1;
      var k := Member(a, b, n);
      MapSnoc(a, n, f);
      WithoutMultiset(b, k);
      PermutedMap(a[..n], Without(b, k), f);
      MapWithout(b, k, f);
    }
  }

  // Termwise errors add up: `bound` is in halves.
  lemma {:induction false} SumRealError<T>(s: seq<T>, exact: T -> real, rounded: T -> int, bound: T -> int)
    requires forall i :: 0 <= i < |s| ==>
               -(bound(s[i]) as real) / 2.0 <= rounded(s[i]) as real - exact(s[i]) <= bound(s[i]) as real / 2.0
    ensures -(Sum(s, bound) as real) / 2.0 <= Sum(s, rounded) as real - SumReal(s, exact) <= Sum(s, bound) as real / 2.0
  {
    if s != [] {
      SumRealError(s[..|s| - 1], exact, rounded, bound);
    }
  }

  function SumTo(n: nat, w: nat -> int): int {
    if n == 0 then 0 else SumTo(n - 1, w) + w(n)
  }

  predicate Distinct<T(==)>(s: seq<T>) {
    forall i, j :: 0 <= i < j < |s| ==> s[i] != s[j]
  }

  lemma {:induction false} DistinctCount<T>(s: seq<T>, x: T)
    requires Distinct(s)
    ensures multiset(s)[x] == if x in s then 1 else 0
    decreases |s|
  {
    if s != [] {
      var n := |s| - 1;
      DistinctCount(s[..n], x);
      assert s == s[..n] + [s[n]];
      if x == s[n] { assert x !in s[..n]; }
    }
  }

  lemma DistinctSameMembers<T>(a: seq<T>, b: seq<T>)
    requires Distinct(a) && Distinct(b) && forall x :: x in a <==> x in b
    ensures multiset(a) == multiset(b)
  {
    forall x ensures multiset(a)[x] == multiset(b)[x] {
      DistinctCount(a, x);
      DistinctCount(b, x);
    }
  }

  lemma WithoutLast(ns: seq<nat>, k: nat, n: nat)
    requires Distinct(ns) && k < |ns| && ns[k] == n
    requires forall i :: 0 <= i < |ns| ==> 1 <= ns[i] <= n
    ensures Distinct(Without(ns, k)) && n >= 1
    ensures forall i :: 0 <= i < |Without(ns, k)| ==> 1 <= Without(ns, k)[i] <= n - 1
  {
    var r := Without(ns, k);
    forall i, j | 0 <= i < j < |r| ensures r[i] != r[j] {
      assert r[i] == ns[if i < k then i else i + 1] && r[j] == ns[if j < k then j else j + 1];
    }
    forall i | 0 <= i < |r| ensures 1 <= r[i] <= n - 1 {
      assert r[i] == ns[if i < k then i else i + 1];
    }
  }

  // Distinct indices in 1..n weigh at most as much as all of 1..n.
  lemma {:induction false} DistinctWeights(ns: seq<nat>, n: nat, w: nat -> int)
    requires Distinct(ns) && forall i :: 0 <= i < |ns| ==> 1 <= ns[i] <= n
    requires forall k: nat :: w(k) >= 0
    ensures Sum(ns, w) <= SumTo(n, w)
    decreases n
  {
    if ns == [] {
      SumToNonNegative(n, w);
    } else if n in ns {
      var k :| 0 <= k < |ns| && ns[k] == n;
      SumWithout(ns, k, w);
      WithoutLast(ns, k, n);
      DistinctWeights(Without(ns, k), n - 1, w);
    } else {
      assert 1 <= ns[0] <= n;
      forall i | 0 <= i < |ns| ensures 1 <= ns[i] <= n - 1 {
        assert ns[i] in ns;
      }
      DistinctWeights(ns, n - 1, w);
      assert SumTo(n, w) == SumTo(n - 1, w) + w(n);
    }
  }

  lemma {:induction false} SumToNonNegative(n: nat, w: nat -> int)
    requires forall k: nat :: w(k) >= 0
    ensures SumTo(n, w) >= 0
  {
    if n > 0 { SumToNonNegative(n - 1, w); }
  }
}
