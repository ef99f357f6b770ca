/** Sums over finite sets of keys, and enumerations of such sets in an arbitrary order. */
module SetSums {
  import opened Sums

  ghost function SumSet<K(!new)>(s: set<K>, f: K -> int): int {
    if s == {} then 0 else
      var k :| k in s;
      f(k) + SumSet(s - {k}, f)
  }

  lemma {:induction false} SumSetPick<K(!new)>(s: set<K>, k: K, f: K -> int)
    requires k in s
    ensures SumSet(s, f) == f(k) + SumSet(s - {k}, f)
    decreases |s|
  {
    var x :| x in s && SumSet(s, f) == f(x) + SumSet(s - {x}, f);
    if x != k {
      SumSetPick(s - {x}, k, f);
      SumSetPick(s - {k}, x, f);
      assert s - {x} - {k} == s - {k} - {x};
    }
  }

  lemma {:induction false} SumSetCongruence<K(!new)>(s: set<K>, f: K -> int, g: K -> int)
    requires forall k :: k in s ==> f(k) == g(k)
    ensures SumSet(s, f) == SumSet(s, g)
    decreases |s|
  {
    if s != {} {
      var k :| k in s;
      SumSetPick(s, k, f);
      SumSetPick(s, k, g);
      SumSetCongruence(s - {k}, f, g);
    }
  }

  lemma {:induction false} SumSetUnion<K(!new)>(s: set<K>, t: set<K>, f: K -> int)
    requires s !! t
    ensures SumSet(s + t, f) == SumSet(s, f) + SumSet(t, f)
    decreases |s|
  {
    if s == {} {
      assert s + t == t;
    } else {
      var k :| k in s;
      SumSetPick(s, k, f);
      SumSetPick(s + t, k, f);
      assert s + t - {k} == (s - {k}) + t;
      SumSetUnion(s - {k}, t, f);
    }
  }

  // Raising one term of the sum raises the sum by as much.
  lemma SumSetBump<K(!new)>(s: set<K>, k: K, f: K -> int, g: K -> int, d: int)
    requires k in s && g(k) == f(k) + d && forall x :: x in s && x != k ==> g(x) == f(x)
    ensures SumSet(s, g) == SumSet(s, f) + d
  {
    SumSetPick(s, k, f);
    SumSetPick(s, k, g);
    SumSetCongruence(s - {k}, f, g);
  }

  lemma {:induction false} SumSetZero<K(!new)>(s: set<K>, f: K -> int)
    requires forall k :: k in s ==> f(k) == 0
    ensures SumSet(s, f) == 0
    decreases |s|
  {
    if s != {} {
      var k :| k in s;
      SumSetPick(s, k, f);
      SumSetZero(s - {k}, f);
    }
  }

  lemma {:induction false} SumSetPositive<K(!new)>(s: set<K>, f: K -> int)
    requires forall k :: k in s ==> f(k) > 0
    ensures SumSet(s, f) >= 0 && (SumSet(s, f) == 0 <==> s == {})
    decreases |s|
  {
    if s != {} {
      var k :| k in s;
      SumSetPick(s, k, f);
      SumSetPositive(s - {k}, f);
    }
  }

  // `rows` lists the members of `s`, each once, in some order.
  ghost predicate Enumerates<K(!new)>(rows: seq<K>, s: set<K>) {
    Distinct(rows) && forall k :: k in s <==> k in rows
  }

  lemma {:induction false} SumOfEnumeration<K(!new)>(rows: seq<K>, s: set<K>, f: K -> int)
    requires Enumerates(rows, s)
    ensures Sum(rows, f) == SumSet(s, f)
    decreases |rows|
  {
    if rows == [] {
      assert s == {};
    } else {
      var n := |rows| - 1;
      var k := rows[n];
      assert k in rows;
      forall x ensures x in s - {k} <==> x in rows[..n] {
        assert x in rows <==> x in rows[..n] || x == k;
        if x in rows[..n] {
          var i :| 0 <= i < n && rows[..n][i] == x;
          assert rows[i] == x;
        }
      }
      SumOfEnumeration(rows[..n], s - {k}, f);
      SumSetPick(s, k, f);
    }
  }

  // A query result: all members, in an order the caller cannot rely on.
  method FindAll<K(==,!new)>(s: set<K>) returns (rows: seq<K>)
    ensures Enumerates(rows, s)
  {
    rows := [];
    var rest := s;
    while rest != {}
      invariant rest <= s && Distinct(rows)
      invariant forall k :: k in rows <==> k in s && k !in rest
      decreases |rest|
    {
      var k :| k in rest;
      rest := rest - {k};
      rows := rows + [k];
    }
  }
}
