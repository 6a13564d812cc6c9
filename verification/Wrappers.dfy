/** Optional values, distinct elements, sums, and the sizes and least elements of sets. */
module Wrappers {

  datatype Option<+T> = None | Some(value: T)

  lemma SubsetSize<T>(a: set<T>, b: set<T>)
    requires a <= b
    ensures |a| <= |b|
  {
    assert b == a + (b - a);
  }

  lemma FullSubset<T>(a: set<T>, b: set<T>)
    requires a <= b && |a| == |b|
    ensures a == b
  {
    assert b == a + (b - a);
  }

  ghost function Elems<T>(xs: seq<T>): set<T> {
    set x | x in xs
  }

  ghost predicate Distinct<T>(xs: seq<T>) {
    forall i, j | 0 <= i < j < |xs| :: xs[i] != xs[j]
  }

  lemma {:induction false} DistinctSize<T>(xs: seq<T>)
    requires Distinct(xs)
    ensures |Elems(xs)| == |xs|
  {
    if xs != [] {
      var rest := xs[..|xs| - 1];
      DistinctSize(rest);
      assert Elems(xs) == Elems(rest) + {xs[|xs| - 1]};
    }
  }

  /** Some element of a set, as an iteration over a Go map yields it. */
  method PickAny<T(==)>(s: set<T>) returns (x: T)
    requires s != {}
    ensures x in s
  {
    x :| x in s;
  }

  lemma AnyOf<T>(s: set<T>) returns (x: T)
    requires s != {}
    ensures x in s
  {
    x :| x in s;
  }

  lemma {:induction false} LeastExists(s: set<int>)
    requires s != {}
    ensures exists m :: m in s && forall x | x in s :: m <= x
    decreases |s|
  {
    var m := AnyOf(s);
    if s - {m} != {} {
      LeastExists(s - {m});
      var k :| k in s - {m} && forall x | x in s - {m} :: k <= x;
      assert s == (s - {m}) + {m};
      assert (if k <= m then k else m) in s && forall x | x in s :: (if k <= m then k else m) <= x;
    } else {
      assert s == {m};
    }
  }

  ghost function Least(s: set<int>): (m: int)
    requires s != {}
    ensures m in s && forall x | x in s :: m <= x
  {
    LeastExists(s);
    var m :| m in s && forall x | x in s :: m <= x;
    m
  }

  method SmallestOf(s: set<int>) returns (m: int)
    requires s != {}
    ensures m == Least(s)
  {
    m := PickAny(s);
    var rest := s - {m};
    while rest != {}
      invariant rest <= s && m in s && forall x | x in s :: x in rest || m <= x
      decreases |rest|
    {
      var x := PickAny(rest);
      rest := rest - {x};
      m := if x < m then x else m;
    }
  }

  ghost function SumLoads<K>(m: map<K, nat>): nat
    decreases |m|
  {
    if m == map[] then 0
    else
      var k :| k in m;
      m[k] + SumLoads(m - {k})
  }

  lemma EmptySum<K>(m: map<K, nat>)
    requires m == map[]
    ensures SumLoads(m) == 0
  {
  }

  lemma {:induction false} SumLoadsSplit<K>(m: map<K, nat>, h: K)
    requires h in m
    ensures SumLoads(m) == m[h] + SumLoads(m - {h})
    decreases |m|
  {
    var k :| k in m && SumLoads(m) == m[k] + SumLoads(m - {k});
    if k != h {
      SumLoadsSplit(m - {k}, h);
      SumLoadsSplit(m - {h}, k);
      assert m - {k} - {h} == m - {h} - {k};
    }
  }

  lemma {:induction false} SumOfSubmap<K>(small: map<K, nat>, big: map<K, nat>)
    requires small.Keys <= big.Keys && forall h | h in big :: big[h] == if h in small then small[h] else 0
    ensures SumLoads(big) == SumLoads(small)
    decreases |big|
  {
    if h :| h in big && h !in small {
      SumLoadsSplit(big, h);
      SumOfSubmap(small, big - {h});
    } else {
      assert big == small;
    }
  }
}
