/** Totals of real-valued readings over the rows of a table. */
module Totals {
  import opened Tables

  ghost function Total<K, V>(m: map<K, V>, f: (K, V) -> real): real
    decreases m.Keys
  {
    if m == map[] then 0.0 else
    var k :| k in m;
    f(k, m[k]) + Total(m - {k}, f)
  }

  lemma {:induction false} TotalRemove<K, V>(m: map<K, V>, k: K, f: (K, V) -> real)
    requires k in m
    ensures Total(m, f) == f(k, m[k]) + Total(m - {k}, f)
    decreases m.Keys
  {
    var c :| c in m && Total(m, f) == f(c, m[c]) + Total(m - {c}, f);
    if c != k {
      TotalRemove(m - {c}, k, f);
      TotalRemove(m - {k}, c, f);
      assert m - {c} - {k} == m - {k} - {c};
    }
  }

  /** Writing one row moves the total by that row's change. */
  lemma TotalPut<K, V>(m: map<K, V>, k: K, v: V, f: (K, V) -> real)
    ensures Total(m[k := v], f) == Total(m, f) + f(k, v) - (if k in m then f(k, m[k]) else 0.0)
  {
    TotalRemove(m[k := v], k, f);
    assert m[k := v] - {k} == m - {k};
    if k in m {
      TotalRemove(m, k, f);
    } else {
      assert m - {k} == m;
    }
  }

  lemma {:induction false} TotalNonNegative<K, V>(m: map<K, V>, f: (K, V) -> real)
    requires forall k | k in m :: 0.0 <= f(k, m[k])
    ensures 0.0 <= Total(m, f)
    decreases m.Keys
  {
    if m != map[] {
      var k :| k in m && Total(m, f) == f(k, m[k]) + Total(m - {k}, f);
      TotalNonNegative(m - {k}, f);
    }
  }

  /** With no negative row, each row is at most the total. */
  lemma TotalAtLeast<K, V>(m: map<K, V>, k: K, f: (K, V) -> real)
    requires forall j | j in m :: 0.0 <= f(j, m[j])
    requires k in m
    ensures f(k, m[k]) <= Total(m, f)
  {
    TotalRemove(m, k, f);
    TotalNonNegative(m - {k}, f);
  }

  lemma {:induction false} TotalSame<K, V>(m: map<K, V>, f: (K, V) -> real, g: (K, V) -> real)
    requires forall k | k in m :: f(k, m[k]) == g(k, m[k])
    ensures Total(m, f) == Total(m, g)
    decreases m.Keys
  {
    if m != map[] {
      var k :| k in m && Total(m, f) == f(k, m[k]) + Total(m - {k}, f);
      TotalSame(m - {k}, f, g);
      TotalRemove(m, k, g);
    }
  }

  /** Tables with the same keys, read alike row by row, have the same total. */
  lemma {:induction false} TotalCongruent<K, V>(m: map<K, V>, m': map<K, V>, f: (K, V) -> real)
    requires m'.Keys == m.Keys && forall k | k in m :: f(k, m'[k]) == f(k, m[k])
    ensures Total(m', f) == Total(m, f)
    decreases m.Keys
  {
    if m == map[] {
      assert m' == map[];
    } else {
      var k :| k in m && Total(m, f) == f(k, m[k]) + Total(m - {k}, f);
      TotalCongruent(m - {k}, m' - {k}, f);
      TotalRemove(m', k, f);
    }
  }

  lemma {:induction false} TotalZero<K, V>(m: map<K, V>, f: (K, V) -> real)
    requires forall k | k in m :: f(k, m[k]) == 0.0
    ensures Total(m, f) == 0.0
    decreases m.Keys
  {
    if m != map[] {
      var k :| k in m && Total(m, f) == f(k, m[k]) + Total(m - {k}, f);
      TotalZero(m - {k}, f);
    }
  }

  /** If only one row reads differently, the total moves by that row's change. */
  lemma RowMoves<K, V>(m: map<K, V>, m': map<K, V>, n: K, f: (K, V) -> real)
    requires m'.Keys == m.Keys && n in m && forall k | k in m && k != n :: f(k, m'[k]) == f(k, m[k])
    ensures Total(m', f) == Total(m, f) - f(n, m[n]) + f(n, m'[n])
  {
    TotalRemove(m, n, f);
    TotalRemove(m', n, f);
    TotalCongruent(m - {n}, m' - {n}, f);
  }

  /** The total of a sum of two readings. */
  lemma {:induction false} TotalSum<K, V>(m: map<K, V>, f: (K, V) -> real, g: (K, V) -> real, h: (K, V) -> real)
    requires forall k | k in m :: h(k, m[k]) == f(k, m[k]) + g(k, m[k])
    ensures Total(m, h) == Total(m, f) + Total(m, g)
    decreases m.Keys
  {
    if m != map[] {
      var k :| k in m && Total(m, h) == h(k, m[k]) + Total(m - {k}, h);
      TotalSum(m - {k}, f, g, h);
      TotalRemove(m, k, f);
      TotalRemove(m, k, g);
    }
  }

  function Times(x: real, c: real): real {
    x * c
  }

  lemma TimesAdds(x: real, y: real, c: real)
    ensures Times(x + y, c) == Times(x, c) + Times(y, c)
  {
  }

  lemma TimesZero(c: real)
    ensures Times(0.0, c) == 0.0
  {
  }

  /** The total of a multiple of a reading. */
  lemma {:induction false} TotalScaled<K, V>(m: map<K, V>, f: (K, V) -> real, g: (K, V) -> real, c: real)
    requires forall k | k in m :: g(k, m[k]) == Times(f(k, m[k]), c)
    ensures Total(m, g) == Times(Total(m, f), c)
    decreases m.Keys
  {
    hide Times;
    if m == map[] {
      TimesZero(c);
    } else {
      var k :| k in m && Total(m, g) == g(k, m[k]) + Total(m - {k}, g);
      TotalScaled(m - {k}, f, g, c);
      TotalRemove(m, k, f);
      TimesAdds(f(k, m[k]), Total(m - {k}, f), c);
    }
  }

  lemma {:induction false} TotalAtMost<K, V>(m: map<K, V>, f: (K, V) -> real, g: (K, V) -> real)
    requires forall k | k in m :: f(k, m[k]) <= g(k, m[k])
    ensures Total(m, f) <= Total(m, g)
    decreases m.Keys
  {
    if m != map[] {
      var k :| k in m && Total(m, f) == f(k, m[k]) + Total(m - {k}, f);
      TotalAtMost(m - {k}, f, g);
      TotalRemove(m, k, g);
    }
  }
}
