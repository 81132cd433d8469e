/** Tables are maps from primary keys to rows. This module holds what every contract
    needs about them: totals over the rows of a table, and the first row of an index. */
module Tables {

  /** The result of an action: a failed check aborts the whole action. */
  datatype Option<+T> = None | Some(value: T) {
    predicate IsFailure() {
      None?
    }

    function PropagateFailure<U>(): Option<U>
      requires None?
    {
      None
    }

    function Extract(): T
      requires Some?
    {
      value
    }
  }

  function Need(condition: bool): Option<()> {
    if condition then Some(()) else None
  }

  function Min(a: int, b: int): int {
    if a <= b then a else b
  }

  function Max(a: int, b: int): int {
    if a <= b then b else a
  }

  // ----- totals -----

  /** The sum over all rows of the amount `f` reads in a row. */
  ghost function Sum<K, V>(m: map<K, V>, f: (K, V) -> int): int
    decreases m.Keys
  {
    if m == map[] then 0 else
    var k :| k in m;
    f(k, m[k]) + Sum(m - {k}, f)
  }

  lemma {:induction false} SumRemove<K, V>(m: map<K, V>, k: K, f: (K, V) -> int)
    requires k in m
    ensures Sum(m, f) == f(k, m[k]) + Sum(m - {k}, f)
    decreases m.Keys
  {
    var c :| c in m && Sum(m, f) == f(c, m[c]) + Sum(m - {c}, f);
    if c != k {
      SumRemove(m - {c}, k, f);
      SumRemove(m - {k}, c, f);
      assert m - {c} - {k} == m - {k} - {c};
    }
  }

  /** Writing one row moves the total by that row's change. */
  lemma SumPut<K, V>(m: map<K, V>, k: K, v: V, f: (K, V) -> int)
    ensures Sum(m[k := v], f) == Sum(m, f) + f(k, v) - (if k in m then f(k, m[k]) else 0)
  {
    SumRemove(m[k := v], k, f);
    assert m[k := v] - {k} == m - {k};
    if k in m {
      SumRemove(m, k, f);
    } else {
      assert m - {k} == m;
    }
  }

  lemma {:induction false} SumNonNegative<K, V>(m: map<K, V>, f: (K, V) -> int)
    requires forall k | k in m :: 0 <= f(k, m[k])
    ensures 0 <= Sum(m, f)
    decreases m.Keys
  {
    if m != map[] {
      var k :| k in m && Sum(m, f) == f(k, m[k]) + Sum(m - {k}, f);
      SumNonNegative(m - {k}, f);
    }
  }

  /** With no negative row, each row is at most the total. */
  lemma SumAtLeast<K, V>(m: map<K, V>, k: K, f: (K, V) -> int)
    requires forall j | j in m :: 0 <= f(j, m[j])
    requires k in m
    ensures f(k, m[k]) <= Sum(m, f)
  {
    SumRemove(m, k, f);
    SumNonNegative(m - {k}, f);
  }

  /** Two readings that agree on every row have the same total. */
  lemma {:induction false} SumSame<K, V>(m: map<K, V>, f: (K, V) -> int, g: (K, V) -> int)
    requires forall k | k in m :: f(k, m[k]) == g(k, m[k])
    ensures Sum(m, f) == Sum(m, g)
    decreases m.Keys
  {
    if m != map[] {
      var k :| k in m && Sum(m, f) == f(k, m[k]) + Sum(m - {k}, f);
      SumSame(m - {k}, f, g);
      SumRemove(m, k, g);
    }
  }

  /** The total of a linear combination of two readings. */
  lemma {:induction false} SumLinear<K, V>(m: map<K, V>, f: (K, V) -> int, g: (K, V) -> int, h: (K, V) -> int, c: int)
    requires forall k | k in m :: h(k, m[k]) == f(k, m[k]) - c * g(k, m[k])
    ensures Sum(m, h) == Sum(m, f) - c * Sum(m, g)
    decreases m.Keys
  {
    if m != map[] {
      var k :| k in m && Sum(m, h) == h(k, m[k]) + Sum(m - {k}, h);
      SumLinear(m - {k}, f, g, h, c);
      SumRemove(m, k, f);
      SumRemove(m, k, g);
      Distribute(c, Sum(m - {k}, g), g(k, m[k]));
    }
  }

  lemma Distribute(c: int, a: int, b: int)
    ensures c * (a + b) == c * a + c * b
  {
  }

  /** A total splits into the rows that are kept and the rows that are dropped. */
  lemma {:induction false} SumSplit<K, V>(m: map<K, V>, kept: map<K, V>, dropped: map<K, V>, f: (K, V) -> int)
    requires kept.Keys !! dropped.Keys && m == kept + dropped
    ensures Sum(m, f) == Sum(kept, f) + Sum(dropped, f)
    decreases dropped.Keys
  {
    if dropped == map[] {
      assert m == kept;
    } else {
      var k :| k in dropped;
      SumRemove(m, k, f);
      SumRemove(dropped, k, f);
      SumSplit(m - {k}, kept, dropped - {k}, f);
    }
  }

  // ----- first row of an index -----

  predicate Below(k: int, s: set<int>) {
    forall x | x in s :: k <= x
  }

  lemma SomeMember<T>(s: set<T>) returns (x: T)
    requires s != {}
    ensures x in s
  {
    x :| x in s;
  }

  lemma {:induction false} LeastExists(s: set<int>) returns (k: int)
    requires s != {}
    ensures k in s && Below(k, s)
    decreases |s|
  {
    var a := SomeMember(s);
    var smaller := set x | x in s && x < a;
    k := a;
    if smaller == {} {
      forall x | x in s ensures a <= x { assert x !in smaller; }
    } else {
      SmallerSet(smaller, s, a);
      k := LeastExists(smaller);
      forall x | x in s ensures k <= x { assert x < a ==> x in smaller; }
    }
  }

  lemma MinExists(s: set<int>)
    requires s != {}
    ensures exists k :: k in s && Below(k, s)
  {
    var k := LeastExists(s);
  }

  lemma {:induction false} SmallerSet<T>(small: set<T>, big: set<T>, x: T)
    requires small <= big - {x} && x in big
    ensures |small| < |big|
    decreases small
  {
    if small != {} {
      var y :| y in small;
      SmallerSet(small - {y}, big - {y}, x);
    }
  }

  /** The least key of an index. */
  function Least(s: set<int>): (k: int)
    requires s != {}
    ensures k in s && forall x | x in s :: k <= x
  {
    MinExists(s);
    var k :| k in s && Below(k, s);
    k
  }

  /** The first primary key of an index that maps primary keys to index keys; ties go to the least
      primary key. */
  function First(index: map<int, int>): (n: int)
    requires index != map[]
    ensures n in index && forall m | m in index :: index[n] <= index[m]
    ensures forall m | m in index && index[m] == index[n] :: n <= m
  {
    IndexNotEmpty(index);
    var key := Least(index.Values);
    var ties: set<int> := set m: int | m in index && index[m] == key;
    TiesNotEmpty(index, key);
    var n := Least(ties);
    assert forall m | m in index && index[m] == key :: m in ties;
    n
  }

  lemma IndexNotEmpty(index: map<int, int>)
    requires index != map[]
    ensures index.Values != {}
    ensures forall m | m in index :: index[m] in index.Values
  {
    var m := SomeKey(index);
    assert index[m] in index.Values;
  }

  lemma TiesNotEmpty(index: map<int, int>, key: int)
    requires key in index.Values
    ensures (set m: int | m in index && index[m] == key) != {}
  {
    var m := KeyOf(index, key);
    var ties := set m: int | m in index && index[m] == key;
    assert m in ties;
  }

  lemma SomeKey<K, V>(m: map<K, V>) returns (k: K)
    requires m != map[]
    ensures k in m
  {
    k :| k in m;
  }

  lemma KeyOf<K, V>(m: map<K, V>, v: V) returns (k: K)
    requires v in m.Values
    ensures k in m && m[k] == v
  {
    k :| k in m && m[k] == v;
  }
}
