/** The election as the contract runs it: two early-exit scans, a merge, and a sort by location. Proved against
    module Election. */
module ElectionContract {
  import opened Tables
  import opened Resources
  import opened Election
  import Transitions

  /** What staking pools add to an election. */
  datatype PoolTable = PoolTable(begin: int, end: int, rows: Rows, idx: seq<Name>)

  /** The scan at the i-th row. */
  lemma ScanAt(idx: seq<Name>, i: nat, rows: Rows, skip: set<Name>, n: int)
    requires i <= |idx|
    ensures Scan(idx[i..], rows, skip, n) ==
            if i == |idx| || n <= 0 || !Eligible(rows, idx[i]) then []
            else if idx[i] in skip then Scan(idx[i + 1..], rows, skip, n)
            else [idx[i]] + Scan(idx[i + 1..], rows, skip, n - 1)
  {
    if i < |idx| {
      assert idx[i..][0] == idx[i] && idx[i..][1..] == idx[i + 1..];
    }
  }

  lemma IndexRows(idx: seq<Name>, rows: Rows)
    requires IsIndex(idx, rows)
    ensures forall i | 0 <= i < |idx| :: idx[i] in rows
  {
  }

  lemma InNames(list: seq<Name>)
    ensures forall a: Name :: a in Names(list) <==> a in list
  {
  }

  lemma Append(r: seq<Name>, a: Name, rest: seq<Name>)
    ensures r + ([a] + rest) == (r + [a]) + rest
  {
  }

  /** top_active_producers. */
  method TopActiveProducers(idx: seq<Name>, rows: Rows, n: int) returns (prods: seq<Name>)
    requires IsIndex(idx, rows)
    ensures prods == Scan(idx, rows, {}, n)
  {
    hide Scan, IsIndex;
    IndexRows(idx, rows);
    prods := [];
    var i := 0;
    assert idx[0..] == idx;
    while i < |idx| && |prods| < n && 0.0 < rows[idx[i]].votes && rows[idx[i]].active
      invariant 0 <= i <= |idx|
      invariant prods + Scan(idx[i..], rows, {}, n - |prods|) == Scan(idx, rows, {}, n)
    {
      ScanAt(idx, i, rows, {}, n - |prods|);
      Append(prods, idx[i], Scan(idx[i + 1..], rows, {}, n - |prods| - 1));
      prods := prods + [idx[i]];
      i := i + 1;
    }
    ScanAt(idx, i, rows, {}, n - |prods|);
    assert prods + [] == prods;
  }

  ghost predicate ByLocation(names: seq<Name>, location: map<Name, int>) {
    && (forall i | 0 <= i < |names| :: names[i] in location)
    && forall i, j | 0 <= i < j < |names| :: location[names[i]] <= location[names[j]]
  }

  /** Sorting by location only reorders. */
  method SortByLocation(names: seq<Name>, location: map<Name, int>) returns (r: seq<Name>)
    requires forall a | a in names :: a in location
    ensures multiset(r) == multiset(names) && ByLocation(r, location)
  {
    r := [];
    var i := 0;
    while i < |names|
      invariant 0 <= i <= |names| && multiset(r) == multiset(names[..i]) && ByLocation(r, location)
    {
      assert names[..i + 1] == names[..i] + [names[i]];
      r := Insert(r, names[i], location);
      i := i + 1;
    }
    assert names[..|names|] == names;
  }

  method Insert(sorted: seq<Name>, a: Name, location: map<Name, int>) returns (r: seq<Name>)
    requires ByLocation(sorted, location) && a in location
    ensures multiset(r) == multiset(sorted) + multiset{a} && ByLocation(r, location)
  {
    var k := 0;
    while k < |sorted| && location[sorted[k]] <= location[a]
      invariant 0 <= k <= |sorted| && forall j | 0 <= j < k :: location[sorted[j]] <= location[a]
    {
      k := k + 1;
    }
    r := sorted[..k] + [a] + sorted[k..];
    InsertedAt(sorted, k, a, location);
    hide ByLocation;
    assert sorted == sorted[..k] + sorted[k..];
  }

  lemma InsertedAt(sorted: seq<Name>, k: nat, a: Name, location: map<Name, int>)
    requires ByLocation(sorted, location) && a in location && k <= |sorted|
    requires forall j | 0 <= j < k :: location[sorted[j]] <= location[a]
    requires k < |sorted| ==> location[a] <= location[sorted[k]]
    ensures ByLocation(sorted[..k] + [a] + sorted[k..], location)
  {
    var r := sorted[..k] + [a] + sorted[k..];
    forall i | 0 <= i < |r| ensures r[i] == if i < k then sorted[i] else if i == k then a else sorted[i - 1] {
    }
  }

  class ElectionContract {
    /** last_producer_schedule_size. */
    var lastSize: int

    constructor ()
      ensures lastSize == 0
    {
      lastSize := 0;
    }

    /** The scan of the producers table behind the pools' choice. */
    method Merge(idx: seq<Name>, rows: Rows, pooled: seq<Name>) returns (top: seq<Name>)
      requires IsIndex(idx, rows)
      ensures top == pooled + Scan(idx, rows, Names(pooled), SCHEDULE - |pooled|)
    {
      hide Scan, IsIndex, Names;
      IndexRows(idx, rows);
      InNames(pooled);
      var others := [];
      var i := 0;
      assert idx[0..] == idx;
      while i < |idx| && |pooled| + |others| < SCHEDULE && 0.0 < rows[idx[i]].votes && rows[idx[i]].active
        invariant 0 <= i <= |idx|
        invariant others + Scan(idx[i..], rows, Names(pooled), SCHEDULE - |pooled| - |others|)
               == Scan(idx, rows, Names(pooled), SCHEDULE - |pooled|)
      {
        ScanAt(idx, i, rows, Names(pooled), SCHEDULE - |pooled| - |others|);
        if idx[i] !in pooled {
          Append(others, idx[i], Scan(idx[i + 1..], rows, Names(pooled), SCHEDULE - |pooled| - |others| - 1));
          others := others + [idx[i]];
        }
        i := i + 1;
      }
      ScanAt(idx, i, rows, Names(pooled), SCHEDULE - |pooled| - |others|);
      assert others + [] == others;
      top := pooled + others;
    }

    /** The pools' choice, then the scan behind it. */
    method Choose(idx: seq<Name>, rows: Rows, pools: Option<PoolTable>, slot: int) returns (top: seq<Name>)
      requires IsIndex(idx, rows) && IsIndex(PoolIndex(pools), PoolRows(pools))
      ensures top == Elected(idx, rows, PoolIndex(pools), PoolRows(pools), Seats(pools, slot))
    {
      hide IsIndex, Transitions.Part, Scan, Names;
      var pooled := [];
      if pools.Some? {
        var n := Transitions.Part(pools.value.begin, pools.value.end, slot, SCHEDULE);
        if n >= 1 {
          pooled := TopActiveProducers(pools.value.idx, pools.value.rows, n);
        }
      }
      NobodyFound(PoolIndex(pools), PoolRows(pools));
      top := Merge(idx, rows, pooled);
    }

    /** `accepted` is whether the chain takes the proposed schedule. */
    method UpdateElectedProducers(idx: seq<Name>, rows: Rows, location: map<Name, int>, pools: Option<PoolTable>, slot: int, accepted: bool)
      returns (proposed: Option<seq<Name>>)
      requires IsIndex(idx, rows) && IsIndex(PoolIndex(pools), PoolRows(pools))
      requires location.Keys == rows.Keys && PoolRows(pools).Keys <= rows.Keys
      modifies this
      ensures var elected := Elected(idx, rows, PoolIndex(pools), PoolRows(pools), Seats(pools, slot));
              && Distinct(elected) && |elected| <= SCHEDULE
              && (proposed.Some? <==> 0 < |elected| && old(lastSize) <= |elected|)
              && (proposed.Some? ==>
                    && multiset(proposed.value) == multiset(elected) && |proposed.value| == |elected|
                    && ByLocation(proposed.value, location))
      ensures lastSize == if proposed.Some? && accepted then |proposed.value| else old(lastSize)
      ensures old(lastSize) <= lastSize
    {
      hide IsIndex, Elected, Eligible, ByLocation, Distinct;
      ElectedAreDistinct(idx, rows, PoolIndex(pools), PoolRows(pools), Seats(pools, slot));
      var top := Choose(idx, rows, pools, slot);
      if |top| == 0 || |top| < lastSize {
        return None;
      }
      Located(top, rows, PoolRows(pools), location);
      var sorted := SortByLocation(top, location);
      assert |sorted| == |multiset(sorted)| == |multiset(top)| == |top|;
      if accepted {
        lastSize := |sorted|;
      }
      return Some(sorted);
    }
  }

  function PoolIndex(pools: Option<PoolTable>): seq<Name> {
    if pools.Some? then pools.value.idx else []
  }

  function PoolRows(pools: Option<PoolTable>): Rows {
    if pools.Some? then pools.value.rows else map[]
  }

  function Seats(pools: Option<PoolTable>, slot: int): (n: int)
    ensures 0 <= n <= SCHEDULE
  {
    if pools.None? then 0 else
    Transitions.PartGrows(pools.value.begin, pools.value.end, slot, slot, SCHEDULE);
    Transitions.Part(pools.value.begin, pools.value.end, slot, SCHEDULE)
  }

  lemma NobodyFound(idx: seq<Name>, rows: Rows)
    ensures Scan(idx, rows, {}, 0) == [] && Scan([], rows, {}, 0) == []
  {
  }

  lemma Located(top: seq<Name>, rows: Rows, poolRows: Rows, location: map<Name, int>)
    requires forall i | 0 <= i < |top| :: Eligible(rows, top[i]) || Eligible(poolRows, top[i])
    requires location.Keys == rows.Keys && poolRows.Keys <= rows.Keys
    ensures forall a | a in top :: a in location
  {
  }
}
