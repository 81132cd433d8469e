/** The election of block producers from two tables: the pools' favourites first, then the highest-voted of the rest. */
module Election {
  import opened Tables
  import opened Resources

  const SCHEDULE := 21

  /** What the election reads of a row of producers or of totpoolvotes. */
  datatype Candidate = Candidate(active: bool, votes: real)

  type Rows = map<Name, Candidate>

  /** The key of the byvotes indices: active rows come first, by falling votes. */
  function Key(r: Candidate): real {
    if r.active then -r.votes else r.votes
  }

  predicate Precedes(rows: Rows, a: Name, b: Name)
    requires a in rows && b in rows
  {
    Key(rows[a]) < Key(rows[b]) || (Key(rows[a]) == Key(rows[b]) && a < b)
  }

  /** An index lists every row once, in the order of its key; ties go by name. */
  predicate IsIndex(idx: seq<Name>, rows: Rows) {
    && (forall i | 0 <= i < |idx| :: idx[i] in rows)
    && (forall i, j | 0 <= i < j < |idx| :: Precedes(rows, idx[i], idx[j]))
    && (forall a | a in rows :: a in idx)
  }

  // ----- what an election should yield -----

  predicate Eligible(rows: Rows, a: Name) {
    a in rows && rows[a].active && 0.0 < rows[a].votes
  }

  predicate Outranks(rows: Rows, a: Name, b: Name)
    requires a in rows && b in rows
  {
    rows[b].votes < rows[a].votes || (rows[a].votes == rows[b].votes && a < b)
  }

  /** `r` is the `n` highest-ranked eligible rows outside `skip`, or all of them if there are fewer. */
  ghost predicate IsTop(r: seq<Name>, rows: Rows, skip: set<Name>, n: int) {
    && |r| <= n
    && (forall i | 0 <= i < |r| :: Eligible(rows, r[i]) && r[i] !in skip)
    && (forall i, j | 0 <= i < j < |r| :: Outranks(rows, r[i], r[j]))
    && (forall a | Eligible(rows, a) && a !in skip && a !in r :: |r| == n && forall i | 0 <= i < |r| :: Outranks(rows, r[i], a))
  }

  /** No inactive row with negative votes stands before an eligible row in the index. */
  ghost predicate Clean(rows: Rows) {
    forall a, b | a in rows && !rows[a].active && rows[a].votes < 0.0 && Eligible(rows, b) :: Precedes(rows, b, a)
  }

  lemma NonNegativeIsClean(rows: Rows)
    requires forall a | a in rows && !rows[a].active :: 0.0 <= rows[a].votes
    ensures Clean(rows)
  {
  }

  lemma PrecedesOutranks(rows: Rows, a: Name, b: Name)
    requires Eligible(rows, a) && Eligible(rows, b)
    ensures Precedes(rows, a, b) <==> Outranks(rows, a, b)
  {
  }

  // ----- the scan -----

  /** The scan stops at the first row that does not qualify, or once `n` rows are found; rows in `skip` are passed over. */
  function Scan(idx: seq<Name>, rows: Rows, skip: set<Name>, n: int): seq<Name> {
    if idx == [] || n <= 0 || !Eligible(rows, idx[0]) then []
    else if idx[0] in skip then Scan(idx[1..], rows, skip, n)
    else [idx[0]] + Scan(idx[1..], rows, skip, n - 1)
  }

  /** A part of an index: ordered, with clean order. */
  ghost predicate IsPart(idx: seq<Name>, rows: Rows) {
    && (forall i | 0 <= i < |idx| :: idx[i] in rows)
    && (forall i, j | 0 <= i < j < |idx| :: Precedes(rows, idx[i], idx[j]))
  }

  /** The part's top, with respect to the names it lists. */
  ghost predicate IsTopOf(r: seq<Name>, idx: seq<Name>, rows: Rows, skip: set<Name>, n: int) {
    && |r| <= Max(n, 0)
    && (forall i | 0 <= i < |r| :: r[i] in idx && Eligible(rows, r[i]) && r[i] !in skip)
    && (forall i, j | 0 <= i < j < |r| :: Outranks(rows, r[i], r[j]))
    && (forall a | a in idx && Eligible(rows, a) && a !in skip && a !in r ::
          n <= |r| && forall i | 0 <= i < |r| :: Outranks(rows, r[i], a))
  }

  lemma IneligibleBefore(rows: Rows, a: Name, b: Name)
    requires Clean(rows) && a in rows && b in rows && a != b
    ensures !Eligible(rows, a) && Precedes(rows, a, b) ==> !Eligible(rows, b)
  {
  }

  lemma NoneEligible(idx: seq<Name>, rows: Rows)
    requires IsPart(idx, rows) && Clean(rows) && idx != [] && !Eligible(rows, idx[0])
    ensures forall a | a in idx :: !Eligible(rows, a)
  {
    forall j | 0 <= j < |idx| ensures !Eligible(rows, idx[j]) {
      if j != 0 {
        IneligibleBefore(rows, idx[0], idx[j]);
      }
    }
  }

  ghost predicate Heads(rows: Rows, head: Name, rest: seq<Name>) {
    head in rows && head !in rest && forall a | a in rest && Eligible(rows, a) :: Outranks(rows, head, a)
  }

  lemma HeadFirst(idx: seq<Name>, rows: Rows)
    requires IsPart(idx, rows) && idx != [] && Eligible(rows, idx[0])
    ensures Heads(rows, idx[0], idx[1..])
  {
    var rest := idx[1..];
    forall j | 0 <= j < |rest| ensures rest[j] != idx[0] && (Eligible(rows, rest[j]) ==> Outranks(rows, idx[0], rest[j])) {
      assert Precedes(rows, idx[0], idx[j + 1]);
      if Eligible(rows, rest[j]) {
        PrecedesOutranks(rows, idx[0], rest[j]);
      }
    }
  }

  lemma TakeHead(head: Name, rest: seq<Name>, r: seq<Name>, rows: Rows, skip: set<Name>, n: int)
    requires Heads(rows, head, rest) && Eligible(rows, head) && head !in skip && 0 < n
    requires IsTopOf(r, rest, rows, skip, n - 1)
    ensures IsTopOf([head] + r, [head] + rest, rows, skip, n)
  {
    hide Eligible;
  }

  lemma SkipHead(head: Name, rest: seq<Name>, r: seq<Name>, rows: Rows, skip: set<Name>, n: int)
    requires head in skip && IsTopOf(r, rest, rows, skip, n)
    ensures IsTopOf(r, [head] + rest, rows, skip, n)
  {
    hide Eligible;
  }

  lemma {:induction false} ScanIsTopOf(idx: seq<Name>, rows: Rows, skip: set<Name>, n: int)
    requires IsPart(idx, rows) && Clean(rows)
    ensures IsTopOf(Scan(idx, rows, skip, n), idx, rows, skip, n)
    decreases |idx|
  {
    if idx == [] || n <= 0 {
    } else if !Eligible(rows, idx[0]) {
      NoneEligible(idx, rows);
    } else {
      var head, rest := idx[0], idx[1..];
      HeadFirst(idx, rows);
      assert idx == [head] + rest;
      hide Eligible, IsTopOf, Heads, Clean;
      if head in skip {
        ScanIsTopOf(rest, rows, skip, n);
        SkipHead(head, rest, Scan(rest, rows, skip, n), rows, skip, n);
      } else {
        ScanIsTopOf(rest, rows, skip, n - 1);
        TakeHead(head, rest, Scan(rest, rows, skip, n - 1), rows, skip, n);
      }
    }
  }

  /** The early-exit scan of the index yields the top rows. */
  lemma ScanIsTop(idx: seq<Name>, rows: Rows, skip: set<Name>, n: nat)
    requires IsIndex(idx, rows) && Clean(rows)
    ensures IsTop(Scan(idx, rows, skip, n), rows, skip, n)
  {
    ScanIsTopOf(idx, rows, skip, n);
  }

  /** It does so for every `n` exactly if the index is clean. */
  lemma ScanNeedsClean(idx: seq<Name>, rows: Rows)
    requires IsIndex(idx, rows)
    ensures (forall n: nat :: IsTop(Scan(idx, rows, {}, n), rows, {}, n)) <==> Clean(rows)
  {
    if Clean(rows) {
      forall n: nat ensures IsTop(Scan(idx, rows, {}, n), rows, {}, n) {
        ScanIsTop(idx, rows, {}, n);
      }
    } else {
      var a, b :| a in rows && !rows[a].active && rows[a].votes < 0.0 && Eligible(rows, b) && !Precedes(rows, b, a);
      var n := |idx| + 1;
      var i :| 0 <= i < |idx| && idx[i] == a;
      var j :| 0 <= j < |idx| && idx[j] == b;
      assert i != j && !(j < i);
      ScanStopsBefore(idx, rows, {}, n, i);
      var r := Scan(idx, rows, {}, n);
      assert b !in r;
      ScanShort(idx, rows, {}, n);
      assert !IsTop(r, rows, {}, n);
    }
  }

  /** Nothing at or behind an ineligible row is found. */
  lemma {:induction false} ScanStopsBefore(idx: seq<Name>, rows: Rows, skip: set<Name>, n: int, i: nat)
    requires IsPart(idx, rows) && i < |idx| && !Eligible(rows, idx[i])
    ensures forall j | i <= j < |idx| :: idx[j] !in Scan(idx, rows, skip, n)
    decreases |idx|
  {
    if i != 0 && 0 < n && Eligible(rows, idx[0]) {
      var rest := idx[1..];
      ScanStopsBefore(rest, rows, skip, if idx[0] in skip then n else n - 1, i - 1);
      forall j | i <= j < |idx| ensures idx[j] !in Scan(idx, rows, skip, n) {
        assert idx[j] == rest[j - 1];
        assert Precedes(rows, idx[0], idx[j]);
      }
    }
  }

  lemma {:induction false} ScanShort(idx: seq<Name>, rows: Rows, skip: set<Name>, n: int)
    ensures |Scan(idx, rows, skip, n)| <= |idx|
    decreases |idx|
  {
    if idx != [] && 0 < n && Eligible(rows, idx[0]) {
      ScanShort(idx[1..], rows, skip, if idx[0] in skip then n else n - 1);
    }
  }

  /** An inactive producer with negative votes ends the scan before anyone is found. With exact arithmetic recorded pool
      votes are never negative (VoteRecords.RecordsAreClean); it takes floating-point rounding to get there. */
  lemma InactiveCanBlock(a: Name, b: Name)
    requires a != b
    ensures var rows := map[a := Candidate(false, -2.0), b := Candidate(true, 1.0)];
            IsIndex([a, b], rows) && Scan([a, b], rows, {}, 1) == [] && IsTop([b], rows, {}, 1)
  {
    var rows := map[a := Candidate(false, -2.0), b := Candidate(true, 1.0)];
    assert !Eligible(rows, a) && Eligible(rows, b);
    assert forall x | Eligible(rows, x) :: x == b;
  }

  // ----- the election -----

  function Names(list: seq<Name>): set<Name> {
    set a | a in list
  }

  /** `pooled` is the part chosen by pool votes and `others` the rest, before the sort by location. */
  ghost predicate IsElected(elected: seq<Name>, rows: Rows, poolRows: Rows, seats: int) {
    exists pooled: seq<Name>, others: seq<Name> ::
      && elected == pooled + others
      && IsTop(pooled, poolRows, {}, Max(seats, 0))
      && IsTop(others, rows, Names(pooled), 21 - |pooled|)
  }

  predicate Distinct(names: seq<Name>) {
    forall i, j | 0 <= i < j < |names| :: names[i] != names[j]
  }

  /** What the two scans and the merge yield. */
  function Elected(idx: seq<Name>, rows: Rows, poolIdx: seq<Name>, poolRows: Rows, seats: int): seq<Name> {
    var pooled := Scan(poolIdx, poolRows, {}, seats);
    pooled + Scan(idx, rows, Names(pooled), SCHEDULE - |pooled|)
  }

  lemma {:induction false} ScanIsDistinct(idx: seq<Name>, rows: Rows, skip: set<Name>, n: int)
    requires IsPart(idx, rows)
    ensures var r := Scan(idx, rows, skip, n);
            && Distinct(r) && |r| <= Max(n, 0)
            && forall i | 0 <= i < |r| :: r[i] in idx && r[i] !in skip && Eligible(rows, r[i])
    decreases |idx|
  {
    if idx != [] && 0 < n && Eligible(rows, idx[0]) {
      var rest := idx[1..];
      forall j | 0 <= j < |rest| ensures rest[j] != idx[0] {
        assert Precedes(rows, idx[0], idx[j + 1]);
      }
      ScanIsDistinct(rest, rows, skip, if idx[0] in skip then n else n - 1);
    }
  }

  /** At most 21 producers, each active with votes and no one twice, whatever the votes are. */
  lemma ElectedAreDistinct(idx: seq<Name>, rows: Rows, poolIdx: seq<Name>, poolRows: Rows, seats: int)
    requires IsIndex(idx, rows) && IsIndex(poolIdx, poolRows) && seats <= SCHEDULE
    ensures var e := Elected(idx, rows, poolIdx, poolRows, seats);
            && Distinct(e) && |e| <= 21
            && forall i | 0 <= i < |e| :: Eligible(rows, e[i]) || Eligible(poolRows, e[i])
  {
    ScanIsDistinct(poolIdx, poolRows, {}, seats);
    var pooled := Scan(poolIdx, poolRows, {}, seats);
    ScanIsDistinct(idx, rows, Names(pooled), SCHEDULE - |pooled|);
    assert forall i | 0 <= i < |pooled| :: pooled[i] in Names(pooled);
  }

  /** With clean indices the elected producers are the pools' top choices followed by the top of the rest. */
  lemma CleanElection(idx: seq<Name>, rows: Rows, poolIdx: seq<Name>, poolRows: Rows, seats: nat)
    requires IsIndex(idx, rows) && IsIndex(poolIdx, poolRows) && seats <= SCHEDULE
    requires Clean(rows) && Clean(poolRows)
    ensures IsElected(Elected(idx, rows, poolIdx, poolRows, seats), rows, poolRows, seats)
  {
    var pooled := Scan(poolIdx, poolRows, {}, seats);
    ScanIsTop(poolIdx, poolRows, {}, seats);
    ScanIsTop(idx, rows, Names(pooled), SCHEDULE - |pooled|);
  }

  lemma TopIsUniqueAt(r: seq<Name>, q: seq<Name>, rows: Rows, skip: set<Name>, n: int, i: nat)
    requires IsTop(r, rows, skip, n) && IsTop(q, rows, skip, n) && i < |r| && i < |q|
    requires r[..i] == q[..i]
    ensures r[i] == q[i]
  {
    NotLater(r, q, rows, skip, n, i);
    NotLater(q, r, rows, skip, n, i);
  }

  /** The top row that one list puts next is not outranked by the next of the other. */
  lemma NotLater(r: seq<Name>, q: seq<Name>, rows: Rows, skip: set<Name>, n: int, i: nat)
    requires IsTop(r, rows, skip, n) && IsTop(q, rows, skip, n) && i < |r| && i < |q| && r[..i] == q[..i]
    ensures Eligible(rows, r[i]) && Eligible(rows, q[i]) && (r[i] == q[i] || Outranks(rows, r[i], q[i]))
  {
    NextIsNew(q, i, rows, skip, n);
    forall j | 0 <= j < i ensures r[j] != q[i] {
      assert r[j] in r[..i];
    }
    if q[i] in r {
      var k :| 0 <= k < |r| && r[k] == q[i];
      assert i <= k;
    }
  }

  lemma {:induction false} SamePrefix(r: seq<Name>, q: seq<Name>, rows: Rows, skip: set<Name>, n: int, i: nat)
    requires IsTop(r, rows, skip, n) && IsTop(q, rows, skip, n) && i <= |r| && i <= |q|
    ensures r[..i] == q[..i]
  {
    if i != 0 {
      SamePrefix(r, q, rows, skip, n, i - 1);
      TopIsUniqueAt(r, q, rows, skip, n, i - 1);
      assert r[..i] == r[..i - 1] + [r[i - 1]] && q[..i] == q[..i - 1] + [q[i - 1]];
    }
  }

  lemma NextIsNew(q: seq<Name>, k: nat, rows: Rows, skip: set<Name>, n: int)
    requires IsTop(q, rows, skip, n) && k < |q|
    ensures Eligible(rows, q[k]) && q[k] !in skip && q[k] !in q[..k] && k < n
  {
    forall i | 0 <= i < k ensures q[i] != q[k] {
      assert Outranks(rows, q[i], q[k]);
    }
  }

  lemma NotLonger(r: seq<Name>, q: seq<Name>, rows: Rows, skip: set<Name>, n: int)
    requires IsTop(r, rows, skip, n) && IsTop(q, rows, skip, n)
    ensures |q| <= |r|
  {
    if |r| < |q| {
      SamePrefix(r, q, rows, skip, n, |r|);
      NextIsNew(q, |r|, rows, skip, n);
      assert false;
    }
  }

  /** The top of a table is one list only. */
  lemma TopIsUnique(r: seq<Name>, q: seq<Name>, rows: Rows, skip: set<Name>, n: int)
    requires IsTop(r, rows, skip, n) && IsTop(q, rows, skip, n)
    ensures r == q
  {
    NotLonger(r, q, rows, skip, n);
    NotLonger(q, r, rows, skip, n);
    SamePrefix(r, q, rows, skip, n, |r|);
    assert r == r[..|r|] && q == q[..|r|];
  }
}
