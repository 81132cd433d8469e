/** Every tally of pool votes is exact after every action, and the proxy graph never has a cycle. */
module PoolVotesInvariants {
  import opened Tables
  import opened Totals
  import opened Resources
  import opened PoolVotes
  import ProxyGraph

  // ----- one row at a time -----

  /** Two voter tables that differ only in proxied votes, and in one voter's row. */
  ghost predicate OneRow(m: map<Name, Voter>, m': map<Name, Voter>, n: Name) {
    && m'.Keys == m.Keys && n in m
    && forall k | k in m && k != n :: m'[k] == m[k].(proxied := m'[k].proxied)
  }

  lemma BehindMoves(m: map<Name, Voter>, m': map<Name, Voter>, n: Name, p: Name, i: nat)
    requires OneRow(m, m', n)
    ensures Total(m', Behind(p, i)) == Total(m, Behind(p, i)) - Behind(p, i)(n, m[n]) + Behind(p, i)(n, m'[n])
  {
    RowMoves<Name, Voter>(m, m', n, Behind(p, i));
  }

  lemma BackingMoves(m: map<Name, Voter>, m': map<Name, Voter>, n: Name, q: Name, i: nat)
    requires OneRow(m, m', n)
    ensures Total(m', Backing(q, i)) == Total(m, Backing(q, i)) - Backing(q, i)(n, m[n]) + Backing(q, i)(n, m'[n])
  {
    RowMoves<Name, Voter>(m, m', n, Backing(q, i));
  }

  // ----- refreshing -----

  /** One link of the chain: the voter's new vote and its effect on the next. */
  ghost function RefreshOne(s: State, n: Name): (r: State)
    requires WellFormed(s) && n in s.voters
    ensures WellFormed(r)
  {
    PassOn(SetLast(s, n, Value(s.voters[n])), s.voters[n], Value(s.voters[n]))
  }

  /** The voter's proxy, once the voter's old vote is replaced by the new one. */
  ghost function Credited(v: Voter, last: Votes, votes: Votes): Voter
    requires |v.proxied| == |last| == |votes|
  {
    v.(proxied := Add(Sub(v.proxied, last), votes))
  }

  /** Exactly what one link changes. */
  ghost predicate OneLink(s: State, n: Name, r: State)
    requires WellFormed(s) && n in s.voters
  {
    var v := s.voters[n];
    && r.pools == s.pools && OneRow(s.voters, r.voters, n) && r.voters[n] == v.(last := Value(v))
    && (forall k | k in s.voters && k != n && Some(k) != v.proxy :: r.voters[k] == s.voters[k])
    && (if v.proxy.Some?
        then v.proxy.value in s.voters && v.proxy.value != n
             && |s.voters[v.proxy.value].proxied| == |v.last| == |Value(v)|
             && r.producers == s.producers && r.totals == s.totals
             && r.voters[v.proxy.value] == Credited(s.voters[v.proxy.value], v.last, Value(v))
        else Revoted(s, r, v.producers, v.producers, v.last, Value(v)))
  }

  ghost predicate Revoted(s: State, r: State, before: seq<Name>, after: seq<Name>, last: Votes, votes: Votes) {
    && r.producers.Keys == s.producers.Keys
    && (forall q | q in s.producers ::
          && (s.producers[q].votes.Some? ==> |s.producers[q].votes.value| == |last| == |votes|)
          && r.producers[q] == Shift(s.producers[q], q in before, q in after, last, votes))
    && r.totals == Tally(s.pools, r.producers)
  }

  lemma OneLinkToProxy(s: State, n: Name)
    requires WellFormed(s) && n in s.voters && s.voters[n].proxy.Some?
    ensures OneLink(s, n, RefreshOne(s, n))
  {
    hide ValidVoter, Value, SameGraph, WellFormed, Tally;
    ProxyDiffers(s, n);
    RowSizes(s, n);
    RowSizes(s, s.voters[n].proxy.value);
  }

  lemma ProxyDiffers(s: State, n: Name)
    requires WellFormed(s) && n in s.voters && s.voters[n].proxy.Some?
    ensures s.voters[n].proxy.value in s.voters && s.voters[n].proxy.value != n
  {
    assert ValidVoter(s, n, s.voters[n]);
  }

  lemma OneLinkToProducers(s: State, n: Name)
    requires WellFormed(s) && n in s.voters && s.voters[n].proxy.None?
    ensures OneLink(s, n, RefreshOne(s, n))
  {
    RowSizes(s, n);
    hide ValidVoter, Value, SameGraph, Tally;
  }

  lemma OneLinkVoters(s: State, n: Name)
    requires WellFormed(s) && n in s.voters
    ensures OneLink(s, n, RefreshOne(s, n)) && SameGraph(s, RefreshOne(s, n))
  {
    if s.voters[n].proxy.Some? { OneLinkToProxy(s, n); } else { OneLinkToProducers(s, n); }
    LinkSameGraph(s, n);
  }

  lemma LinkSameGraph(s: State, n: Name)
    requires WellFormed(s) && n in s.voters
    ensures SameGraph(s, RefreshOne(s, n))
  {
    hide SameGraph;
    var v := s.voters[n];
    RowSizes(s, n);
    var s1 := SetLast(s, n, Value(v));
    SameVoters(s, s1);
    SameGraphTransitive(s, s1, PassOn(s1, v, Value(v)));
  }

  lemma OneLinkProxies(s: State, n: Name)
    requires WellFormed(s) && n in s.voters && ProxiesLinked(s)
    ensures ProxiesLinked(RefreshOne(s, n))
  {
    OneLinkVoters(s, n);
    var r, v := RefreshOne(s, n), s.voters[n];
    RowSizes(s, n);
    hide RefreshOne, Value, WellFormed;
    forall p, i: nat | p in r.voters && i < r.pools ensures r.voters[p].proxied[i] == Total(r.voters, Behind(p, i)) {
      RowSizes(s, p);
      assert s.voters[p].proxied[i] == Total(s.voters, Behind(p, i));
      OneLinkProxy(s, n, r, p, i);
    }
  }

  lemma OneLinkProxy(s: State, n: Name, r: State, p: Name, i: nat)
    requires WellFormed(s) && n in s.voters && OneLink(s, n, r) && p in s.voters && i < s.pools
    requires |s.voters[n].last| == s.pools && |Value(s.voters[n])| == s.pools && |s.voters[p].proxied| == s.pools
    requires s.voters[p].proxied[i] == Total(s.voters, Behind(p, i))
    ensures |r.voters[p].proxied| == s.pools && r.voters[p].proxied[i] == Total(r.voters, Behind(p, i))
  {
    hide Value, WellFormed, Revoted;
    BehindMoves(s.voters, r.voters, n, p, i);
  }

  lemma RowSizes(s: State, n: Name)
    requires WellFormed(s) && n in s.voters
    ensures var v := s.voters[n];
            |v.owned| == s.pools && |v.proxied| == s.pools && |v.last| == s.pools && |Value(v)| == s.pools
  {
    assert ValidVoter(s, n, s.voters[n]);
  }

  lemma OneLinkBacking(s: State, n: Name, q: Name, i: nat)
    requires WellFormed(s) && n in s.voters && ProducersLinked(s)
    requires var r := RefreshOne(s, n); q in r.producers && r.producers[q].votes.Some? && i < r.pools
    ensures var r := RefreshOne(s, n);
            |r.producers[q].votes.value| == s.pools && r.producers[q].votes.value[i] == Total(r.voters, Backing(q, i))
  {
    OneLinkVoters(s, n);
    var r := RefreshOne(s, n);
    hide RefreshOne, Value, WellFormed, Tally;
    RowSizes(s, n);
    BackingMoves(s.voters, r.voters, n, q, i);
    ProducerSizes(s, q);
    assert s.producers[q].votes.value[i] == Total(s.voters, Backing(q, i));
  }

  lemma OneLinkProducers(s: State, n: Name)
    requires WellFormed(s) && n in s.voters && ProducersLinked(s) && s.totals == Tally(s.pools, s.producers)
    ensures ProducersLinked(RefreshOne(s, n)) && RefreshOne(s, n).totals == Tally(s.pools, RefreshOne(s, n).producers)
  {
    OneLinkVoters(s, n);
    var r := RefreshOne(s, n);
    hide RefreshOne, Value, WellFormed;
    forall q, i: nat | q in r.producers && r.producers[q].votes.Some? && i < r.pools
      ensures r.producers[q].votes.value[i] == Total(r.voters, Backing(q, i))
    {
      OneLinkBacking(s, n, q, i);
    }
  }

  lemma ProducerSizes(s: State, q: Name)
    requires WellFormed(s) && q in s.producers && s.producers[q].votes.Some?
    ensures |s.producers[q].votes.value| == s.pools
  {
  }

  ghost function NextDirty(v: Voter): set<Name> {
    if v.proxy.Some? then {v.proxy.value} else {}
  }

  /** The voter is up to date; only the voter's proxy may now be out of step. */
  lemma OneLinkFresh(s: State, n: Name, dirty: set<Name>)
    requires WellFormed(s) && n in s.voters && FreshExcept(s, dirty + {n})
    ensures FreshExcept(RefreshOne(s, n), dirty + NextDirty(s.voters[n]))
  {
    OneLinkVoters(s, n);
    var r, v := RefreshOne(s, n), s.voters[n];
    RowSizes(s, n);
    hide RefreshOne, WellFormed;
    forall k | k in r.voters && k !in dirty + NextDirty(v) ensures r.voters[k].last == Value(r.voters[k]) {
      if k != n {
        assert k !in dirty + {n};
        RowSizes(s, k);
      }
    }
  }

  /** Refreshing a voter refreshes the whole chain and leaves no one else behind. */
  lemma {:induction false} RefreshKeeps(s: State, n: Name, dirty: set<Name>)
    requires Linked(s) && n in s.voters && FreshExcept(s, dirty + {n})
    ensures Linked(Refresh(s, n)) && FreshExcept(Refresh(s, n), dirty)
    decreases s.rank(n)
  {
    hide ProxiesLinked, ProducersLinked, FreshExcept, SameGraph, SetLast, PassOn;
    OneLinkProxies(s, n);
    OneLinkProducers(s, n);
    OneLinkFresh(s, n, dirty);
    OneLinkVoters(s, n);
    var v := s.voters[n];
    SameVoters(s, RefreshOne(s, n));
    if v.proxy.Some? {
      RefreshKeeps(RefreshOne(s, n), v.proxy.value, dirty);
    } else {
      assert dirty + {} == dirty;
    }
  }

  // ----- leaving and joining -----

  lemma LeaveIs(s: State, n: Name)
    requires WellFormed(s) && n in s.voters && s.voters[n].proxy.Some?
    ensures var r, p := Leave(s, n), s.voters[n].proxy.value;
            && OneRow(s.voters, r.voters, n) && r.pools == s.pools && r.producers == s.producers && r.totals == s.totals
            && r.voters[n] == s.voters[n].(proxy := None)
            && p in s.voters && p != n && |s.voters[p].proxied| == |s.voters[n].last| == s.pools
            && r.voters[p] == s.voters[p].(proxied := Sub(s.voters[p].proxied, s.voters[n].last))
            && (forall k | k in s.voters && k != n && k != p :: r.voters[k] == s.voters[k])
            && s.voters[n].producers == []
  {
    assert ValidVoter(s, n, s.voters[n]);
    RowSizes(s, s.voters[n].proxy.value);
  }

  lemma BehindNoMore(m: map<Name, Voter>, m': map<Name, Voter>, n: Name, p: Name, i: nat)
    requires OneRow(m, m', n) && m'[n].proxy.None? && i < |m[n].last|
    ensures Total(m', Behind(p, i)) == Total(m, Behind(p, i)) - (if m[n].proxy == Some(p) then m[n].last[i] else 0.0)
  {
    BehindMoves(m, m', n, p, i);
  }

  lemma LeaveBehind(s: State, n: Name, p: Name, i: nat)
    requires Linked(s) && n in s.voters && s.voters[n].proxy.Some? && p in s.voters && i < s.pools
    ensures var r := Leave(s, n);
            p in r.voters && |r.voters[p].proxied| == s.pools && r.voters[p].proxied[i] == Total(r.voters, Behind(p, i))
  {
    LeaveIs(s, n);
    BehindNow(s, p, i);
    BehindNoMore(s.voters, Leave(s, n).voters, n, p, i);
    hide Linked, WellFormed, Leave, OneRow, Behind;
  }

  lemma LeaveProxies(s: State, n: Name)
    requires Linked(s) && n in s.voters && s.voters[n].proxy.Some?
    ensures ProxiesLinked(Leave(s, n))
  {
    LeaveIs(s, n);
    var r := Leave(s, n);
    hide Linked, Leave;
    forall p, i: nat | p in r.voters && i < r.pools ensures r.voters[p].proxied[i] == Total(r.voters, Behind(p, i)) {
      LeaveBehind(s, n, p, i);
    }
  }

  lemma LeaveProducers(s: State, n: Name)
    requires Linked(s) && n in s.voters && s.voters[n].proxy.Some?
    ensures ProducersLinked(Leave(s, n))
  {
    LeaveIs(s, n);
    var r := Leave(s, n);
    hide WellFormed, ProxiesLinked, Leave;
    forall q, i: nat | q in r.producers && r.producers[q].votes.Some? && i < r.pools
      ensures r.producers[q].votes.value[i] == Total(r.voters, Backing(q, i))
    {
      BackingMoves(s.voters, r.voters, n, q, i);
      ProducerSizes(s, q);
      assert s.producers[q].votes.value[i] == Total(s.voters, Backing(q, i));
    }
  }

  lemma LeaveFresh(s: State, n: Name, dirty: set<Name>)
    requires Linked(s) && n in s.voters && s.voters[n].proxy.Some? && FreshExcept(s, dirty + {n})
    ensures FreshExcept(Leave(s, n), dirty + {n} + {s.voters[n].proxy.value})
  {
    LeaveIs(s, n);
    var r := Leave(s, n);
    hide ProducersLinked, ProxiesLinked, Leave, WellFormed;
    forall k | k in r.voters && k !in dirty + {n} + {s.voters[n].proxy.value} ensures r.voters[k].last == Value(r.voters[k]) {
      RowSizes(s, k);
      assert k !in dirty + {n};
    }
  }

  /** A chain never comes back to a voter that ranks above its start. */
  lemma {:induction false} RefreshUntouched(s: State, n: Name, m: Name)
    requires WellFormed(s) && n in s.voters && m in s.voters && s.rank(n) < s.rank(m)
    ensures Refresh(s, n).voters[m] == s.voters[m]
    decreases s.rank(n)
  {
    OneLinkVoters(s, n);
    var v := s.voters[n];
    hide SetLast, PassOn, SameGraph;
    SameVoters(s, RefreshOne(s, n));
    if v.proxy.Some? {
      assert ValidVoter(s, n, v);
      RefreshUntouched(RefreshOne(s, n), v.proxy.value, m);
    }
  }

  lemma LeftKeeps(s: State, n: Name, dirty: set<Name>)
    requires Linked(s) && n in s.voters && FreshExcept(s, dirty + {n})
    ensures Linked(Left(s, n)) && FreshExcept(Left(s, n), dirty + {n})
    ensures Left(s, n).voters[n] == s.voters[n].(proxy := None)
  {
    if s.voters[n].proxy.Some? {
      LeaveIs(s, n);
      LeaveProxies(s, n);
      LeaveProducers(s, n);
      LeaveFresh(s, n, dirty);
      assert ValidVoter(s, n, s.voters[n]);
      hide ProxiesLinked, ProducersLinked, FreshExcept, Refresh, Leave;
      RefreshKeeps(Leave(s, n), s.voters[n].proxy.value, dirty + {n});
      RefreshUntouched(Leave(s, n), s.voters[n].proxy.value, n);
    }
  }

  lemma JoinRows(s: State, n: Name, proxy: Option<Name>, producers: seq<Name>, votes: Votes)
    requires WellFormed(s) && ValidTarget(s, n, proxy, producers) && s.voters[n].proxy.None? && |votes| == s.pools
    ensures var r, v := Join(s, n, proxy, producers, votes), s.voters[n];
            && OneRow(s.voters, r.voters, n) && r.pools == s.pools
            && r.voters[n] == v.(proxy := proxy, producers := producers, last := votes)
            && |v.last| == s.pools
            && (proxy.Some? ==>
                  && proxy.value in s.voters && |s.voters[proxy.value].proxied| == s.pools && producers == []
                  && r.voters[proxy.value] == s.voters[proxy.value].(proxied := Add(s.voters[proxy.value].proxied, votes)))
            && (forall k | k in s.voters && k != n && Some(k) != proxy :: r.voters[k] == s.voters[k])
  {
    RowSizes(s, n);
    if proxy.Some? {
      RowSizes(s, proxy.value);
    }
    hide ValidVoter, Tally, SameGraph, Shift;
  }

  lemma JoinIs(s: State, n: Name, proxy: Option<Name>, producers: seq<Name>, votes: Votes)
    requires WellFormed(s) && ValidTarget(s, n, proxy, producers) && s.voters[n].proxy.None? && |votes| == s.pools
    ensures var r, v := Join(s, n, proxy, producers, votes), s.voters[n];
            && OneRow(s.voters, r.voters, n) && r.pools == s.pools
            && r.voters[n] == v.(proxy := proxy, producers := producers, last := votes)
            && |v.last| == s.pools
            && (proxy.Some? ==>
                  && proxy.value in s.voters && |s.voters[proxy.value].proxied| == s.pools && producers == []
                  && r.voters[proxy.value] == s.voters[proxy.value].(proxied := Add(s.voters[proxy.value].proxied, votes)))
            && (forall k | k in s.voters && k != n && Some(k) != proxy :: r.voters[k] == s.voters[k])
            && Revoted(s, r, v.producers, producers, v.last, votes)
  {
    RowSizes(s, n);
    JoinRows(s, n, proxy, producers, votes);
    hide ValidVoter, Tally, SameGraph, OneRow, Add;
  }

  lemma BehindNow(s: State, p: Name, i: nat)
    requires Linked(s) && p in s.voters && i < s.pools
    ensures |s.voters[p].proxied| == s.pools && s.voters[p].proxied[i] == Total(s.voters, Behind(p, i))
  {
    RowSizes(s, p);
  }

  lemma BackingNow(s: State, q: Name, i: nat)
    requires Linked(s) && q in s.producers && s.producers[q].votes.Some? && i < s.pools
    ensures |s.producers[q].votes.value| == s.pools && s.producers[q].votes.value[i] == Total(s.voters, Backing(q, i))
  {
    ProducerSizes(s, q);
  }

  lemma NowBehind(m: map<Name, Voter>, m': map<Name, Voter>, n: Name, p: Name, i: nat)
    requires OneRow(m, m', n) && m[n].proxy.None? && i < |m'[n].last|
    ensures Total(m', Behind(p, i)) == Total(m, Behind(p, i)) + (if m'[n].proxy == Some(p) then m'[n].last[i] else 0.0)
  {
    BehindMoves(m, m', n, p, i);
  }

  lemma JoinBehind(s: State, n: Name, proxy: Option<Name>, producers: seq<Name>, votes: Votes, p: Name, i: nat)
    requires Linked(s) && ValidTarget(s, n, proxy, producers) && s.voters[n].proxy.None? && |votes| == s.pools
    requires p in s.voters && i < s.pools
    ensures var r := Join(s, n, proxy, producers, votes);
            p in r.voters && |r.voters[p].proxied| == s.pools && r.voters[p].proxied[i] == Total(r.voters, Behind(p, i))
  {
    JoinRows(s, n, proxy, producers, votes);
    BehindNow(s, p, i);
    NowBehind(s.voters, Join(s, n, proxy, producers, votes).voters, n, p, i);
    hide Linked, WellFormed, Join, ValidTarget, OneRow, Behind;
  }

  lemma JoinProxies(s: State, n: Name, proxy: Option<Name>, producers: seq<Name>, votes: Votes)
    requires Linked(s) && ValidTarget(s, n, proxy, producers) && s.voters[n].proxy.None? && |votes| == s.pools
    ensures ProxiesLinked(Join(s, n, proxy, producers, votes))
  {
    JoinIs(s, n, proxy, producers, votes);
    var r := Join(s, n, proxy, producers, votes);
    hide Linked, Join, Revoted, ValidTarget;
    forall p, i: nat | p in r.voters && i < r.pools ensures r.voters[p].proxied[i] == Total(r.voters, Behind(p, i)) {
      JoinBehind(s, n, proxy, producers, votes, p, i);
    }
  }

  lemma JoinShifts(s: State, n: Name, proxy: Option<Name>, producers: seq<Name>, votes: Votes, q: Name)
    requires Linked(s) && ValidTarget(s, n, proxy, producers) && s.voters[n].proxy.None? && |votes| == s.pools
    requires q in Join(s, n, proxy, producers, votes).producers
    ensures var r, v := Join(s, n, proxy, producers, votes), s.voters[n];
            && OneRow(s.voters, r.voters, n) && r.voters[n] == v.(proxy := proxy, producers := producers, last := votes)
            && |v.last| == s.pools && q in s.producers && (proxy.Some? ==> producers == [])
            && (s.producers[q].votes.Some? ==> |s.producers[q].votes.value| == s.pools)
            && r.producers[q] == Shift(s.producers[q], q in v.producers, q in producers, v.last, votes)
  {
    JoinIs(s, n, proxy, producers, votes);
    hide Linked, Join, ValidTarget, Tally, Shift, OneRow;
  }

  lemma JoinBacking(s: State, n: Name, proxy: Option<Name>, producers: seq<Name>, votes: Votes, q: Name, i: nat)
    requires Linked(s) && ValidTarget(s, n, proxy, producers) && s.voters[n].proxy.None? && |votes| == s.pools
    requires var r := Join(s, n, proxy, producers, votes); q in r.producers && r.producers[q].votes.Some? && i < r.pools
    ensures var r := Join(s, n, proxy, producers, votes);
            |r.producers[q].votes.value| == s.pools && r.producers[q].votes.value[i] == Total(r.voters, Backing(q, i))
  {
    JoinShifts(s, n, proxy, producers, votes, q);
    JoinPools(s, n, proxy, producers, votes);
    if s.producers[q].votes.Some? {
      BackingNow(s, q, i);
    }
    hide Linked, Join, ValidTarget;
    BackingMoves(s.voters, Join(s, n, proxy, producers, votes).voters, n, q, i);
  }

  lemma JoinPools(s: State, n: Name, proxy: Option<Name>, producers: seq<Name>, votes: Votes)
    requires Linked(s) && ValidTarget(s, n, proxy, producers) && s.voters[n].proxy.None? && |votes| == s.pools
    ensures Join(s, n, proxy, producers, votes).pools == s.pools
  {
    JoinIs(s, n, proxy, producers, votes);
  }

  lemma JoinProducers(s: State, n: Name, proxy: Option<Name>, producers: seq<Name>, votes: Votes)
    requires Linked(s) && ValidTarget(s, n, proxy, producers) && s.voters[n].proxy.None? && |votes| == s.pools
    ensures ProducersLinked(Join(s, n, proxy, producers, votes))
    ensures Join(s, n, proxy, producers, votes).totals == Tally(s.pools, Join(s, n, proxy, producers, votes).producers)
  {
    JoinIs(s, n, proxy, producers, votes);
    var r := Join(s, n, proxy, producers, votes);
    hide WellFormed, ProxiesLinked, Join, ValidTarget, Tally;
    forall q, i: nat | q in r.producers && r.producers[q].votes.Some? && i < r.pools
      ensures r.producers[q].votes.value[i] == Total(r.voters, Backing(q, i))
    {
      JoinBacking(s, n, proxy, producers, votes, q, i);
    }
  }

  lemma JoinFresh(s: State, n: Name, proxy: Option<Name>, producers: seq<Name>, votes: Votes, dirty: set<Name>)
    requires Linked(s) && ValidTarget(s, n, proxy, producers) && s.voters[n].proxy.None?
    requires |votes| == s.pools && |s.voters[n].owned| == |s.voters[n].proxied| && votes == Value(s.voters[n])
    requires FreshExcept(s, dirty + {n})
    ensures FreshExcept(Join(s, n, proxy, producers, votes), if proxy.Some? then dirty + {proxy.value} else dirty)
  {
    JoinIs(s, n, proxy, producers, votes);
    var r := Join(s, n, proxy, producers, votes);
    ProxyIsOther(s, n, proxy, producers);
    hide WellFormed, ProxiesLinked, ProducersLinked, Join, Revoted, ValidTarget;
    forall k | k in r.voters && k !in (if proxy.Some? then dirty + {proxy.value} else dirty)
      ensures r.voters[k].last == Value(r.voters[k])
    {
      RowSizes(s, k);
      if k != n {
        assert k !in dirty + {n};
      }
    }
  }

  lemma ProxyIsOther(s: State, n: Name, proxy: Option<Name>, producers: seq<Name>)
    requires ValidTarget(s, n, proxy, producers)
    ensures proxy != Some(n)
  {
  }

  /** A vote leaves every tally exact, and every voter that was up to date stays so. */
  lemma UpdateVotesKeeps(s: State, n: Name, proxy: Option<Name>, producers: seq<Name>, dirty: set<Name>)
    requires Linked(s) && ValidTarget(s, n, proxy, producers) && FreshExcept(s, dirty + {n})
    ensures Linked(UpdateVotes(s, n, proxy, producers)) && FreshExcept(UpdateVotes(s, n, proxy, producers), dirty)
  {
    hide ProxiesLinked, ProducersLinked, FreshExcept, Refresh, Left, Join, ValidTarget;
    TargetInTable(s, n, proxy, producers);
    LeftKeeps(s, n, dirty);
    TargetStays(s, n, proxy, producers);
    RowSizes(s, n);
    var s1, votes := Left(s, n), Value(s.voters[n]);
    JoinProxies(s1, n, proxy, producers, votes);
    JoinProducers(s1, n, proxy, producers, votes);
    JoinFresh(s1, n, proxy, producers, votes, dirty);
    var s2 := Join(s1, n, proxy, producers, votes);
    if proxy.Some? {
      RefreshKeeps(s2, proxy.value, dirty);
    }
  }

  lemma TargetInTable(s: State, n: Name, proxy: Option<Name>, producers: seq<Name>)
    requires ValidTarget(s, n, proxy, producers)
    ensures n in s.voters && (proxy.Some? ==> proxy.value in s.voters)
  {
  }

  // ----- every action -----

  lemma NobodyBehind(s: State, p: Name, i: nat)
    requires WellFormed(s) && p !in s.voters
    ensures Total(s.voters, Behind(p, i)) == 0.0
  {
    forall n | n in s.voters ensures Behind(p, i)(n, s.voters[n]) == 0.0 {
      assert ValidVoter(s, n, s.voters[n]);
    }
    TotalZero<Name, Voter>(s.voters, Behind(p, i));
  }

  lemma WithVoterKeeps(s: State, n: Name)
    requires Inv(s)
    ensures Inv(WithVoter(s, n)) && n in WithVoter(s, n).voters
  {
    WithVoterWellFormed(s, n);
    if n !in s.voters {
      var r := WithVoter(s, n);
      forall p, i: nat | p in r.voters && i < r.pools ensures r.voters[p].proxied[i] == Total(r.voters, Behind(p, i)) {
        TotalPut<Name, Voter>(s.voters, n, NewVoter(s.pools), Behind(p, i));
        if p == n {
          NobodyBehind(s, n, i);
        } else {
          RowSizes(s, p);
        }
      }
      forall q, i: nat | q in r.producers && r.producers[q].votes.Some? && i < r.pools
        ensures r.producers[q].votes.value[i] == Total(r.voters, Backing(q, i))
      {
        TotalPut<Name, Voter>(s.voters, n, NewVoter(s.pools), Backing(q, i));
        ProducerSizes(s, q);
      }
    }
  }

  lemma RankedKeeps(s: State, proxy: Option<Name>)
    requires Inv(s) && WellFormed(Ranked(s, proxy))
    ensures Inv(Ranked(s, proxy))
  {
  }

  lemma VoteKeeps(s: State, n: Name, proxy: Option<Name>, producers: seq<Name>)
    requires Inv(s) && Vote(s, n, proxy, producers).Some?
    ensures Inv(Vote(s, n, proxy, producers).value)
  {
    hide ProxiesLinked, ProducersLinked, FreshExcept, UpdateVotes, ValidTarget, WithVoter, Ranked, WellFormed;
    VoteReady(s, n, proxy, producers);
    WithVoterKeeps(s, n);
    var s1 := WithVoter(s, n);
    RankedKeeps(s1, proxy);
    MoreDirty(Ranked(s1, proxy), {n});
    UpdateVotesKeeps(Ranked(s1, proxy), n, proxy, producers, {});
  }

  lemma MoreDirty(s: State, dirty: set<Name>)
    requires WellFormed(s) && FreshExcept(s, {})
    ensures FreshExcept(s, dirty) && FreshExcept(s, {} + dirty)
  {
  }

  /** Changing the shares a voter owns leaves every tally exact, since tallies count votes already cast. */
  lemma SetOwnedKeeps(s: State, n: Name, owned: Votes, dirty: set<Name>)
    requires Linked(s) && FreshExcept(s, dirty) && n in s.voters && |owned| == s.pools
    ensures Linked(SetOwned(s, n, owned)) && FreshExcept(SetOwned(s, n, owned), dirty + {n})
  {
    var r := SetOwned(s, n, owned);
    forall p, i: nat | p in r.voters && i < r.pools ensures r.voters[p].proxied[i] == Total(r.voters, Behind(p, i)) {
      TotalCongruent<Name, Voter>(s.voters, r.voters, Behind(p, i));
      RowSizes(s, p);
    }
    forall q, i: nat | q in r.producers && r.producers[q].votes.Some? && i < r.pools
      ensures r.producers[q].votes.value[i] == Total(r.voters, Backing(q, i))
    {
      TotalCongruent<Name, Voter>(s.voters, r.voters, Backing(q, i));
      ProducerSizes(s, q);
    }
  }

  lemma RepeatKeeps(s: State, n: Name, dirty: set<Name>)
    requires Linked(s) && n in s.voters && FreshExcept(s, dirty + {n})
    ensures Linked(Repeat(s, n)) && FreshExcept(Repeat(s, n), dirty)
  {
    hide ProxiesLinked, ProducersLinked, FreshExcept, UpdateVotes, ValidTarget, WellFormed;
    RepeatReady(s, n);
    UpdateVotesKeeps(s, n, s.voters[n].proxy, s.voters[n].producers, dirty);
  }

  lemma ChangeStakeKeeps(s: State, n: Name, owned: Votes)
    requires Inv(s)
    ensures ChangeStake(s, n, owned).Some? <==> |owned| == s.pools
    ensures ChangeStake(s, n, owned).Some? ==> Inv(ChangeStake(s, n, owned).value)
  {
    hide ProxiesLinked, ProducersLinked, FreshExcept, Repeat, WithVoter, WellFormed, SetOwned;
    WithVoterKeeps(s, n);
    WithVoterPools(s, n);
    if |owned| == s.pools {
      SetOwnedKeeps(WithVoter(s, n), n, owned, {});
      RepeatKeeps(SetOwned(WithVoter(s, n), n, owned), n, {});
    }
  }

  lemma WithVoterPools(s: State, n: Name)
    ensures WithVoter(s, n).pools == s.pools && WithVoter(s, n).voters.Keys == s.voters.Keys + {n}
  {
  }

  lemma MoveStakeKeeps(s: State, from: Name, to: Name, ownedFrom: Votes, ownedTo: Votes)
    requires Inv(s) && MoveStake(s, from, to, ownedFrom, ownedTo).Some?
    ensures Inv(MoveStake(s, from, to, ownedFrom, ownedTo).value)
  {
    hide ProxiesLinked, ProducersLinked, FreshExcept, Repeat, WithVoter, WellFormed, SetOwned;
    WithVoterKeeps(s, to);
    WithVoterPools(s, to);
    var s1 := WithVoter(s, to);
    SetOwnedKeeps(s1, from, ownedFrom, {});
    var s2 := SetOwned(s1, from, ownedFrom);
    SetOwnedKeeps(s2, to, ownedTo, {} + {from});
    var s3 := SetOwned(s2, to, ownedTo);
    assert {} + {from} + {to} == {to} + {from};
    RepeatKeeps(s3, from, {to});
    assert {} + {to} == {to};
    RepeatKeeps(Repeat(s3, from), to, {});
  }

  lemma RegProxyKeeps(s: State, n: Name, isProxy: bool)
    requires Inv(s) && RegProxy(s, n, isProxy).Some?
    ensures Inv(RegProxy(s, n, isProxy).value)
  {
    WithVoterKeeps(s, n);
    var s1 := WithVoter(s, n);
    RegWellFormed(s1, n, isProxy);
    RoleKeeps(s1, n, isProxy);
    hide ProxiesLinked, ProducersLinked, FreshExcept, Refresh, WithVoter, WellFormed;
    RefreshKeeps(PutVoter(s1, n, s1.voters[n].(isProxy := isProxy)), n, {});
  }

  lemma RoleKeeps(s: State, n: Name, isProxy: bool)
    requires Inv(s) && n in s.voters && WellFormed(PutVoter(s, n, s.voters[n].(isProxy := isProxy)))
    ensures var r := PutVoter(s, n, s.voters[n].(isProxy := isProxy)); Linked(r) && FreshExcept(r, {} + {n})
  {
    var r := PutVoter(s, n, s.voters[n].(isProxy := isProxy));
    forall p, i: nat | p in r.voters && i < r.pools ensures r.voters[p].proxied[i] == Total(r.voters, Behind(p, i)) {
      TotalCongruent<Name, Voter>(s.voters, r.voters, Behind(p, i));
      RowSizes(s, p);
    }
    forall q, i: nat | q in r.producers && r.producers[q].votes.Some? && i < r.pools
      ensures r.producers[q].votes.value[i] == Total(r.voters, Backing(q, i))
    {
      TotalCongruent<Name, Voter>(s.voters, r.voters, Backing(q, i));
      ProducerSizes(s, q);
    }
  }

  lemma TallyMoves(s: State, q: Name, p: Producer)
    requires WellFormed(s) && (p.votes.Some? ==> |p.votes.value| == s.pools)
    requires forall i: nat | i < s.pools :: VotesAt(i)(q, p) == if q in s.producers then VotesAt(i)(q, s.producers[q]) else 0.0
    ensures Tally(s.pools, s.producers[q := p]) == Tally(s.pools, s.producers)
  {
    forall i: nat | i < s.pools ensures Total(s.producers[q := p], VotesAt(i)) == Total(s.producers, VotesAt(i)) {
      TotalPut<Name, Producer>(s.producers, q, p, VotesAt(i));
    }
  }

  lemma NobodyBacks(s: State, q: Name, i: nat)
    requires WellFormed(s) && !Upgraded(s, q)
    ensures Total(s.voters, Backing(q, i)) == 0.0
  {
    forall n | n in s.voters ensures Backing(q, i)(n, s.voters[n]) == 0.0 {
      assert ValidVoter(s, n, s.voters[n]);
    }
    TotalZero<Name, Voter>(s.voters, Backing(q, i));
  }

  lemma EnableKeeps(s: State, q: Name)
    requires Inv(s)
    ensures Inv(EnableProducer(s, q))
  {
    var r := EnableProducer(s, q);
    TallyMoves(s, q, r.producers[q]);
    assert WellFormed(r) by {
      forall n | n in r.voters ensures ValidVoter(r, n, r.voters[n]) {
        assert ValidVoter(s, n, s.voters[n]);
      }
    }
    forall p, i: nat | p in r.producers && r.producers[p].votes.Some? && i < r.pools
      ensures r.producers[p].votes.value[i] == Total(r.voters, Backing(p, i))
    {
      if p == q && !(q in s.producers && s.producers[q].votes.Some?) {
        NobodyBacks(s, q, i);
      } else {
        ProducerSizes(s, p);
        assert s.producers[p].votes.value[i] == Total(s.voters, Backing(p, i));
      }
    }
  }

  lemma DeactivateKeeps(s: State, q: Name)
    requires Inv(s) && DeactivateProducer(s, q).Some?
    ensures Inv(DeactivateProducer(s, q).value)
  {
    var r := DeactivateProducer(s, q).value;
    TallyMoves(s, q, r.producers[q]);
    assert WellFormed(r) by {
      forall n | n in r.voters ensures ValidVoter(r, n, r.voters[n]) {
        assert ValidVoter(s, n, s.voters[n]);
      }
    }
    forall p, i: nat | p in r.producers && r.producers[p].votes.Some? && i < r.pools
      ensures r.producers[p].votes.value[i] == Total(r.voters, Backing(p, i))
    {
      ProducerSizes(s, p);
      assert s.producers[p].votes.value[i] == Total(s.voters, Backing(p, i));
    }
  }

  lemma StepKeeps(s: State, a: Action)
    requires Inv(s) && Step(s, a).Some?
    ensures Inv(Step(s, a).value)
  {
    hide ProxiesLinked, ProducersLinked, FreshExcept, WellFormed, Vote, ChangeStake, MoveStake, RegProxy, EnableProducer, DeactivateProducer;
    match a
    case VoteCall(n, proxy, producers) => VoteKeeps(s, n, proxy, producers);
    case ChangeStakeCall(n, owned) => ChangeStakeKeeps(s, n, owned);
    case MoveStakeCall(from, to, ownedFrom, ownedTo) => MoveStakeKeeps(s, from, to, ownedFrom, ownedTo);
    case RegProxyCall(n, isProxy) => RegProxyKeeps(s, n, isProxy);
    case EnableCall(q) => EnableKeeps(s, q);
    case DeactivateCall(q) => DeactivateKeeps(s, q);
  }

  // ----- runs -----

  ghost function Next(s: State, a: Action): State {
    if WellFormed(s) && Step(s, a).Some? then Step(s, a).value else s
  }

  ghost function Run(s: State, actions: seq<Action>): State
    decreases |actions|
  {
    if actions == [] then s else Run(Next(s, actions[0]), actions[1..])
  }

  /** Before anyone has voted. Producers registered before the pools existed are not upgraded to pool votes. */
  ghost predicate Initial(s: State) {
    && s.voters == map[] && s.totals == Zeros(s.pools)
    && forall q | q in s.producers :: s.producers[q].votes.None?
  }

  lemma InitialInv(s: State)
    requires Initial(s)
    ensures Inv(s)
  {
    forall i: nat | i < s.pools ensures Total(s.producers, VotesAt(i)) == 0.0 {
      TotalZero<Name, Producer>(s.producers, VotesAt(i));
    }
    assert s.totals == Tally(s.pools, s.producers);
  }

  lemma {:induction false} RunKeeps(s: State, actions: seq<Action>)
    requires Inv(s)
    ensures Inv(Run(s, actions))
    decreases |actions|
  {
    hide Linked, FreshExcept, Step;
    if actions != [] {
      InvIsWellFormed(s);
      if Step(s, actions[0]).Some? {
        StepKeeps(s, actions[0]);
      }
      RunKeeps(Next(s, actions[0]), actions[1..]);
    }
  }

  lemma InvIsWellFormed(s: State)
    requires Inv(s)
    ensures WellFormed(s)
  {
  }

  /** In every reachable state all votes are accounted for, pool by pool: a voter's vote is the voter's shares and, for a
      proxy, those behind it; a proxy's proxied shares are the votes of those who use it; a producer's votes are those of
      the voters who approve it directly; and the totals are the sums over producers. */
  lemma VotesAreConserved(s: State, actions: seq<Action>)
    requires Initial(s)
    ensures var r := Run(s, actions);
            && WellFormed(r)
            && (forall n | n in r.voters :: r.voters[n].last == Value(r.voters[n]))
            && (forall p, i: nat | p in r.voters && i < r.pools :: r.voters[p].proxied[i] == Total(r.voters, Behind(p, i)))
            && (forall q, i: nat | q in r.producers && r.producers[q].votes.Some? && i < r.pools ::
                  r.producers[q].votes.value[i] == Total(r.voters, Backing(q, i)))
            && (forall i: nat | i < r.pools :: r.totals[i] == Total(r.producers, VotesAt(i)))
  {
    InitialInv(s);
    RunKeeps(s, actions);
  }

  function Links(s: State): ProxyGraph.Links {
    map n | n in s.voters :: s.voters[n].proxy
  }

  lemma WellFormedDescends(s: State)
    requires WellFormed(s)
    ensures ProxyGraph.Descending(Links(s), s.rank)
  {
    forall n | n in s.voters ensures s.voters[n].proxy.Some? ==>
        s.voters[n].proxy.value in s.voters && s.rank(s.voters[n].proxy.value) < s.rank(n)
    {
      assert ValidVoter(s, n, s.voters[n]);
    }
  }

  /** In every reachable state the proxy graph is acyclic: no chain of proxies, however long, comes back to its start. */
  lemma ProxiesNeverCycle(s: State, actions: seq<Action>, n: Name, k: nat)
    requires Initial(s) && 0 < k
    ensures ProxyGraph.Along(Links(Run(s, actions)), n, k) != Some(n)
  {
    hide Linked, FreshExcept;
    InitialInv(s);
    RunKeeps(s, actions);
    var r := Run(s, actions);
    InvIsWellFormed(r);
    WellFormedDescends(r);
    ProxyGraph.NoCycle(Links(r), r.rank, n, k);
  }
}
