/** Pool votes as the contract pushes them: recursively from a voter through its proxies to producers, one row at a
    time. Proved against module PoolVotes, which also shows that the recursion ends. */
module PoolVotesContract {
  import opened Tables
  import opened Totals
  import opened Resources
  import opened Ballots
  import P = PoolVotes
  import ProxyGraph
  import opened PoolVotesInvariants

  // ----- rows off the chain do not matter -----

  lemma PutCommutes(s: P.State, a: Name, va: P.Voter, b: Name, vb: P.Voter)
    requires a != b
    ensures P.PutVoter(P.PutVoter(s, a, va), b, vb) == P.PutVoter(P.PutVoter(s, b, vb), a, va)
  {
    assert s.voters[a := va][b := vb] == s.voters[b := vb][a := va];
  }

  lemma PassOnFrame(s: P.State, v: P.Voter, votes: P.Votes, m: Name, row: P.Voter)
    requires P.WellFormed(s) && P.WellFormed(P.PutVoter(s, m, row)) && m in s.voters
    requires |v.last| == s.pools && |votes| == s.pools
    requires v.proxy.Some? ==> v.proxy.value in s.voters && v.proxy.value != m
    ensures P.PassOn(P.PutVoter(s, m, row), v, votes) == P.PutVoter(P.PassOn(s, v, votes), m, row)
  {
    hide P.WellFormed, P.SameGraph;
    if v.proxy.Some? {
      var p := v.proxy.value;
      RowSizes(s, p);
      var d := s.voters[p].(proxied := P.Sub(s.voters[p].proxied, v.last));
      PutCommutes(s, m, row, p, d);
      var s1 := P.Debit(s, p, v.last);
      PutCommutes(s1, m, row, p, d.(proxied := P.Add(d.proxied, votes)));
    }
  }

  lemma SetLastWellFormed(s: P.State, n: Name, m: Name, row: P.Voter)
    requires P.WellFormed(s) && P.WellFormed(P.PutVoter(s, m, row)) && n in s.voters && m in s.voters && n != m
    ensures |P.Value(s.voters[n])| == s.pools
    ensures P.WellFormed(P.PutVoter(P.SetLast(s, n, P.Value(s.voters[n])), m, row))
    ensures P.SetLast(P.PutVoter(s, m, row), n, P.Value(s.voters[n])) == P.PutVoter(P.SetLast(s, n, P.Value(s.voters[n])), m, row)
  {
    RowSizes(s, n);
    hide P.WellFormed, P.SameGraph, P.Value;
    PutCommutes(s, m, row, n, s.voters[n].(last := P.Value(s.voters[n])));
  }

  /** Rewriting the row of a voter that ranks above commutes with one link. */
  lemma LinkFrame(s: P.State, n: Name, m: Name, row: P.Voter)
    requires P.WellFormed(s) && P.WellFormed(P.PutVoter(s, m, row)) && n in s.voters && m in s.voters && s.rank(n) < s.rank(m)
    ensures n in P.PutVoter(s, m, row).voters
    ensures RefreshOne(P.PutVoter(s, m, row), n) == P.PutVoter(RefreshOne(s, n), m, row)
  {
    RankOfProxy(s, n);
    RowSizes(s, n);
    SetLastWellFormed(s, n, m, row);
    hide P.WellFormed, P.SameGraph, P.Value, P.PassOn;
    var s1 := P.SetLast(s, n, P.Value(s.voters[n]));
    P.SameVoters(s, s1);
    PassOnFrame(s1, s.voters[n], P.Value(s.voters[n]), m, row);
  }

  lemma LinkRest(s: P.State, n: Name)
    requires P.WellFormed(s) && n in s.voters
    ensures RefreshOne(s, n).rank == s.rank && RefreshOne(s, n).pools == s.pools
  {
    OneLinkVoters(s, n);
    P.SameVoters(s, RefreshOne(s, n));
  }

  lemma RankOfProxy(s: P.State, n: Name)
    requires P.WellFormed(s) && n in s.voters
    ensures s.voters[n].proxy.Some? ==> s.voters[n].proxy.value in s.voters && s.rank(s.voters[n].proxy.value) < s.rank(n)
  {
    assert P.ValidVoter(s, n, s.voters[n]);
  }

  lemma {:induction false} RefreshFrame(s: P.State, n: Name, m: Name, row: P.Voter)
    requires P.WellFormed(s) && P.WellFormed(P.PutVoter(s, m, row)) && n in s.voters && m in s.voters && s.rank(n) < s.rank(m)
    ensures n in P.PutVoter(s, m, row).voters
    ensures P.Refresh(P.PutVoter(s, m, row), n) == P.PutVoter(P.Refresh(s, n), m, row)
    decreases s.rank(n)
  {
    var t := P.PutVoter(s, m, row);
    LinkFrame(s, n, m, row);
    RankOfProxy(s, n);
    LinkRest(s, n);
    OneLinkVoters(s, n);
    P.SameVoters(s, RefreshOne(s, n));
    hide P.SetLast, P.PassOn, P.SameGraph, OneLink, P.WellFormed;
    assert t.voters[n] == s.voters[n];
    if s.voters[n].proxy.Some? {
      RefreshFrame(RefreshOne(s, n), s.voters[n].proxy.value, m, row);
    }
  }

  // ----- changes of different producers' votes do not interfere -----

  lemma ShiftCommutes(p: P.Producer, c1: bool, p1: bool, l1: P.Votes, v1: P.Votes, c2: bool, p2: bool, l2: P.Votes, v2: P.Votes)
    requires p.votes.Some? ==> |p.votes.value| == |l1| == |v1| == |l2| == |v2|
    ensures P.Shift(P.Shift(p, c1, p1, l1, v1), c2, p2, l2, v2) == P.Shift(P.Shift(p, c2, p2, l2, v2), c1, p1, l1, v1)
  {
    if p.votes.Some? {
      var x, y := P.Shift(P.Shift(p, c1, p1, l1, v1), c2, p2, l2, v2), P.Shift(P.Shift(p, c2, p2, l2, v2), c1, p1, l1, v1);
      assert x.votes.value == y.votes.value;
    }
  }

  lemma RevoteCommutes(s: P.State, b1: seq<Name>, a1: seq<Name>, l1: P.Votes, v1: P.Votes,
                       b2: seq<Name>, a2: seq<Name>, l2: P.Votes, v2: P.Votes)
    requires P.WellFormed(s) && |l1| == |v1| == |l2| == |v2| == s.pools
    ensures P.Revote(P.Revote(s, b1, a1, l1, v1), b2, a2, l2, v2) == P.Revote(P.Revote(s, b2, a2, l2, v2), b1, a1, l1, v1)
  {
    var x, y := P.Revote(P.Revote(s, b1, a1, l1, v1), b2, a2, l2, v2), P.Revote(P.Revote(s, b2, a2, l2, v2), b1, a1, l1, v1);
    forall q | q in s.producers ensures x.producers[q] == y.producers[q] {
      if s.producers[q].votes.Some? {
        ProducerSizes(s, q);
      }
      ShiftCommutes(s.producers[q], q in b1, q in a1, l1, v1, q in b2, q in a2, l2, v2);
    }
    assert x.producers == y.producers;
  }

  lemma LinkRevote(s: P.State, n: Name, before: seq<Name>, after: seq<Name>, last: P.Votes, votes: P.Votes)
    requires P.WellFormed(s) && n in s.voters && |last| == |votes| == s.pools
    ensures n in P.Revote(s, before, after, last, votes).voters
    ensures RefreshOne(s, n).pools == s.pools
    ensures RefreshOne(P.Revote(s, before, after, last, votes), n) == P.Revote(RefreshOne(s, n), before, after, last, votes)
  {
    LinkRest(s, n);
    RowSizes(s, n);
    RankOfProxy(s, n);
    var v := s.voters[n];
    hide P.WellFormed, P.SameGraph, P.Value, P.Tally, P.Shift;
    var s1 := P.SetLast(s, n, P.Value(v));
    P.SameVoters(s, s1);
    if v.proxy.None? {
      RevoteCommutes(s1, v.producers, v.producers, v.last, P.Value(v), before, after, last, votes);
    }
  }

  /** Taking votes from producers commutes with refreshing a chain. */
  lemma {:induction false} RefreshRevote(s: P.State, n: Name, before: seq<Name>, after: seq<Name>, last: P.Votes, votes: P.Votes)
    requires P.WellFormed(s) && n in s.voters && |last| == |votes| == s.pools
    ensures n in P.Revote(s, before, after, last, votes).voters && P.Refresh(s, n).pools == s.pools
    ensures P.Refresh(P.Revote(s, before, after, last, votes), n) == P.Revote(P.Refresh(s, n), before, after, last, votes)
    decreases s.rank(n)
  {
    LinkRevote(s, n, before, after, last, votes);
    LinkRest(s, n);
    OneLinkVoters(s, n);
    RankOfProxy(s, n);
    P.SameVoters(s, RefreshOne(s, n));
    P.SameVoters(s, P.Refresh(s, n));
    hide P.SetLast, P.PassOn, P.SameGraph, OneLink, P.WellFormed, P.Revote;
    if s.voters[n].proxy.Some? {
      RefreshRevote(RefreshOne(s, n), s.voters[n].proxy.value, before, after, last, votes);
    }
  }

  // ----- vectors -----

  method AddTo(a: P.Votes, deltas: P.Votes) returns (r: P.Votes)
    requires |a| == |deltas|
    ensures r == P.Add(a, deltas)
  {
    r := a;
    var i := 0;
    while i < |deltas|
      invariant 0 <= i <= |deltas| && |r| == |a|
      invariant forall j | 0 <= j < |a| :: r[j] == if j < i then a[j] + deltas[j] else a[j]
    {
      r := r[i := r[i] + deltas[i]];
      i := i + 1;
    }
  }

  method SubFrom(a: P.Votes, deltas: P.Votes) returns (r: P.Votes)
    requires |a| == |deltas|
    ensures r == P.Sub(a, deltas)
  {
    r := a;
    var i := 0;
    while i < |deltas|
      invariant 0 <= i <= |deltas| && |r| == |a|
      invariant forall j | 0 <= j < |a| :: r[j] == if j < i then a[j] - deltas[j] else a[j]
    {
      r := r[i := r[i] - deltas[i]];
      i := i + 1;
    }
  }

  lemma TallyAdds(pools: nat, producers: map<Name, P.Producer>, q: Name, deltas: P.Votes)
    requires q in producers && producers[q].votes.Some? && |producers[q].votes.value| == pools == |deltas|
    ensures P.Tally(pools, producers[q := producers[q].(votes := Some(P.Add(producers[q].votes.value, deltas)))])
         == P.Add(P.Tally(pools, producers), deltas)
    ensures P.Tally(pools, producers[q := producers[q].(votes := Some(P.Sub(producers[q].votes.value, deltas)))])
         == P.Sub(P.Tally(pools, producers), deltas)
  {
    var up := producers[q].(votes := Some(P.Add(producers[q].votes.value, deltas)));
    var down := producers[q].(votes := Some(P.Sub(producers[q].votes.value, deltas)));
    forall i: nat | i < pools
      ensures Total(producers[q := up], P.VotesAt(i)) == Total(producers, P.VotesAt(i)) + deltas[i]
      ensures Total(producers[q := down], P.VotesAt(i)) == Total(producers, P.VotesAt(i)) - deltas[i]
    {
      TotalPut<Name, P.Producer>(producers, q, up, P.VotesAt(i));
      TotalPut<Name, P.Producer>(producers, q, down, P.VotesAt(i));
    }
  }

  class PoolVotesContract {
    const pools: nat
    var voters: map<Name, P.Voter>
    var producers: map<Name, P.Producer>
    var totals: P.Votes
    /** Evidence that the recursion through proxies ends. */
    ghost var rank: Name -> nat

    ghost function S(): P.State
      reads this
    {
      P.State(pools, voters, producers, totals, rank)
    }

    /** Well-formed tables whose totals add up; votes may be out of date in the middle of an action. */
    ghost predicate Ready()
      reads this
    {
      P.WellFormed(S()) && totals == P.Tally(pools, producers)
    }

    /** Producers registered before the pools have no pool votes yet. */
    constructor (pools: nat, registered: map<Name, P.Producer>)
      requires forall q | q in registered :: registered[q].votes.None?
      ensures S() == P.State(pools, map[], registered, P.Zeros(pools), rank) && P.Inv(S())
    {
      this.pools := pools;
      voters, producers, totals := map[], registered, P.Zeros(pools);
      rank := n => 0;
      new;
      InitialInv(S());
    }

    method AddProxiedShares(p: Name, deltas: P.Votes)
      requires p in voters && |voters[p].proxied| == |deltas|
      modifies `voters
      ensures voters == old(voters)[p := old(voters)[p].(proxied := P.Add(old(voters)[p].proxied, deltas))]
    {
      var sum := AddTo(voters[p].proxied, deltas);
      voters := voters[p := voters[p].(proxied := sum)];
    }

    method SubProxiedShares(p: Name, deltas: P.Votes)
      requires p in voters && |voters[p].proxied| == |deltas|
      modifies `voters
      ensures voters == old(voters)[p := old(voters)[p].(proxied := P.Sub(old(voters)[p].proxied, deltas))]
    {
      var rest := SubFrom(voters[p].proxied, deltas);
      voters := voters[p := voters[p].(proxied := rest)];
    }

    /** A producer's votes and the totals move together. */
    method AddPoolVotes(q: Name, deltas: P.Votes) returns (ok: bool)
      requires q in producers && |totals| == |deltas| == pools && totals == P.Tally(pools, producers)
      modifies `producers, `totals
      ensures ok <==> old(P.Upgraded(S(), q))
      ensures ok ==> producers == old(producers)[q := old(producers)[q].(votes := Some(P.Add(old(producers)[q].votes.value, deltas)))]
      ensures !ok ==> producers == old(producers)
      ensures totals == P.Tally(pools, producers)
    {
      var votes := producers[q].votes;
      if votes.None? || |votes.value| != |deltas| {
        return false;
      }
      TallyAdds(pools, producers, q, deltas);
      var sum := AddTo(votes.value, deltas);
      producers := producers[q := producers[q].(votes := Some(sum))];
      totals := AddTo(totals, deltas);
      return true;
    }

    method SubPoolVotes(q: Name, deltas: P.Votes)
      requires q in producers && |totals| == |deltas| == pools && totals == P.Tally(pools, producers) && P.Upgraded(S(), q)
      modifies `producers, `totals
      ensures producers == old(producers)[q := old(producers)[q].(votes := Some(P.Sub(old(producers)[q].votes.value, deltas)))]
      ensures totals == P.Tally(pools, producers)
    {
      TallyAdds(pools, producers, q, deltas);
      var rest := SubFrom(producers[q].votes.value, deltas);
      producers := producers[q := producers[q].(votes := Some(rest))];
      totals := SubFrom(totals, deltas);
    }

    method PoolVotesOf(n: Name) returns (votes: P.Votes)
      requires n in voters && |voters[n].owned| == |voters[n].proxied|
      ensures votes == P.Value(voters[n])
    {
      votes := voters[n].owned;
      if voters[n].isProxy {
        votes := AddTo(votes, voters[n].proxied);
      }
    }

    /** update_pool_proxy: the row is written last, after the recursion, which never comes back to it. */
    method UpdatePoolProxy(n: Name)
      requires Ready() && n in voters
      modifies `voters, `producers, `totals
      ensures S() == P.Refresh(old(S()), n) && Ready()
      decreases rank(n)
    {
      ghost var s := S();
      var v := voters[n];
      RowSizes(s, n);
      RankOfProxy(s, n);
      assert !(v.proxy.Some? && v.isProxy) by { assert P.ValidVoter(s, n, v); }
      var votes := PoolVotesOf(n);
      if v.proxy.Some? {
        var p := v.proxy.value;
        RowSizes(s, p);
        SubProxiedShares(p, v.last);
        AddProxiedShares(p, votes);
        BeforeRow(s, n, S());
        UpdatePoolProxy(p);
        AfterRow(s, n, S());
        voters := voters[n := voters[n].(last := votes)];
      } else {
        MoveProducerVotes(v.producers, v.last, votes);
        RowAfterProducers(s, n, S());
        voters := voters[n := voters[n].(last := votes)];
      }
    }

    /** The loop over the voter's producers. */
    method MoveProducerVotes(list: seq<Name>, last: P.Votes, votes: P.Votes)
      requires Ready() && |last| == |votes| == pools && Sorted(list) && forall q | q in list :: P.Upgraded(S(), q)
      modifies `producers, `totals
      ensures S() == P.Revote(old(S()), list, list, last, votes)
    {
      hide P.Tally;
      ghost var s := S();
      var i := 0;
      while i < |list|
        invariant 0 <= i <= |list| && producers.Keys == s.producers.Keys
        invariant |totals| == pools && totals == P.Tally(pools, producers)
        invariant forall q | q in producers :: producers[q] == Half(s, q, q in list[..i], last, votes)
      {
        var q := list[i];
        assert q !in list[..i];
        assert P.Upgraded(s, q);
        SubPoolVotes(q, last);
        TallySize(pools, producers);
        var ok := AddPoolVotes(q, votes);
        assert ok;
        TallySize(pools, producers);
        assert list[..i + 1] == list[..i] + [q];
        i := i + 1;
      }
      assert list[..|list|] == list;
      assert producers == P.Revote(s, list, list, last, votes).producers;
    }

    method GetOrCreatePoolVoter(n: Name)
      requires Ready()
      modifies `voters
      ensures S() == P.WithVoter(old(S()), n) && Ready()
    {
      P.WithVoterWellFormed(S(), n);
      if n !in voters {
        voters := voters[n := P.Voter(seq(pools, i => 0.0), seq(pools, i => 0.0), seq(pools, i => 0.0), None, [], false)];
        assert voters[n] == P.NewVoter(pools);
      }
    }

    /** The vote the voter gives up, if it was for a proxy. */
    method LeaveProxy(n: Name)
      requires Ready() && n in voters
      modifies `voters, `producers, `totals
      ensures S() == P.PutVoter(P.Left(old(S()), n), n, old(voters)[n]) && Ready()
    {
      ghost var s := S();
      var v := voters[n];
      if v.proxy.Some? {
        RankOfProxy(s, n);
        RowSizes(s, n);
        RowSizes(s, v.proxy.value);
        SubProxiedShares(v.proxy.value, v.last);
        assert S() == P.Debit(s, v.proxy.value, v.last);
        UpdatePoolProxy(v.proxy.value);
        LeftImplemented(s, n);
      } else {
        PutBack(s, n, v);
        assert voters[n := v] == voters;
      }
    }

    method JoinProxy(p: Name, votes: P.Votes)
      requires Ready() && p in voters && |votes| == pools
      modifies `voters, `producers, `totals
      ensures P.Credit(old(S()), p, votes).voters.Keys == old(voters).Keys
      ensures S() == P.Refresh(P.Credit(old(S()), p, votes), p) && Ready()
    {
      ghost var s := S();
      RowSizes(s, p);
      AddProxiedShares(p, votes);
      assert S() == P.Credit(s, p, votes);
      P.SameVoters(s, S());
      UpdatePoolProxy(p);
    }

    /** One producer whose place in the voter's list changes. */
    method ChangeProducer(q: Name, oldVote: bool, newVote: bool, last: P.Votes, votes: P.Votes, voting: bool) returns (ok: bool)
      requires |totals| == |last| == |votes| == pools && totals == P.Tally(pools, producers)
      requires oldVote ==> P.Upgraded(S(), q)
      requires q in producers && producers[q].votes.Some? ==> |producers[q].votes.value| == pools
      modifies `producers, `totals
      ensures ok == (newVote ==> old(P.Upgraded(S(), q)) && (voting ==> old(producers)[q].active))
      ensures |totals| == pools && totals == P.Tally(pools, producers)
      ensures ok && (oldVote || newVote) ==>
                q in old(producers) && producers == old(producers)[q := P.Shift(old(producers)[q], oldVote, newVote, last, votes)]
    {
      hide P.Tally;
      if q !in producers {
        return !newVote;
      }
      if voting && !producers[q].active && newVote {
        return false;
      }
      if oldVote {
        SubPoolVotes(q, last);
        TallySize(pools, producers);
      }
      ok := true;
      if newVote {
        ok := AddPoolVotes(q, votes);
        TallySize(pools, producers);
      }
    }

    /** The producers whose votes change; the new list must be registered, upgraded and, for a new vote, active. */
    method ChangeProducers(before: seq<Name>, after: seq<Name>, last: P.Votes, votes: P.Votes, voting: bool) returns (ok: bool)
      requires Ready() && |last| == |votes| == pools && forall q | q in before :: P.Upgraded(S(), q)
      modifies `producers, `totals
      ensures ok == old(Eligible(S(), after, voting))
      ensures ok ==> S() == P.Revote(old(S()), before, after, last, votes)
    {
      hide P.Tally, P.Shift;
      ghost var s := S();
      var all := (set q | q in before) + (set q | q in after);
      var todo := all;
      NothingDone(s, todo, before, after, last, votes);
      while todo != {}
        invariant todo <= all && |totals| == pools && totals == P.Tally(pools, producers)
        invariant producers == Partly(s, todo, before, after, last, votes)
        invariant forall q | q in after && q !in todo :: P.Upgraded(s, q) && (voting ==> s.producers[q].active)
        decreases todo
      {
        var q :| q in todo;
        SizeOf(s, q);
        ok := ChangeProducer(q, q in before, q in after, last, votes, voting);
        if !ok {
          assert q in after;
          return;
        }
        OneDone(s, q, todo, before, after, last, votes);
        todo := todo - {q};
      }
      forall q | q in after ensures P.Upgraded(s, q) && (voting ==> s.producers[q].active) {
        assert q !in todo;
      }
      AllDone(s, all, before, after, last, votes);
      return true;
    }

    /** The part of update_pool_votes that moves votes, in the contract's order: the voter's row comes last. */
    method CastVote(n: Name, proxy: Option<Name>, list: seq<Name>, voting: bool) returns (ok: bool)
      requires Ready() && n in voters
      requires Sorted(list) && |list| <= 30
      requires proxy.Some? ==> list == [] && proxy.value != n && !voters[n].isProxy
      requires ProxyAccepted(S(), proxy, voting) && proxy.Some? ==> rank(proxy.value) < rank(n)
      modifies `voters, `producers, `totals
      ensures ok == old(ProxyAccepted(S(), proxy, voting) && Eligible(S(), list, voting))
      ensures ok ==> P.ValidTarget(old(S()), n, proxy, list) && S() == P.UpdateVotes(old(S()), n, proxy, list) && Ready()
    {
      hide P.UpdateVotes, P.Left, P.Tally, Eligible, P.Revote, P.Credit, P.Refresh, P.ValidTarget, P.Value, P.WellFormed, SameRoles;
      ghost var s := S();
      var v := voters[n];
      RowSizes(s, n);
      OwnProducers(s, n);
      var votes := PoolVotesOf(n);
      LeaveProxy(n);
      LeftFacts(s, n);
      ghost var a := S();
      RolesKeys(s, a);
      AcceptedStays(s, a, proxy, voting);
      if proxy.Some? {
        if proxy.value !in voters || (voting && !voters[proxy.value].isProxy) {
          return false;
        }
        CreditGraph(a, proxy.value, votes);
        JoinProxy(proxy.value, votes);
        GraphRoles(a, S());
        RolesTransitive(s, a, S());
      }
      ghost var b := S();
      EligibleStays(s, b, list, voting);
      EligibleStays(s, b, v.producers, false);
      RolesKeys(s, b);
      UpgradedAll(b, v.producers);
      ok := ChangeProducers(v.producers, list, v.last, votes, voting);
      if !ok { return; }
      TargetIsValid(s, n, proxy, list, voting);
      if proxy.Some? {
        CastWithProxy(s, n, proxy.value, votes, b);
      } else {
        CastWithoutProxy(s, n, list, votes);
      }
      voters := voters[n := voters[n].(producers := list, proxy := proxy, last := votes)];
      UpdateTallies(s, n, proxy, list);
    }

    /** update_pool_votes. Repeating the current vote always succeeds; a new vote succeeds if the voter may cast it. */
    method UpdatePoolVotes(n: Name, proxy: Option<Name>, list: seq<Name>, voting: bool) returns (ok: bool)
      requires Ready()
      requires !voting ==> n in voters && proxy == voters[n].proxy && list == voters[n].producers
      modifies `voters, `producers, `totals, `rank
      ensures ok == (!voting || old(P.CanVote(S(), n, proxy, list)))
      ensures ok ==> var s := Start(old(S()), n, proxy, voting);
                     && P.WellFormed(s) && P.ValidTarget(s, n, proxy, list)
                     && S() == P.UpdateVotes(s, n, proxy, list) && Ready()
    {
      ghost var s0 := S();
      if !voting {
        P.RepeatReady(s0, n);
      }
      ok := CheckBallot(n, proxy, list);
      if !ok { return; }
      GetOrCreatePoolVoter(n);
      if proxy.Some? && voters[n].isProxy {
        return false;
      }
      if voting && proxy.Some? && proxy.value in voters && voters[proxy.value].isProxy {
        P.RankedWellFormed(S(), proxy.value);
        rank := ProxyGraph.Lowest(rank, proxy.value);
      }
      ok := CastVote(n, proxy, list, voting);
    }

    ghost predicate Valid()
      reads this
    {
      P.Inv(S())
    }

    method VoteWithPool(n: Name, proxy: Option<Name>, list: seq<Name>) returns (ok: bool)
      requires Valid() && Ready()
      modifies `voters, `producers, `totals, `rank
      ensures ok == old(P.MayVote(S(), n, proxy, list))
      ensures ok ==> old(P.Vote(S(), n, proxy, list)) == Some(S()) && Valid() && Ready()
    {
      hide P.Linked, P.FreshExcept, P.UpdateVotes;
      if P.MayVote(S(), n, proxy, list) {
        VoteKeeps(S(), n, proxy, list);
      }
      if proxy.None? && !(21 <= |list|) {
        return false;
      }
      ok := UpdatePoolVotes(n, proxy, list, true);
    }

    method RegPoolProxy(n: Name, isProxy: bool) returns (ok: bool)
      requires Valid() && Ready()
      modifies `voters, `producers, `totals
      ensures ok == old(P.RegProxy(S(), n, isProxy)).Some?
      ensures ok ==> old(P.RegProxy(S(), n, isProxy)) == Some(S()) && Valid() && Ready()
    {
      hide P.Linked, P.FreshExcept, P.Refresh, P.WellFormed, P.Tally;
      ghost var s := S();
      if P.RegProxy(s, n, isProxy).Some? {
        RegProxyKeeps(s, n, isProxy);
      }
      GetOrCreatePoolVoter(n);
      if isProxy && voters[n].proxy.Some? {
        return false;
      }
      P.RegWellFormed(S(), n, isProxy);
      voters := voters[n := voters[n].(isProxy := isProxy)];
      UpdatePoolProxy(n);
      return true;
    }

    /** The end of every staking action: the owner's vote is repeated with the new shares, which always succeeds. */
    method ChangeStake(n: Name, owned: P.Votes)
      requires Valid() && Ready() && |owned| == pools
      modifies `voters, `producers, `totals, `rank
      ensures old(P.ChangeStake(S(), n, owned)) == Some(S()) && Valid() && Ready()
    {
      hide P.Linked, P.FreshExcept, P.UpdateVotes, P.WellFormed, P.Tally;
      ChangeStakeKeeps(S(), n, owned);
      GetOrCreatePoolVoter(n);
      SetOwnedReady(S(), n, owned);
      voters := voters[n := voters[n].(owned := owned)];
      var ok := UpdatePoolVotes(n, voters[n].proxy, voters[n].producers, false);
      assert ok;
    }

    /** The end of transferstake: both owners' shares have changed before either vote is repeated, which always succeeds. */
    method MoveStake(from: Name, to: Name, ownedFrom: P.Votes, ownedTo: P.Votes)
      requires Valid() && Ready() && from != to && from in voters && |ownedFrom| == |ownedTo| == pools
      modifies `voters, `producers, `totals, `rank
      ensures old(P.MoveStake(S(), from, to, ownedFrom, ownedTo)) == Some(S()) && Valid() && Ready()
    {
      hide P.Linked, P.FreshExcept, P.UpdateVotes, P.WellFormed, P.Tally;
      MoveStakeKeeps(S(), from, to, ownedFrom, ownedTo);
      GetOrCreatePoolVoter(to);
      SetOwnedReady(S(), from, ownedFrom);
      voters := voters[from := voters[from].(owned := ownedFrom)];
      SetOwnedReady(S(), to, ownedTo);
      voters := voters[to := voters[to].(owned := ownedTo)];
      var ok := UpdatePoolVotes(from, voters[from].proxy, voters[from].producers, false);
      assert ok;
      ok := UpdatePoolVotes(to, voters[to].proxy, voters[to].producers, false);
      assert ok;
    }
  }

  lemma SetOwnedReady(s: P.State, n: Name, owned: P.Votes)
    requires P.WellFormed(s) && n in s.voters && |owned| == s.pools
    ensures P.SetOwned(s, n, owned) == P.PutVoter(s, n, s.voters[n].(owned := owned)) && P.WellFormed(P.SetOwned(s, n, owned))
  {
  }

  /** Where an update of votes starts: a new vote may create the voter and ranks the proxy lowest. */
  ghost function Start(s: P.State, n: Name, proxy: Option<Name>, voting: bool): P.State {
    if voting then P.Ranked(P.WithVoter(s, n), proxy) else s
  }

  predicate ProxyAccepted(s: P.State, proxy: Option<Name>, voting: bool) {
    proxy.Some? ==> proxy.value in s.voters && (voting ==> s.voters[proxy.value].isProxy)
  }

  lemma AcceptedStays(s: P.State, r: P.State, proxy: Option<Name>, voting: bool)
    requires SameRoles(s, r)
    ensures ProxyAccepted(r, proxy, voting) == ProxyAccepted(s, proxy, voting)
  {
  }

  lemma RolesKeys(s: P.State, r: P.State)
    requires SameRoles(s, r)
    ensures r.pools == s.pools && r.rank == s.rank && r.voters.Keys == s.voters.Keys
  {
  }

  /** A voter's own producers can always be charged. */
  lemma OwnProducers(s: P.State, n: Name)
    requires P.WellFormed(s) && n in s.voters
    ensures Eligible(s, s.voters[n].producers, false)
  {
    assert P.ValidVoter(s, n, s.voters[n]);
  }

  lemma UpgradedAll(s: P.State, list: seq<Name>)
    requires Eligible(s, list, false)
    ensures forall q | q in list :: P.Upgraded(s, q)
  {
  }

  lemma TargetIsValid(s: P.State, n: Name, proxy: Option<Name>, list: seq<Name>, voting: bool)
    requires n in s.voters && Sorted(list) && |list| <= 30
    requires proxy.Some? ==> list == [] && proxy.value != n && !s.voters[n].isProxy && s.rank(proxy.value) < s.rank(n)
    requires ProxyAccepted(s, proxy, voting) && Eligible(s, list, voting)
    ensures P.ValidTarget(s, n, proxy, list)
  {
  }

  predicate Eligible(s: P.State, after: seq<Name>, voting: bool) {
    forall q | q in after :: P.Upgraded(s, q) && (voting ==> s.producers[q].active)
  }

  /** The producers' votes while those in `todo` are still to be changed. */
  ghost function Partly(s: P.State, todo: set<Name>, before: seq<Name>, after: seq<Name>, last: P.Votes, votes: P.Votes): map<Name, P.Producer>
    requires P.WellFormed(s) && |last| == |votes| == s.pools
  {
    map q | q in s.producers ::
      if q in todo then s.producers[q] else P.Shift(s.producers[q], q in before, q in after, last, votes)
  }

  lemma SizeOf(s: P.State, q: Name)
    requires P.WellFormed(s)
    ensures q in s.producers && s.producers[q].votes.Some? ==> |s.producers[q].votes.value| == s.pools
  {
  }

  lemma ShiftNothing(p: P.Producer, last: P.Votes, votes: P.Votes)
    requires p.votes.Some? ==> |p.votes.value| == |last| == |votes|
    ensures P.Shift(p, false, false, last, votes) == p
  {
  }

  lemma NothingDone(s: P.State, todo: set<Name>, before: seq<Name>, after: seq<Name>, last: P.Votes, votes: P.Votes)
    requires P.WellFormed(s) && |last| == |votes| == s.pools
    requires todo == (set q | q in before) + (set q | q in after)
    ensures Partly(s, todo, before, after, last, votes) == s.producers
  {
    forall q | q in s.producers ensures Partly(s, todo, before, after, last, votes)[q] == s.producers[q] {
      SizeOf(s, q);
      ShiftNothing(s.producers[q], last, votes);
      if q !in todo {
        assert q !in before && q !in after;
      }
    }
  }

  lemma OneDone(s: P.State, q: Name, todo: set<Name>, before: seq<Name>, after: seq<Name>, last: P.Votes, votes: P.Votes)
    requires P.WellFormed(s) && |last| == |votes| == s.pools && q in todo && q in s.producers
    ensures s.producers[q].votes.Some? ==> |s.producers[q].votes.value| == s.pools
    ensures Partly(s, todo - {q}, before, after, last, votes) ==
            Partly(s, todo, before, after, last, votes)[q := P.Shift(s.producers[q], q in before, q in after, last, votes)]
  {
    hide P.Shift;
  }

  lemma AllDone(s: P.State, all: set<Name>, before: seq<Name>, after: seq<Name>, last: P.Votes, votes: P.Votes)
    requires P.WellFormed(s) && |last| == |votes| == s.pools
    ensures Partly(s, {}, before, after, last, votes) == P.Revote(s, before, after, last, votes).producers
  {
    hide P.Shift, P.Tally;
  }

  /** Leaving a proxy before the voter's row is written. */
  lemma LeftImplemented(s: P.State, n: Name)
    requires P.WellFormed(s) && n in s.voters && s.voters[n].proxy.Some?
    requires s.voters[n].proxy.value in s.voters && |s.voters[n].last| == s.pools
    ensures var p := s.voters[n].proxy.value;
            && p in P.Debit(s, p, s.voters[n].last).voters
            && P.Refresh(P.Debit(s, p, s.voters[n].last), p) == P.PutVoter(P.Left(s, n), n, s.voters[n])
  {
    var v, p := s.voters[n], s.voters[n].proxy.value;
    RankOfProxy(s, n);
    var d := P.Debit(s, p, v.last);
    P.SameVoters(s, d);
    LeaveIs(s, n);
    DebitIs(s, n);
    hide P.Refresh, P.SameGraph, P.WellFormed, P.Debit, P.Leave;
    PutBack(d, n, v.(proxy := None));
    RefreshFrame(P.Leave(s, n), p, n, v);
  }

  lemma DebitIs(s: P.State, n: Name)
    requires P.WellFormed(s) && n in s.voters && s.voters[n].proxy.Some?
    requires s.voters[n].proxy.value in s.voters && |s.voters[n].last| == s.pools
    ensures var v, p := s.voters[n], s.voters[n].proxy.value;
            && P.Leave(s, n) == P.PutVoter(P.Debit(s, p, v.last), n, v.(proxy := None))
            && P.Debit(s, p, v.last).voters[n] == v && P.WellFormed(P.Debit(s, p, v.last))
  {
    ProxyDiffers(s, n);
  }

  ghost function Half(s: P.State, q: Name, moved: bool, last: P.Votes, votes: P.Votes): P.Producer
    requires P.WellFormed(s) && q in s.producers && |last| == |votes| == s.pools
  {
    P.Shift(s.producers[q], moved, moved, last, votes)
  }

  lemma TallySize(pools: nat, producers: map<Name, P.Producer>)
    ensures |P.Tally(pools, producers)| == pools
  {
  }

  /** Before the recursion only the voter's own row is still to be written. */
  lemma BeforeRow(s: P.State, n: Name, t: P.State)
    requires P.WellFormed(s) && n in s.voters && s.voters[n].proxy.Some?
    requires var v := s.voters[n];
             && v.proxy.value in s.voters && |s.voters[v.proxy.value].proxied| == |v.last| == |P.Value(v)|
             && t == P.PutVoter(s, v.proxy.value, Credited(s.voters[v.proxy.value], v.last, P.Value(v)))
    ensures t == P.PutVoter(RefreshOne(s, n), n, s.voters[n])
    ensures P.WellFormed(t)
  {
    var v := s.voters[n];
    RowSizes(s, n);
    RankOfProxy(s, n);
    hide P.WellFormed, P.SameGraph, P.Value;
    var row := v.(last := P.Value(v));
    PutLastWellFormed(s, n);
    PassOnFrame(s, v, P.Value(v), n, row);
    PassOnIs(s, v, P.Value(v));
    hide P.PassOn, Credited;
    PutBack(t, n, row);
  }

  lemma PassOnIs(s: P.State, v: P.Voter, votes: P.Votes)
    requires P.WellFormed(s) && v.proxy.Some? && v.proxy.value in s.voters && |v.last| == |votes| == s.pools
    requires |s.voters[v.proxy.value].proxied| == s.pools
    ensures P.PassOn(s, v, votes) == P.PutVoter(s, v.proxy.value, Credited(s.voters[v.proxy.value], v.last, votes))
  {
    hide P.WellFormed, P.SameGraph;
    var p := v.proxy.value;
    var d := s.voters[p].(proxied := P.Sub(s.voters[p].proxied, v.last));
    assert s.voters[p := d][p := Credited(s.voters[p], v.last, votes)] == s.voters[p := Credited(s.voters[p], v.last, votes)];
  }

  lemma PutBack(t: P.State, n: Name, row: P.Voter)
    requires n in t.voters
    ensures P.PutVoter(P.PutVoter(t, n, row), n, t.voters[n]) == t
  {
    assert t.voters[n := row][n := t.voters[n]] == t.voters;
  }

  lemma PutLastWellFormed(s: P.State, n: Name)
    requires P.WellFormed(s) && n in s.voters && |P.Value(s.voters[n])| == s.pools
    ensures P.WellFormed(P.PutVoter(s, n, s.voters[n].(last := P.Value(s.voters[n]))))
  {
  }

  /** After the recursion, writing the row completes the refresh. */
  lemma AfterRow(s: P.State, n: Name, t: P.State)
    requires P.WellFormed(s) && n in s.voters && s.voters[n].proxy.Some? && s.voters[n].proxy.value in s.voters
    requires var before := P.PutVoter(RefreshOne(s, n), n, s.voters[n]);
             P.WellFormed(before) && s.voters[n].proxy.value in before.voters && t == P.Refresh(before, s.voters[n].proxy.value)
    ensures n in t.voters && P.PutVoter(t, n, t.voters[n].(last := P.Value(s.voters[n]))) == P.Refresh(s, n)
  {
    hide RefreshOne, P.Refresh, P.SameGraph, P.WellFormed;
    RowOfLink(s, n);
    LinkRest(s, n);
    RankOfProxy(s, n);
    var r, p := RefreshOne(s, n), s.voters[n].proxy.value;
    RefreshFrame(r, p, n, s.voters[n]);
    RefreshUntouched(r, p, n);
    RefreshUnfolds(s, n);
    var done := P.Refresh(r, p);
    P.SameVoters(r, done);
    assert P.PutVoter(done, n, done.voters[n]) == done by {
      assert done.voters[n := done.voters[n]] == done.voters;
    }
  }

  lemma RowOfLink(s: P.State, n: Name)
    requires P.WellFormed(s) && n in s.voters
    ensures var r, v := RefreshOne(s, n), s.voters[n];
            |v.owned| == |v.proxied| && r.voters.Keys == s.voters.Keys && r.voters[n] == v.(last := P.Value(v))
  {
    OneLinkVoters(s, n);
    RowSizes(s, n);
  }

  lemma RefreshUnfolds(s: P.State, n: Name)
    requires P.WellFormed(s) && n in s.voters
    ensures s.voters[n].proxy.Some? ==>
              s.voters[n].proxy.value in RefreshOne(s, n).voters && P.Refresh(s, n) == P.Refresh(RefreshOne(s, n), s.voters[n].proxy.value)
    ensures s.voters[n].proxy.None? ==> P.Refresh(s, n) == RefreshOne(s, n)
  {
    RankOfProxy(s, n);
    OneLinkVoters(s, n);
    P.SameVoters(s, RefreshOne(s, n));
    hide P.SetLast, P.PassOn, P.SameGraph, OneLink;
  }

  lemma RowAfterProducers(s: P.State, n: Name, t: P.State)
    requires P.WellFormed(s) && n in s.voters && s.voters[n].proxy.None?
    requires |s.voters[n].last| == |P.Value(s.voters[n])| == s.pools
    requires t == P.Revote(s, s.voters[n].producers, s.voters[n].producers, s.voters[n].last, P.Value(s.voters[n]))
    ensures n in t.voters && P.PutVoter(t, n, t.voters[n].(last := P.Value(s.voters[n]))) == P.Refresh(s, n)
  {
    RefreshUnfolds(s, n);
    OneLinkVoters(s, n);
    hide P.Refresh, P.SameGraph, P.Tally, P.Value;
    var v := s.voters[n];
    assert P.PutVoter(t, n, v.(last := P.Value(v))) == RefreshOne(s, n);
  }

  // ----- the contract's order of writing -----

  /** Leaving a proxy changes no role and no registration. */
  ghost predicate SameRoles(s: P.State, r: P.State) {
    && r.pools == s.pools && r.rank == s.rank && r.voters.Keys == s.voters.Keys
    && (forall k | k in s.voters :: r.voters[k].isProxy == s.voters[k].isProxy)
    && r.producers.Keys == s.producers.Keys
    && (forall q | q in s.producers :: r.producers[q].active == s.producers[q].active
                                    && (r.producers[q].votes.Some? <==> s.producers[q].votes.Some?))
  }

  lemma GraphRoles(s: P.State, r: P.State)
    requires P.SameGraph(s, r)
    ensures SameRoles(s, r)
  {
  }

  lemma RolesTransitive(a: P.State, b: P.State, c: P.State)
    requires SameRoles(a, b) && SameRoles(b, c)
    ensures SameRoles(a, c)
  {
  }

  lemma LeaveRoles(s: P.State, n: Name)
    requires P.WellFormed(s) && n in s.voters && s.voters[n].proxy.Some?
    ensures SameRoles(s, P.Leave(s, n))
  {
    LeaveIs(s, n);
    hide P.WellFormed;
  }

  lemma PutRoles(s: P.State, r: P.State, n: Name, row: P.Voter)
    requires SameRoles(s, r) && n in s.voters && row.isProxy == s.voters[n].isProxy
    ensures SameRoles(s, P.PutVoter(r, n, row))
  {
  }

  lemma LeftFacts(s: P.State, n: Name)
    requires P.WellFormed(s) && n in s.voters
    ensures P.WellFormed(P.Left(s, n)) && SameRoles(s, P.Left(s, n))
    ensures n in P.Left(s, n).voters && P.Left(s, n).voters[n] == s.voters[n].(proxy := None)
    ensures SameRoles(s, P.PutVoter(P.Left(s, n), n, s.voters[n]))
  {
    hide SameRoles, P.SameGraph, P.WellFormed, P.Refresh, P.Leave;
    if s.voters[n].proxy.Some? {
      RankOfProxy(s, n);
      LeaveRoles(s, n);
      var l, p := P.Leave(s, n), s.voters[n].proxy.value;
      LeaveIs(s, n);
      RefreshUntouched(l, p, n);
      P.SameVoters(l, P.Refresh(l, p));
      GraphRoles(l, P.Refresh(l, p));
      RolesTransitive(s, l, P.Refresh(l, p));
    } else {
      SelfRoles(s);
    }
    PutRoles(s, P.Left(s, n), n, s.voters[n]);
  }

  lemma SelfRoles(s: P.State)
    ensures SameRoles(s, s)
  {
  }

  lemma UpgradedStays(s: P.State, r: P.State, q: Name)
    requires P.WellFormed(s) && P.WellFormed(r) && SameRoles(s, r)
    ensures P.Upgraded(r, q) <==> P.Upgraded(s, q)
  {
  }

  lemma EligibleStays(s: P.State, r: P.State, list: seq<Name>, voting: bool)
    requires P.WellFormed(s) && P.WellFormed(r) && SameRoles(s, r)
    ensures Eligible(r, list, voting) == Eligible(s, list, voting)
  {
    forall q ensures P.Upgraded(r, q) <==> P.Upgraded(s, q) {
      UpgradedStays(s, r, q);
    }
  }

  /** Writing the row after the producers is the same as writing it before. */
  lemma RevoteFrame(s: P.State, n: Name, row: P.Voter, before: seq<Name>, after: seq<Name>, last: P.Votes, votes: P.Votes)
    requires P.WellFormed(s) && P.WellFormed(P.PutVoter(s, n, row)) && |last| == |votes| == s.pools
    ensures P.Revote(P.PutVoter(s, n, row), before, after, last, votes) == P.PutVoter(P.Revote(s, before, after, last, votes), n, row)
  {
  }

  lemma PutTwice(s: P.State, n: Name, a: P.Voter, b: P.Voter)
    ensures P.PutVoter(P.PutVoter(s, n, a), n, b) == P.PutVoter(s, n, b)
  {
    assert s.voters[n := a][n := b] == s.voters[n := b];
  }

  lemma JoinWellFormed(s: P.State, n: Name, proxy: Option<Name>, list: seq<Name>, votes: P.Votes)
    requires P.WellFormed(s) && P.ValidTarget(s, n, proxy, list) && |votes| == s.pools && s.voters[n].proxy.None?
    ensures P.WellFormed(P.PutVoter(s, n, s.voters[n].(proxy := proxy, producers := list, last := votes)))
  {
  }

  lemma CastWithoutProxy(s: P.State, n: Name, list: seq<Name>, votes: P.Votes)
    requires P.WellFormed(s) && P.ValidTarget(s, n, None, list) && |votes| == s.pools
    requires |s.voters[n].owned| == |s.voters[n].proxied| && votes == P.Value(s.voters[n]) && |s.voters[n].last| == s.pools
    requires P.WellFormed(P.PutVoter(P.Left(s, n), n, s.voters[n])) && P.Left(s, n).pools == s.pools
    ensures var v := s.voters[n];
            var r := P.Revote(P.PutVoter(P.Left(s, n), n, v), v.producers, list, v.last, votes);
            && n in r.voters && r.voters[n] == v
            && P.PutVoter(r, n, v.(producers := list, proxy := None, last := votes)) == P.UpdateVotes(s, n, None, list)
  {
    var v, l := s.voters[n], P.Left(s, n);
    LeftFacts(s, n);
    P.TargetStays(s, n, None, list);
    JoinWellFormed(l, n, None, list, votes);
    hide P.Left, P.WellFormed, P.ValidTarget, P.Value;
    var final := v.(producers := list, proxy := None, last := votes);
    RevoteFrame(l, n, v, v.producers, list, v.last, votes);
    RevoteFrame(l, n, final, v.producers, list, v.last, votes);
    PutTwice(P.Revote(l, v.producers, list, v.last, votes), n, v, final);
  }

  lemma CreditFrame(s: P.State, p: Name, votes: P.Votes, n: Name, row: P.Voter)
    requires P.WellFormed(s) && P.WellFormed(P.PutVoter(s, n, row)) && p in s.voters && p != n && |votes| == s.pools
    ensures p in P.PutVoter(s, n, row).voters
    ensures P.Credit(P.PutVoter(s, n, row), p, votes) == P.PutVoter(P.Credit(s, p, votes), n, row)
    ensures P.WellFormed(P.PutVoter(P.Credit(s, p, votes), n, row))
  {
    RowSizes(s, p);
    hide P.WellFormed, P.SameGraph;
    PutCommutes(s, n, row, p, s.voters[p].(proxied := P.Add(s.voters[p].proxied, votes)));
  }

  /** The state after the new proxy has been credited and refreshed, the voter's row still unwritten. */
  lemma CastWithProxy(s: P.State, n: Name, p: Name, votes: P.Votes, x: P.State)
    requires P.WellFormed(s) && P.ValidTarget(s, n, Some(p), []) && |votes| == s.pools
    requires |s.voters[n].owned| == |s.voters[n].proxied| && votes == P.Value(s.voters[n]) && |s.voters[n].last| == s.pools
    requires var a := P.PutVoter(P.Left(s, n), n, s.voters[n]);
             && P.WellFormed(a) && a.pools == s.pools && p in a.voters && p in P.Credit(a, p, votes).voters
             && x == P.Refresh(P.Credit(a, p, votes), p)
    ensures var v := s.voters[n];
            && P.WellFormed(x) && x.pools == s.pools
            && var r := P.Revote(x, v.producers, [], v.last, votes);
               && n in r.voters && r.voters[n] == v
               && P.PutVoter(r, n, v.(producers := [], proxy := Some(p), last := votes)) == P.UpdateVotes(s, n, Some(p), [])
  {
    hide P.Left, P.WellFormed, P.ValidTarget, P.Value, P.Refresh, P.SameGraph, P.Revote, P.Credit, SameRoles, P.Join, P.UpdateVotes;
    TargetRank(s, n, p);
    var v, l := s.voters[n], P.Left(s, n);
    LeftFacts(s, n);
    P.TargetStays(s, n, Some(p), []);
    JoinWellFormed(l, n, Some(p), [], votes);
    TargetRank(l, n, p);
    UpdateUnfolds(s, n, p);
    JoinUnfolds(l, n, p, votes);
    var final := v.(producers := [], proxy := Some(p), last := votes);
    var a := P.PutVoter(l, n, v);
    PutTwice(l, n, v, final);
    CreditFrame(a, p, votes, n, final);
    CreditKeepsRow(a, p, votes, n);
    CreditGraph(a, p, votes);
    FinishCast(P.Credit(a, p, votes), n, p, v, final, x, v.last, votes);
  }

  lemma UpdateUnfolds(s: P.State, n: Name, p: Name)
    requires P.WellFormed(s) && P.ValidTarget(s, n, Some(p), [])
    ensures var l := P.Left(s, n);
            && P.WellFormed(l) && P.ValidTarget(l, n, Some(p), []) && l.voters[n].proxy.None?
            && |s.voters[n].owned| == |s.voters[n].proxied| && |P.Value(s.voters[n])| == l.pools
            && var j := P.Join(l, n, Some(p), [], P.Value(s.voters[n]));
               p in j.voters && P.UpdateVotes(s, n, Some(p), []) == P.Refresh(j, p)
  {
    P.TargetStays(s, n, Some(p), []);
    RowSizes(s, n);
    hide P.Refresh, P.Join, P.Left;
  }

  lemma JoinUnfolds(l: P.State, n: Name, p: Name, votes: P.Votes)
    requires P.WellFormed(l) && P.ValidTarget(l, n, Some(p), []) && l.voters[n].proxy.None? && |votes| == l.pools
    ensures var v := l.voters[n];
            var b := P.PutVoter(l, n, v.(proxy := Some(p), producers := [], last := votes));
            && P.WellFormed(b) && p in b.voters && |v.last| == l.pools
            && P.Join(l, n, Some(p), [], votes) == P.Revote(P.Credit(b, p, votes), v.producers, [], v.last, votes)
  {
    JoinWellFormed(l, n, Some(p), [], votes);
    RowSizes(l, n);
    hide P.Revote, P.Credit;
  }

  lemma CreditGraph(s: P.State, p: Name, votes: P.Votes)
    requires P.WellFormed(s) && p in s.voters && |votes| == s.pools
    ensures P.Credit(s, p, votes).pools == s.pools && P.Credit(s, p, votes).rank == s.rank
  {
  }

  /** The final row written before or after refreshing the proxy and charging the producers. */
  lemma FinishCast(ca: P.State, n: Name, p: Name, v: P.Voter, final: P.Voter, x: P.State, last: P.Votes, votes: P.Votes)
    requires P.WellFormed(ca) && p in ca.voters && x == P.Refresh(ca, p)
    requires n in ca.voters && ca.voters[n] == v && ca.rank(p) < ca.rank(n)
    requires P.WellFormed(P.PutVoter(ca, n, final)) && |last| == |votes| == ca.pools
    ensures P.WellFormed(x) && x.pools == ca.pools
    ensures var cb := P.PutVoter(ca, n, final);
            p in P.Revote(cb, v.producers, [], last, votes).voters
    ensures var r := P.Revote(x, v.producers, [], last, votes);
            && n in r.voters && r.voters[n] == v
            && P.PutVoter(r, n, final) == P.Refresh(P.Revote(P.PutVoter(ca, n, final), v.producers, [], last, votes), p)
  {
    hide P.WellFormed, P.Refresh, P.SameGraph, P.Revote;
    var cb := P.PutVoter(ca, n, final);
    RefreshFrame(ca, p, n, final);
    RefreshUntouched(ca, p, n);
    P.SameVoters(ca, x);
    RefreshRevote(cb, p, v.producers, [], last, votes);
    RevoteFrame(x, n, final, v.producers, [], last, votes);
    RevoteKeepsVoters(x, v.producers, [], last, votes);
  }

  lemma RevoteKeepsVoters(s: P.State, before: seq<Name>, after: seq<Name>, last: P.Votes, votes: P.Votes)
    requires P.WellFormed(s) && |last| == |votes| == s.pools
    ensures P.Revote(s, before, after, last, votes).voters == s.voters
  {
  }

  lemma CreditKeepsRow(s: P.State, p: Name, votes: P.Votes, n: Name)
    requires P.WellFormed(s) && p in s.voters && n in s.voters && p != n && |votes| == s.pools
    ensures n in P.Credit(s, p, votes).voters && P.Credit(s, p, votes).voters[n] == s.voters[n]
  {
  }

  lemma TargetRank(s: P.State, n: Name, p: Name)
    requires P.ValidTarget(s, n, Some(p), [])
    ensures n in s.voters && p in s.voters && p != n && s.rank(p) < s.rank(n)
  {
  }

  /** A vote ends with totals that add up. */
  lemma UpdateTallies(s: P.State, n: Name, proxy: Option<Name>, list: seq<Name>)
    requires P.WellFormed(s) && P.ValidTarget(s, n, proxy, list)
    ensures var r := P.UpdateVotes(s, n, proxy, list); P.WellFormed(r) && r.totals == P.Tally(r.pools, r.producers)
  {
    hide P.Left, P.Join;
    P.TargetStays(s, n, proxy, list);
    TargetInTable(s, n, proxy, list);
    RowSizes(s, n);
    var j := P.Join(P.Left(s, n), n, proxy, list, P.Value(s.voters[n]));
    JoinTallies(P.Left(s, n), n, proxy, list, P.Value(s.voters[n]));
    if proxy.Some? {
      RefreshTallies(j, proxy.value);
    }
  }

  lemma JoinTallies(s: P.State, n: Name, proxy: Option<Name>, list: seq<Name>, votes: P.Votes)
    requires P.WellFormed(s) && P.ValidTarget(s, n, proxy, list) && s.voters[n].proxy.None? && |votes| == s.pools
    ensures var r := P.Join(s, n, proxy, list, votes); r.totals == P.Tally(r.pools, r.producers)
  {
    JoinIs(s, n, proxy, list, votes);
  }

  lemma {:induction false} RefreshTallies(s: P.State, n: Name)
    requires P.WellFormed(s) && n in s.voters && s.totals == P.Tally(s.pools, s.producers)
    ensures var r := P.Refresh(s, n); r.totals == P.Tally(r.pools, r.producers)
    decreases s.rank(n)
  {
    RefreshUnfolds(s, n);
    OneLinkVoters(s, n);
    LinkRest(s, n);
    RankOfProxy(s, n);
    hide P.Refresh, P.SameGraph;
    if s.voters[n].proxy.Some? {
      RefreshTallies(RefreshOne(s, n), s.voters[n].proxy.value);
    }
  }
}
