/** Proxies in stake-weighted voting, in the contract's own order: the voter's row is written last, after the recursion.
    Proved against module Voting. */
module VotingContract {
  import opened Tables
  import opened Resources
  import opened Ballots
  import ProxyGraph
  import V = Voting

  /** What the contract has written when it recurses: the proxy's row, not yet the voter's own. */
  function Passed(voters: V.Voters, n: Name, factor: real): V.Voters
    requires n in voters && voters[n].proxy.Some? && voters[n].proxy.value in voters
  {
    V.Proxied(voters, voters[n].proxy.value, V.Weight(voters[n], factor) - voters[n].last)
  }

  lemma LinkIsPut(voters: V.Voters, n: Name, factor: real, rank: Name -> nat)
    requires V.WellFormed(voters, rank) && n in voters && V.Passes(voters[n], factor)
    requires voters[n].proxy.value in voters && voters[n].proxy.value != n
    ensures V.Link(voters, n, factor, rank) == Passed(voters, n, factor)[n := voters[n].(last := V.Weight(voters[n], factor))]
  {
    hide V.Weight, V.Abs;
  }

  lemma PassedWellFormed(voters: V.Voters, n: Name, factor: real, rank: Name -> nat)
    requires V.WellFormed(voters, rank) && n in voters && V.Passes(voters[n], factor)
    ensures voters[n].proxy.value in voters && rank(voters[n].proxy.value) < rank(n)
    ensures var m, row := Passed(voters, n, factor), voters[n].(last := V.Weight(voters[n], factor));
            n in m && V.WellFormed(m, rank) && V.WellFormed(m[n := row], rank) && V.Link(voters, n, factor, rank) == m[n := row]
  {
    V.ProxyBelow(voters, n, rank);
    V.ProxiedKeeps(voters, voters[n].proxy.value, V.Weight(voters[n], factor) - voters[n].last, rank);
    LinkIsPut(voters, n, factor, rank);
    hide V.Weight, V.Abs, V.Link, V.WellFormed;
  }

  /** Writing the row after the recursion is the same as writing it before. */
  lemma RowLast(voters: V.Voters, n: Name, factor: real, rank: Name -> nat)
    requires V.WellFormed(voters, rank) && n in voters && V.Passes(voters[n], factor)
    requires voters[n].proxy.value in voters && rank(voters[n].proxy.value) < rank(n)
    requires V.WellFormed(Passed(voters, n, factor), rank)
    ensures var v, r := voters[n], V.Propagate(Passed(voters, n, factor), voters[n].proxy.value, factor, rank);
            n in r && r[n] == v && r[n := v.(last := V.Weight(v, factor))] == V.Propagate(voters, n, factor, rank)
  {
    PassedWellFormed(voters, n, factor, rank);
    var v, p, m := voters[n], voters[n].proxy.value, Passed(voters, n, factor);
    hide V.WellFormed, V.Link, V.Abs, V.Weight;
    V.PropagateFrame(m, p, n, v.(last := V.Weight(v, factor)), factor, rank);
    V.AboveUntouched(m, p, n, factor, rank);
  }

  class VotingContract {
    var voters: V.Voters
    /** Evidence that the recursion through proxies ends. */
    ghost var rank: Name -> nat

    ghost function S(): V.State
      reads this
    {
      V.State(voters, rank)
    }

    ghost predicate Valid()
      reads this
    {
      V.Valid(S())
    }

    constructor ()
      ensures Valid() && voters == map[]
    {
      voters := map[];
      rank := n => 0;
    }

    /** propagate_weight_change, up to the tallies of producers. */
    method PropagateWeightChange(n: Name, factor: real)
      requires V.WellFormed(voters, rank) && n in voters
      modifies `voters
      ensures V.WellFormed(old(voters), rank) && voters == V.Propagate(old(voters), n, factor, rank)
      ensures V.WellFormed(voters, rank)
      decreases rank(n)
    {
      hide V.WellFormed, V.SameGraph, V.OnChain;
      var v := voters[n];
      if v.proxy.Some? {
        V.ProxyBelow(voters, n, rank);
      }
      assert !(v.proxy.Some? && v.isProxy);
      var newWeight := v.staked as real * factor;
      if v.isProxy {
        newWeight := newWeight + v.proxied;
      }
      assert newWeight == V.Weight(v, factor);
      if V.Abs(newWeight - v.last) > 1.0 && v.proxy.Some? {
        var p := v.proxy.value;
        PassedWellFormed(voters, n, factor, rank);
        RowLast(voters, n, factor, rank);
        AddProxied(p, newWeight - v.last);
        PropagateWeightChange(p, factor);
      }
      voters := voters[n := voters[n].(last := newWeight)];
    }

    method AddProxied(p: Name, delta: real)
      requires p in voters
      modifies `voters
      ensures voters == V.Proxied(old(voters), p, delta)
    {
      voters := voters[p := voters[p].(proxied := voters[p].proxied + delta)];
    }

    /** The weights move, and last of all the voter's own row is written. */
    method MoveVote(n: Name, proxy: Option<Name>, producers: seq<Name>, factor: real)
      requires V.WellFormed(voters, rank) && n in voters
      requires proxy.Some? ==> proxy.value in voters && rank(proxy.value) < rank(n) && !voters[n].isProxy
      modifies `voters
      ensures V.WellFormed(old(voters), rank) && voters == V.UpdateVotes(old(voters), n, proxy, producers, factor, rank)
      ensures V.WellFormed(voters, rank) && n in voters && voters[n].proxy == proxy && voters[n].producers == producers
    {
      hide V.WellFormed, V.Propagate, V.SameGraph;
      ghost var before := voters;
      var v := voters[n];
      var newWeight := v.staked as real * factor;
      if v.isProxy {
        newWeight := newWeight + v.proxied;
      }
      assert newWeight == V.Weight(v, factor);
      if v.last > 0.0 && v.proxy.Some? {
        V.ProxyBelow(voters, n, rank);
        V.ProxiedKeeps(voters, v.proxy.value, -v.last, rank);
        AddProxied(v.proxy.value, -v.last);
        V.SameKeys(before, voters);
        PropagateWeightChange(v.proxy.value, factor);
      }
      V.SameKeys(before, V.Left(before, n, factor, rank));
      assert voters == V.Left(before, n, factor, rank);
      ghost var l := voters;
      if proxy.Some? && newWeight >= 0.0 {
        V.ProxiedKeeps(voters, proxy.value, newWeight, rank);
        AddProxied(proxy.value, newWeight);
        V.SameKeys(l, voters);
        PropagateWeightChange(proxy.value, factor);
      }
      V.SameKeys(l, V.Joined(l, proxy, newWeight, factor, rank));
      assert voters == V.Joined(l, proxy, newWeight, factor, rank);
      voters := voters[n := voters[n].(last := newWeight, producers := producers, proxy := proxy)];
    }

    /** update_votes, up to the tallies of producers; `registered` stands for what it asks of the producers. */
    method UpdateVotes(n: Name, proxy: Option<Name>, producers: seq<Name>, voting: bool, registered: bool, factor: real) returns (ok: bool)
      requires Valid()
      requires !voting ==> registered && n in voters && proxy == voters[n].proxy && producers == voters[n].producers
      modifies `voters, `rank
      ensures ok == old(V.MayVote(voters, n, proxy, producers, voting, registered)) && (!voting ==> ok)
      ensures ok ==> && rank == old(if voting then V.Ranked(S(), proxy).rank else rank) && Valid()
                     && V.WellFormed(old(voters), rank) && V.Aim(old(voters), n, proxy, rank)
                     && voters == V.UpdateVotes(old(voters), n, proxy, producers, factor, rank)
                     && n in voters && voters[n].proxy == proxy && voters[n].producers == producers
    {
      if !voting {
        V.RepeatIsAllowed(S(), n);
      }
      ok := CheckBallot(n, proxy, producers);
      if !ok || n !in voters || (proxy.Some? && voters[n].isProxy) {
        return false;
      }
      if (proxy.Some? && (proxy.value !in voters || (voting && !voters[proxy.value].isProxy))) || !registered {
        return false;
      }
      ghost var before := S();
      if voting {
        V.RankedKeeps(S(), proxy);
        if proxy.Some? {
          rank := ProxyGraph.Lowest(rank, proxy.value);
        }
      } else if proxy.Some? {
        V.ProxyBelow(voters, n, rank);
      }
      V.UpdateKeeps(S(), n, proxy, producers, factor);
      MoveVote(n, proxy, producers, factor);
      return true;
    }

    /** voteproducer once the voter's REX has been revalued; `holdsRex` is whether the voter has a balance of REX. */
    method VoteProducer(n: Name, proxy: Option<Name>, producers: seq<Name>, registered: bool, holdsRex: bool, factor: real)
      returns (ok: bool)
      requires Valid()
      modifies `voters, `rank
      ensures ok == old(V.Vote(S(), n, proxy, producers, registered, holdsRex, factor)).Some?
      ensures ok ==> old(V.Vote(S(), n, proxy, producers, registered, holdsRex, factor)) == Some(S()) && Valid()
    {
      hide V.WellFormed, V.UpdateVotes;
      ok := UpdateVotes(n, proxy, producers, true, registered, factor);
      if ok && holdsRex && !(voters[n].proxy.Some? || 21 <= |voters[n].producers|) {
        return false;
      }
    }

    /** update_voting_power: the voter's recorded vote is repeated with the new stake. */
    method UpdateVotingPower(n: Name, delta: int, vested: bool, factor: real) returns (ok: bool)
      requires Valid()
      modifies `voters, `rank
      ensures ok == old(V.Restake(S(), n, delta, vested, factor)).Some?
      ensures ok ==> old(V.Restake(S(), n, delta, vested, factor)) == Some(S()) && Valid()
    {
      hide V.WellFormed, V.HasBallots, V.UpdateVotes, V.MayVote, V.Aim;
      V.WithStakeKeeps(voters, n, delta, rank);
      if n !in voters {
        voters := voters[n := V.Voter(delta, 0.0, 0.0, None, [], false)];
      } else {
        voters := voters[n := voters[n].(staked := voters[n].staked + delta)];
      }
      if !(0 <= voters[n].staked) || (n == B1 && !vested) {
        return false;
      }
      if |voters[n].producers| != 0 || voters[n].proxy.Some? {
        ok := UpdateVotes(n, voters[n].proxy, voters[n].producers, false, true, factor);
        return;
      }
      return true;
    }

    method RegProxy(n: Name, isProxy: bool, factor: real) returns (ok: bool)
      requires Valid()
      modifies `voters
      ensures ok == old(V.RegProxy(S(), n, isProxy, factor)).Some?
      ensures ok ==> old(V.RegProxy(S(), n, isProxy, factor)) == Some(S()) && Valid()
    {
      if n !in voters {
        voters := voters[n := V.Voter(0, 0.0, 0.0, None, [], isProxy)];
        return true;
      }
      if isProxy == voters[n].isProxy || (isProxy && voters[n].proxy.Some?) {
        return false;
      }
      V.RoleKeeps(voters, n, isProxy, rank);
      voters := voters[n := voters[n].(isProxy := isProxy)];
      ghost var before := voters;
      PropagateWeightChange(n, factor);
      V.SameBallots(before, voters);
      return true;
    }
  }
}
