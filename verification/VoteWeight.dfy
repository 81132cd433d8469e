/** Where the votes of a share end up. A voter's vote passes to the voter's proxy, and so on along the chain; what reaches
    the end counts there once, and what reaches an account that has stopped being a proxy is stranded. */
module VoteWeight {
  import opened Tables
  import opened Totals
  import opened Resources
  import opened PoolVotes
  import opened PoolVotesInvariants

  ghost function OwnedAt(i: nat): (Name, Voter) -> real {
    (n: Name, v: Voter) => if i < |v.owned| then v.owned[i] else 0.0
  }

  ghost function LastAt(i: nat): (Name, Voter) -> real {
    (n: Name, v: Voter) => if i < |v.last| then v.last[i] else 0.0
  }

  ghost function ProxiedAt(i: nat): (Name, Voter) -> real {
    (n: Name, v: Voter) => if i < |v.proxied| then v.proxied[i] else 0.0
  }

  /** Votes that go to producers, or nowhere. */
  ghost function Direct(i: nat): (Name, Voter) -> real {
    (n: Name, v: Voter) => if v.proxy.None? && i < |v.last| then v.last[i] else 0.0
  }

  ghost function ViaProxy(i: nat): (Name, Voter) -> real {
    (n: Name, v: Voter) => if v.proxy.Some? && i < |v.last| then v.last[i] else 0.0
  }

  /** Votes passed to an account that is no proxy any more. */
  ghost function Stranded(i: nat): (Name, Voter) -> real {
    (n: Name, v: Voter) => if !v.isProxy && i < |v.proxied| then v.proxied[i] else 0.0
  }

  ghost function PassedOn(i: nat): (Name, Voter) -> real {
    (n: Name, v: Voter) => if v.isProxy && i < |v.proxied| then v.proxied[i] else 0.0
  }

  // ----- proxied shares, counted by voter and by proxy -----

  /** What the voters in `behind` pass to each account. */
  ghost function BehindAll(behind: map<Name, Voter>, i: nat): (Name, Voter) -> real {
    (p: Name, v: Voter) => Total(behind, Behind(p, i))
  }

  /** What one voter passes to each account. */
  ghost function BehindOne(n: Name, row: Voter, i: nat): (Name, Voter) -> real {
    (p: Name, v: Voter) => if row.proxy == Some(p) && i < |row.last| then row.last[i] else 0.0
  }

  lemma OneVoterPasses(voters: map<Name, Voter>, n: Name, row: Voter, i: nat)
    requires row.proxy.Some? ==> row.proxy.value in voters
    ensures Total(voters, BehindOne(n, row, i)) == ViaProxy(i)(n, row)
  {
    if row.proxy.Some? {
      var p := row.proxy.value;
      TotalRemove<Name, Voter>(voters, p, BehindOne(n, row, i));
      TotalZero<Name, Voter>(voters - {p}, BehindOne(n, row, i));
    } else {
      TotalZero<Name, Voter>(voters, BehindOne(n, row, i));
    }
  }

  /** Counted by proxy or by voter, the total passed on is the same. */
  lemma {:induction false} ProxiedTwice(voters: map<Name, Voter>, behind: map<Name, Voter>, i: nat)
    requires forall n | n in behind && behind[n].proxy.Some? :: behind[n].proxy.value in voters
    ensures Total(voters, BehindAll(behind, i)) == Total(behind, ViaProxy(i))
    decreases behind.Keys
  {
    if behind == map[] {
      TotalZero<Name, Voter>(voters, BehindAll(behind, i));
    } else {
      var n :| n in behind && Total(behind, ViaProxy(i)) == ViaProxy(i)(n, behind[n]) + Total(behind - {n}, ViaProxy(i));
      ProxiedTwice(voters, behind - {n}, i);
      OneVoterPasses(voters, n, behind[n], i);
      forall p | p in voters
        ensures BehindAll(behind, i)(p, voters[p]) == BehindOne(n, behind[n], i)(p, voters[p]) + BehindAll(behind - {n}, i)(p, voters[p])
      {
        TotalRemove<Name, Voter>(behind, n, Behind(p, i));
        assert BehindAll(behind, i)(p, voters[p]) == Total(behind, Behind(p, i));
      }
      TotalSum<Name, Voter>(voters, BehindOne(n, behind[n], i), BehindAll(behind - {n}, i), BehindAll(behind, i));
    }
  }

  lemma ProxiedIsPassed(s: State, i: nat)
    requires Inv(s) && i < s.pools
    ensures Total(s.voters, ProxiedAt(i)) == Total(s.voters, ViaProxy(i))
  {
    forall n | n in s.voters && s.voters[n].proxy.Some? ensures s.voters[n].proxy.value in s.voters {
      assert ValidVoter(s, n, s.voters[n]);
    }
    ProxiedTwice(s.voters, s.voters, i);
    forall p | p in s.voters ensures ProxiedAt(i)(p, s.voters[p]) == BehindAll(s.voters, i)(p, s.voters[p]) {
      RowSizes(s, p);
    }
    TotalSame<Name, Voter>(s.voters, ProxiedAt(i), BehindAll(s.voters, i));
  }

  /** Every share owned counts exactly once: at the end of its owner's chain, or stranded on the way. */
  lemma EveryShareOnce(s: State, i: nat)
    requires Inv(s) && i < s.pools
    ensures Total(s.voters, OwnedAt(i)) == Total(s.voters, Direct(i)) + Total(s.voters, Stranded(i))
  {
    ProxiedIsPassed(s, i);
    forall n | n in s.voters ensures LastAt(i)(n, s.voters[n]) == OwnedAt(i)(n, s.voters[n]) + PassedOn(i)(n, s.voters[n]) {
      RowSizes(s, n);
    }
    TotalSum<Name, Voter>(s.voters, OwnedAt(i), PassedOn(i), LastAt(i));
    TotalSum<Name, Voter>(s.voters, Direct(i), ViaProxy(i), LastAt(i));
    TotalSum<Name, Voter>(s.voters, PassedOn(i), Stranded(i), ProxiedAt(i));
  }

  // ----- no vote is negative -----

  ghost predicate RanksUpTo(voters: map<Name, Voter>, rank: Name -> nat, bound: nat) {
    forall n | n in voters :: rank(n) <= bound
  }

  lemma {:induction false} RanksAreBounded(voters: map<Name, Voter>, rank: Name -> nat) returns (bound: nat)
    ensures RanksUpTo(voters, rank, bound)
    decreases voters.Keys
  {
    bound := 0;
    if voters != map[] {
      var n :| n in voters;
      var b := RanksAreBounded(voters - {n}, rank);
      bound := if b <= rank(n) then rank(n) else b;
      forall m | m in voters ensures rank(m) <= bound {
        assert m == n || m in voters - {n};
      }
    }
  }

  ghost predicate OwnsNoDebt(s: State) {
    forall n, i: nat | n in s.voters && i < |s.voters[n].owned| :: 0.0 <= s.voters[n].owned[i]
  }

  /** Those behind a voter rank above the voter, so their votes are settled first. */
  lemma {:induction false} VotesNonNegative(s: State, n: Name, i: nat, bound: nat)
    requires Inv(s) && OwnsNoDebt(s) && RanksUpTo(s.voters, s.rank, bound) && n in s.voters && i < s.pools
    ensures 0.0 <= LastAt(i)(n, s.voters[n]) && 0.0 <= ProxiedAt(i)(n, s.voters[n])
    decreases bound - s.rank(n)
  {
    RowSizes(s, n);
    forall m | m in s.voters ensures 0.0 <= Behind(n, i)(m, s.voters[m]) {
      if s.voters[m].proxy == Some(n) {
        assert ValidVoter(s, m, s.voters[m]);
        VotesNonNegative(s, m, i, bound);
      }
    }
    TotalNonNegative<Name, Voter>(s.voters, Behind(n, i));
  }

  lemma AllVotesNonNegative(s: State, i: nat)
    requires Inv(s) && OwnsNoDebt(s) && i < s.pools
    ensures forall n | n in s.voters :: 0.0 <= LastAt(i)(n, s.voters[n]) && 0.0 <= ProxiedAt(i)(n, s.voters[n])
  {
    var bound := RanksAreBounded(s.voters, s.rank);
    forall n | n in s.voters ensures 0.0 <= LastAt(i)(n, s.voters[n]) && 0.0 <= ProxiedAt(i)(n, s.voters[n]) {
      VotesNonNegative(s, n, i, bound);
    }
  }

  /** No producer has more votes in a pool than there are shares in it, and none has fewer than zero. */
  lemma ProducerVotesBounded(s: State, q: Name, i: nat)
    requires Inv(s) && OwnsNoDebt(s) && i < s.pools && q in s.producers && s.producers[q].votes.Some?
    ensures |s.producers[q].votes.value| == s.pools
    ensures 0.0 <= s.producers[q].votes.value[i] <= Total(s.voters, OwnedAt(i))
    ensures 0.0 <= Total(s.voters, Stranded(i))
  {
    ProducerSizes(s, q);
    AllVotesNonNegative(s, i);
    EveryShareOnce(s, i);
    TotalNonNegative<Name, Voter>(s.voters, Backing(q, i));
    TotalAtMost<Name, Voter>(s.voters, Backing(q, i), Direct(i));
    TotalNonNegative<Name, Voter>(s.voters, Stranded(i));
  }
}
