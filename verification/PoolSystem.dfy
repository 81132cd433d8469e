/** Staking pools and pool votes together. They share the pool_voter table: the shares an owner holds in each pool are
    the shares the owner votes with, so every action on stake is followed by a repetition of the owner's vote. */
module PoolSystem {
  import opened Tables
  import opened Totals
  import opened Resources
  import S = StakingPools
  import SI = StakingInvariants
  import SG = StakingGuarantees
  import V = PoolVotes
  import VI = PoolVotesInvariants
  import W = VoteWeight

  datatype Chain = Chain(pools: S.State, votes: V.State)

  datatype Action =
    | Stake(owner: Name, pool: nat, amount: int)
    | Claim(owner: Name, pool: nat, requested: int)
    | Transfer(owner: Name, to: Name, pool: nat, requested: int)
    | Upgrade(owner: Name, pool: nat, toPool: nat, requested: int)
    | Vote(owner: Name, proxy: Option<Name>, producers: seq<Name>)
    | RegProxy(owner: Name, isProxy: bool)
    | Enable(producer: Name)
    | Deactivate(producer: Name)
    | Fee(amount: int, partial: bool)
    | Namebid(bid: int)
    | Pay(perPool: int)
    | Cfg(begin: Option<int>, end: Option<int>, minCreate: Option<int>)
    | Advance(slot: int)

  /** The requirement for claiming: a proxy, or at least 21 producers. */
  predicate MeetsRequirement(votes: V.State, owner: Name) {
    owner in votes.voters && (votes.voters[owner].proxy.Some? || 21 <= |votes.voters[owner].producers|)
  }

  /** The pools' side of an action; voting creates the voter's row in the shared table. */
  function OnPools(c: Chain, a: Action): Option<S.State>
    requires S.Shaped(c.pools)
  {
    match a
    case Stake(owner, i, amount) => S.StakeToPool(c.pools, owner, i, amount)
    case Claim(owner, i, requested) => S.ClaimStake(c.pools, owner, i, requested, MeetsRequirement(c.votes, owner))
    case Transfer(owner, to, i, requested) => S.TransferStake(c.pools, owner, to, i, requested)
    case Upgrade(owner, i, j, requested) => S.UpgradeStake(c.pools, owner, i, j, requested)
    case Vote(owner, _, _) => Some(WithRow(c.pools, owner))
    case RegProxy(owner, _) => Some(WithRow(c.pools, owner))
    case Enable(_) => Some(c.pools)
    case Deactivate(_) => Some(c.pools)
    case Fee(amount, partial) => S.ChannelFee(c.pools, amount, partial)
    case Namebid(bid) => S.ChannelNamebid(c.pools, bid)
    case Pay(perPool) => S.VoterPay(c.pools, perPool)
    case Cfg(begin, end, minCreate) => S.Configure(c.pools, begin, end, minCreate)
    case Advance(slot) => if c.pools.slot <= slot then Some(c.pools.(slot := slot)) else None
  }

  function WithRow(s: S.State, n: Name): S.State {
    s.(voters := s.voters[n := S.VoterOf(s, n)])
  }

  function SharesOf(s: S.State, n: Name): V.Votes {
    if n in s.voters then s.voters[n].owned else []
  }

  /** The votes' side, once the pools have changed to `p`. */
  ghost function OnVotes(c: Chain, a: Action, p: S.State): Option<V.State>
    requires V.WellFormed(c.votes)
  {
    match a
    case Stake(owner, _, _) => V.ChangeStake(c.votes, owner, SharesOf(p, owner))
    case Claim(owner, _, _) => V.ChangeStake(c.votes, owner, SharesOf(p, owner))
    case Transfer(owner, to, _, _) => V.MoveStake(c.votes, owner, to, SharesOf(p, owner), SharesOf(p, to))
    case Upgrade(owner, _, _, _) => V.ChangeStake(c.votes, owner, SharesOf(p, owner))
    case Vote(owner, proxy, producers) => V.Vote(c.votes, owner, proxy, producers)
    case RegProxy(owner, isProxy) => V.RegProxy(c.votes, owner, isProxy)
    case Enable(q) => Some(V.EnableProducer(c.votes, q))
    case Deactivate(q) => V.DeactivateProducer(c.votes, q)
    case _ => Some(c.votes)
  }

  /** A failure on either side aborts the whole action. */
  ghost function Step(c: Chain, a: Action): Option<Chain>
    requires S.Shaped(c.pools) && V.WellFormed(c.votes)
  {
    var p :- OnPools(c, a);
    var v :- OnVotes(c, a, p);
    Some(Chain(p, v))
  }

  // ----- the shared table -----

  /** Both sides see the same rows and the same shares. */
  predicate Shared(c: Chain) {
    && c.votes.pools == |c.pools.pools| && c.votes.voters.Keys == c.pools.voters.Keys
    && forall n | n in c.pools.voters :: c.votes.voters[n].owned == c.pools.voters[n].owned
  }

  ghost predicate Inv(c: Chain) {
    SG.Funded(c.pools) && V.Inv(c.votes) && Shared(c)
  }

  /** The same producers, as active and as upgraded as before. */
  predicate SameRegistration(p: map<Name, V.Producer>, r: map<Name, V.Producer>) {
    && r.Keys == p.Keys
    && forall q | q in p :: r[q].active == p[q].active && (r[q].votes.Some? <==> p[q].votes.Some?)
  }

  lemma RegistrationTransitive(a: map<Name, V.Producer>, b: map<Name, V.Producer>, c: map<Name, V.Producer>)
    requires SameRegistration(a, b) && SameRegistration(b, c)
    ensures SameRegistration(a, c)
  {
  }

  /** The rows of `s` and those of `touched`, with shares that changed for `touched` only. */
  ghost predicate SharesStay(s: V.State, r: V.State, touched: set<Name>) {
    && r.pools == s.pools && r.voters.Keys == s.voters.Keys + touched && SameRegistration(s.producers, r.producers)
    && forall n | n in s.voters && n !in touched :: r.voters[n].owned == s.voters[n].owned
  }

  lemma GraphKeepsShares(s: V.State, r: V.State)
    requires V.SameGraph(s, r)
    ensures SharesStay(s, r, {}) && forall n | n in s.voters :: r.voters[n].owned == s.voters[n].owned
  {
  }

  lemma LeftKeepsShares(s: V.State, n: Name)
    requires V.WellFormed(s) && n in s.voters
    ensures V.WellFormed(V.Left(s, n)) && SharesStay(s, V.Left(s, n), {})
  {
    if s.voters[n].proxy.Some? {
      var l := V.Leave(s, n);
      assert SharesStay(s, l, {});
      GraphKeepsShares(l, V.Refresh(l, s.voters[n].proxy.value));
    }
  }

  lemma JoinKeepsShares(s: V.State, n: Name, proxy: Option<Name>, producers: seq<Name>, votes: V.Votes)
    requires V.WellFormed(s) && V.ValidTarget(s, n, proxy, producers) && s.voters[n].proxy.None? && |votes| == s.pools
    ensures SharesStay(s, V.Join(s, n, proxy, producers, votes), {})
  {
    hide V.ValidVoter, V.Tally, V.Shift;
  }

  lemma UpdateKeepsShares(s: V.State, n: Name, proxy: Option<Name>, producers: seq<Name>)
    requires V.WellFormed(s) && V.ValidTarget(s, n, proxy, producers)
    ensures SharesStay(s, V.UpdateVotes(s, n, proxy, producers), {})
  {
    hide V.WellFormed, V.ValidTarget, V.Left, V.Join, V.Refresh, V.SameGraph;
    TargetIsThere(s, n, proxy, producers);
    LeftKeepsShares(s, n);
    V.TargetStays(s, n, proxy, producers);
    VI.RowSizes(s, n);
    var l, votes := V.Left(s, n), V.Value(s.voters[n]);
    JoinKeepsShares(l, n, proxy, producers, votes);
    var j := V.Join(l, n, proxy, producers, votes);
    if proxy.Some? {
      GraphKeepsShares(j, V.Refresh(j, proxy.value));
    }
  }

  lemma TargetIsThere(s: V.State, n: Name, proxy: Option<Name>, producers: seq<Name>)
    requires V.ValidTarget(s, n, proxy, producers)
    ensures n in s.voters && (proxy.Some? ==> proxy.value in s.voters)
  {
  }

  lemma RepeatKeepsShares(s: V.State, n: Name)
    requires V.WellFormed(s) && n in s.voters
    ensures SharesStay(s, V.Repeat(s, n), {})
  {
    V.RepeatReady(s, n);
    UpdateKeepsShares(s, n, s.voters[n].proxy, s.voters[n].producers);
  }

  /** What an owner holds before and after the owner's row is created. */
  function SharesBefore(s: V.State, n: Name): V.Votes {
    if n in s.voters then s.voters[n].owned else V.Zeros(s.pools)
  }

  lemma WithVoterShares(s: V.State, n: Name)
    requires V.WellFormed(s)
    ensures var r := V.WithVoter(s, n);
            && V.WellFormed(r) && SharesStay(s, r, {n}) && n in r.voters && r.voters[n].owned == SharesBefore(s, n)
            && r.producers == s.producers
            && (forall m | m in s.voters :: r.voters[m] == s.voters[m])
  {
    V.WithVoterWellFormed(s, n);
    hide V.WellFormed;
  }

  lemma SetOwnedShares(s: V.State, n: Name, owned: V.Votes)
    requires V.WellFormed(s) && n in s.voters && |owned| == s.pools
    ensures var r := V.SetOwned(s, n, owned);
            && SharesStay(s, r, {n}) && r.voters.Keys == s.voters.Keys && r.voters[n].owned == owned && r.producers == s.producers
            && (forall m | m in s.voters && m != n :: r.voters[m].owned == s.voters[m].owned)
  {
    hide V.WellFormed;
  }

  /** After a change of stake the owner votes with exactly the shares the pools now record. */
  lemma ChangeStakeShares(s: V.State, n: Name, owned: V.Votes)
    requires V.WellFormed(s) && |owned| == s.pools
    ensures var r := V.ChangeStake(s, n, owned);
            r.Some? && SharesStay(s, r.value, {n}) && r.value.voters[n].owned == owned
  {
    hide SameRegistration, V.WellFormed, V.Repeat, V.WithVoter, V.SetOwned;
    WithVoterShares(s, n);
    var s1 := V.WithVoter(s, n);
    SetOwnedShares(s1, n, owned);
    RepeatKeepsShares(V.SetOwned(s1, n, owned), n);
  }

  lemma MoveStakeShares(s: V.State, from: Name, to: Name, ownedFrom: V.Votes, ownedTo: V.Votes)
    requires V.WellFormed(s) && from != to && from in s.voters && |ownedFrom| == s.pools && |ownedTo| == s.pools
    ensures var r := V.MoveStake(s, from, to, ownedFrom, ownedTo);
            && r.Some? && SharesStay(s, r.value, {from, to})
            && r.value.voters[from].owned == ownedFrom && r.value.voters[to].owned == ownedTo
  {
    hide SameRegistration, V.WellFormed, V.Repeat, V.WithVoter, V.SetOwned;
    WithVoterShares(s, to);
    var s1 := V.WithVoter(s, to);
    SetOwnedShares(s1, from, ownedFrom);
    var s2 := V.SetOwned(s1, from, ownedFrom);
    SetOwnedShares(s2, to, ownedTo);
    var s3 := V.SetOwned(s2, to, ownedTo);
    RepeatKeepsShares(s3, from);
    RepeatKeepsShares(V.Repeat(s3, from), to);
    RegistrationTransitive(s.producers, V.Repeat(s3, from).producers, V.Repeat(V.Repeat(s3, from), to).producers);
  }

  lemma VoteShares(s: V.State, n: Name, proxy: Option<Name>, producers: seq<Name>)
    requires V.WellFormed(s) && V.Vote(s, n, proxy, producers).Some?
    ensures var r := V.Vote(s, n, proxy, producers).value;
            SharesStay(s, r, {n}) && r.voters[n].owned == SharesBefore(s, n)
  {
    V.VoteReady(s, n, proxy, producers);
    hide SameRegistration, V.WellFormed, V.UpdateVotes, V.ValidTarget, V.CanVote, V.WithVoter;
    WithVoterShares(s, n);
    UpdateKeepsShares(V.Ranked(V.WithVoter(s, n), proxy), n, proxy, producers);
  }

  lemma RegProxyShares(s: V.State, n: Name, isProxy: bool)
    requires V.WellFormed(s) && V.RegProxy(s, n, isProxy).Some?
    ensures var r := V.RegProxy(s, n, isProxy).value;
            SharesStay(s, r, {n}) && r.voters[n].owned == SharesBefore(s, n)
  {
    hide SameRegistration, V.WellFormed, V.Refresh, V.WithVoter, V.SameGraph;
    WithVoterShares(s, n);
    var s1 := V.WithVoter(s, n);
    V.RegWellFormed(s1, n, isProxy);
    var s2 := V.PutVoter(s1, n, s1.voters[n].(isProxy := isProxy));
    GraphKeepsShares(s2, V.Refresh(s2, n));
  }

  // ----- the pools' side -----

  /** The owners whose rows an action writes. */
  function Touched(a: Action): set<Name> {
    match a
    case Stake(owner, _, _) => {owner}
    case Claim(owner, _, _) => {owner}
    case Transfer(owner, to, _, _) => {owner, to}
    case Upgrade(owner, _, _, _) => {owner}
    case Vote(owner, _, _) => {owner}
    case RegProxy(owner, _) => {owner}
    case _ => {}
  }

  /** The pools' side has written no rows but those of `touched`. */
  predicate Wrote(s: S.State, p: S.State, touched: set<Name>) {
    && |p.pools| == |s.pools| && p.voters.Keys == s.voters.Keys + touched
    && forall n | n in s.voters && n !in touched :: p.voters[n] == s.voters[n]
  }

  lemma PoolsTouch(c: Chain, a: Action)
    requires S.Shaped(c.pools) && OnPools(c, a).Some?
    ensures var p := OnPools(c, a).value; S.Shaped(p) && Wrote(c.pools, p, Touched(a))
  {
    hide S.Deposit, S.Withdraw, S.Split;
  }

  /** The rows that voting creates own nothing. */
  lemma NewRowKeeps(s: S.State, n: Name)
    requires SG.Funded(s)
    ensures SG.Funded(WithRow(s, n))
  {
    var r := WithRow(s, n);
    if n in s.voters {
      assert r.voters == s.voters;
    } else {
      forall i: nat | i < |s.pools| ensures s.pools[i].shares == Total(r.voters, SI.OwnedIn(i)) {
        TotalPut<Name, S.Voter>(s.voters, n, S.NewVoter(|s.pools|), SI.OwnedIn(i));
      }
    }
  }

  function AsPoolAction(c: Chain, a: Action): Option<S.Action> {
    match a
    case Stake(owner, i, amount) => Some(S.StakeCall(owner, i, amount))
    case Claim(owner, i, requested) => Some(S.ClaimCall(owner, i, requested, MeetsRequirement(c.votes, owner)))
    case Transfer(owner, to, i, requested) => Some(S.TransferCall(owner, to, i, requested))
    case Upgrade(owner, i, j, requested) => Some(S.UpgradeCall(owner, i, j, requested))
    case Fee(amount, partial) => Some(S.FeeCall(amount, partial))
    case Namebid(bid) => Some(S.NamebidCall(bid))
    case Pay(perPool) => Some(S.PayCall(perPool))
    case Cfg(begin, end, minCreate) => Some(S.CfgCall(begin, end, minCreate))
    case Advance(slot) => Some(S.Advance(slot))
    case _ => None
  }

  lemma OnPoolsIs(c: Chain, a: Action)
    requires S.Shaped(c.pools)
    ensures AsPoolAction(c, a).Some? ==> OnPools(c, a) == S.Step(c.pools, AsPoolAction(c, a).value)
    ensures AsPoolAction(c, a).None? ==>
              OnPools(c, a) == Some(if a.Vote? || a.RegProxy? then WithRow(c.pools, a.owner) else c.pools)
  {
  }

  lemma PoolsKeep(c: Chain, a: Action)
    requires Inv(c) && OnPools(c, a).Some?
    ensures SG.Funded(OnPools(c, a).value)
  {
    OnPoolsIs(c, a);
    hide OnPools, S.Step, WithRow, SI.Inv, S.Shaped, V.Inv, Shared;
    if AsPoolAction(c, a).Some? {
      SG.NextFunded(c.pools, AsPoolAction(c, a).value);
    } else if a.Vote? || a.RegProxy? {
      NewRowKeeps(c.pools, a.owner);
    }
  }

  // ----- every action -----

  lemma VotesKeep(c: Chain, a: Action, p: S.State)
    requires Inv(c) && OnVotes(c, a, p).Some?
    ensures V.Inv(OnVotes(c, a, p).value)
  {
    hide V.Linked, V.FreshExcept, V.Vote, V.ChangeStake, V.MoveStake, V.RegProxy, V.EnableProducer, V.DeactivateProducer;
    match a
    case Stake(owner, _, _) => VI.StepKeeps(c.votes, V.ChangeStakeCall(owner, SharesOf(p, owner)));
    case Claim(owner, _, _) => VI.StepKeeps(c.votes, V.ChangeStakeCall(owner, SharesOf(p, owner)));
    case Transfer(owner, to, _, _) => VI.StepKeeps(c.votes, V.MoveStakeCall(owner, to, SharesOf(p, owner), SharesOf(p, to)));
    case Upgrade(owner, _, _, _) => VI.StepKeeps(c.votes, V.ChangeStakeCall(owner, SharesOf(p, owner)));
    case Vote(owner, proxy, producers) => VI.StepKeeps(c.votes, V.VoteCall(owner, proxy, producers));
    case RegProxy(owner, isProxy) => VI.StepKeeps(c.votes, V.RegProxyCall(owner, isProxy));
    case Enable(q) => VI.StepKeeps(c.votes, V.EnableCall(q));
    case Deactivate(q) => VI.StepKeeps(c.votes, V.DeactivateCall(q));
    case _ =>
  }

  lemma TransferIsMove(c: Chain, a: Action)
    requires S.Shaped(c.pools) && OnPools(c, a).Some? && a.Transfer?
    ensures a.owner != a.to && a.owner in c.pools.voters
  {
  }

  /** Rows that neither side wrote still agree. */
  lemma AgreeAgain(c: Chain, p: S.State, v: V.State, touched: set<Name>)
    requires Shared(c) && Wrote(c.pools, p, touched)
    requires SharesStay(c.votes, v, touched)
    requires forall n | n in touched && n in p.voters && n in v.voters :: v.voters[n].owned == p.voters[n].owned
    ensures Shared(Chain(p, v))
  {
    forall n | n in p.voters ensures n in v.voters && v.voters[n].owned == p.voters[n].owned {
      if n !in touched {
        assert n in c.pools.voters;
      }
    }
  }

  lemma InvReady(c: Chain)
    requires Inv(c)
    ensures S.Shaped(c.pools) && V.WellFormed(c.votes) && Shared(c)
  {
  }

  lemma OneOwnerShared(c: Chain, p: S.State, owner: Name)
    requires Shared(c) && V.WellFormed(c.votes) && Wrote(c.pools, p, {owner}) && |SharesOf(p, owner)| == c.votes.pools
    ensures var r := V.ChangeStake(c.votes, owner, SharesOf(p, owner)); r.Some? && Shared(Chain(p, r.value))
  {
    hide V.WellFormed, V.ChangeStake, Shared;
    ChangeStakeShares(c.votes, owner, SharesOf(p, owner));
    AgreeAgain(c, p, V.ChangeStake(c.votes, owner, SharesOf(p, owner)).value, {owner});
  }

  lemma TwoOwnersShared(c: Chain, p: S.State, from: Name, to: Name)
    requires Shared(c) && V.WellFormed(c.votes) && Wrote(c.pools, p, {from, to}) && from != to && from in c.votes.voters
    requires |SharesOf(p, from)| == |SharesOf(p, to)| == c.votes.pools
    ensures var r := V.MoveStake(c.votes, from, to, SharesOf(p, from), SharesOf(p, to)); r.Some? && Shared(Chain(p, r.value))
  {
    hide V.WellFormed, V.MoveStake, Shared;
    MoveStakeShares(c.votes, from, to, SharesOf(p, from), SharesOf(p, to));
    AgreeAgain(c, p, V.MoveStake(c.votes, from, to, SharesOf(p, from), SharesOf(p, to)).value, {from, to});
  }

  lemma OneOwnerWritten(c: Chain, a: Action)
    requires Inv(c) && OnPools(c, a).Some? && (a.Stake? || a.Claim? || a.Upgrade?)
    ensures var p := OnPools(c, a).value; Wrote(c.pools, p, {a.owner}) && |SharesOf(p, a.owner)| == c.votes.pools
  {
    PoolsTouch(c, a);
    AllSizes(c, a);
    hide OnPools, Wrote, SharesOf;
    assert Touched(a) == {a.owner};
  }

  lemma TwoOwnersWritten(c: Chain, a: Action)
    requires Inv(c) && OnPools(c, a).Some? && a.Transfer?
    ensures var p := OnPools(c, a).value;
            && Wrote(c.pools, p, {a.owner, a.to}) && |SharesOf(p, a.owner)| == |SharesOf(p, a.to)| == c.votes.pools
            && a.owner != a.to && a.owner in c.votes.voters
  {
    PoolsTouch(c, a);
    AllSizes(c, a);
    hide OnPools, Wrote, SharesOf;
    assert Touched(a) == {a.owner, a.to};
  }

  /** The votes follow the pools without fail: repeating a vote never blocks an action on stake. */
  lemma VotesFollow(c: Chain, a: Action)
    requires Inv(c) && OnPools(c, a).Some? && (a.Stake? || a.Claim? || a.Upgrade? || a.Transfer?)
    ensures Step(c, a).Some? && Shared(Step(c, a).value)
  {
    InvReady(c);
    if a.Transfer? {
      TwoOwnersWritten(c, a);
    } else {
      OneOwnerWritten(c, a);
    }
    hide Inv, V.ChangeStake, V.MoveStake, OnPools, Shared, V.WellFormed, S.Shaped, SharesOf, Wrote;
    var p := OnPools(c, a).value;
    if a.Transfer? {
      TwoOwnersShared(c, p, a.owner, a.to);
    } else {
      OneOwnerShared(c, p, a.owner);
    }
  }

  lemma VoteShared(c: Chain, a: Action)
    requires Inv(c) && Step(c, a).Some? && (a.Vote? || a.RegProxy?)
    ensures Shared(Step(c, a).value)
  {
    var p, r := OnPools(c, a).value, Step(c, a).value;
    PoolsTouch(c, a);
    RowIs(c, a);
    hide V.Linked, V.FreshExcept, V.Vote, V.ChangeStake, V.MoveStake, V.RegProxy, OnPools, SharesStay, Shared, V.WellFormed, S.Shaped,
      SG.Funded;
    if a.Vote? {
      VoteShares(c.votes, a.owner, a.proxy, a.producers);
    } else {
      RegProxyShares(c.votes, a.owner, a.isProxy);
    }
    AgreeAgain(c, p, r.votes, {a.owner});
  }

  lemma SharedStays(c: Chain, a: Action)
    requires Inv(c) && Step(c, a).Some?
    ensures Shared(Step(c, a).value)
  {
    hide V.Linked, V.FreshExcept, Shared, OnPools, V.WellFormed, S.Shaped, SG.Funded, V.EnableProducer, V.DeactivateProducer;
    match a
    case Stake(_, _, _) => VotesFollow(c, a);
    case Claim(_, _, _) => VotesFollow(c, a);
    case Upgrade(_, _, _, _) => VotesFollow(c, a);
    case Transfer(_, _, _, _) => VotesFollow(c, a);
    case Vote(_, _, _) => VoteShared(c, a);
    case RegProxy(_, _) => VoteShared(c, a);
    case _ => OthersShared(c, a);
  }

  lemma OthersShared(c: Chain, a: Action)
    requires Inv(c) && Step(c, a).Some? && Touched(a) == {}
    ensures Shared(Step(c, a).value)
  {
    PoolsTouch(c, a);
    hide V.Linked, V.FreshExcept, OnPools, Shared;
    SameVotersAgree(c, OnPools(c, a).value, Step(c, a).value.votes);
  }

  /** A claim succeeds exactly if the owner's recorded pool vote is for a proxy or for at least 21 producers, the timer has run
      out, and a unit or more can be claimed. */
  lemma ClaimSucceeds(c: Chain, owner: Name, i: nat, requested: int)
    requires Inv(c)
    ensures S.Shaped(c.pools) && V.WellFormed(c.votes)
    ensures Step(c, Claim(owner, i, requested)).Some? <==>
            && owner in c.votes.voters && (c.votes.voters[owner].proxy.Some? || 21 <= |c.votes.voters[owner].producers|)
            && i < |c.pools.pools| && 0 < requested && S.StakeOf(c.pools, owner, i).nextClaim <= c.pools.slot
            && 0 < S.Portion(S.Worth(S.DistributeNamebids(c.pools).pools[i], S.StakeOf(c.pools, owner, i).owned), c.pools.pools[i])
  {
    InvReady(c);
    SI.ClaimKeeps(c.pools, owner, i, requested, MeetsRequirement(c.votes, owner), owner);
    hide S.ClaimStake, S.Portion, S.Worth, S.DistributeNamebids, V.Inv, SI.Inv, SI.TotalBalance, V.ChangeStake, SI.Conserves, SI.Spares,
         S.StakeOf, SI.NextOf, SI.OwnedOf, SI.KeepRate;
    if OnPools(c, Claim(owner, i, requested)).Some? {
      VotesFollow(c, Claim(owner, i, requested));
    }
  }

  /** Every owner an action writes has an entry for every pool on both sides. */
  lemma AllSizes(c: Chain, a: Action)
    requires Inv(c) && OnPools(c, a).Some?
    ensures V.WellFormed(c.votes)
    ensures forall n | n in Touched(a) :: |SharesOf(OnPools(c, a).value, n)| == c.votes.pools
    ensures a.Transfer? ==> a.owner != a.to && a.owner in c.votes.voters
  {
    var p := OnPools(c, a).value;
    PoolsTouch(c, a);
    if a.Transfer? {
      TransferIsMove(c, a);
    }
    hide OnPools;
    forall n | n in Touched(a) ensures |SharesOf(p, n)| == c.votes.pools {
      assert n in p.voters;
    }
  }

  lemma SameVotersAgree(c: Chain, p: S.State, v: V.State)
    requires Shared(c) && Wrote(c.pools, p, {})
    requires v.voters == c.votes.voters && v.pools == c.votes.pools
    ensures Shared(Chain(p, v))
  {
  }

  lemma RowIs(c: Chain, a: Action)
    requires Shared(c) && S.Shaped(c.pools) && (a.Vote? || a.RegProxy?)
    ensures var p := OnPools(c, a).value; a.owner in p.voters && p.voters[a.owner].owned == SharesBefore(c.votes, a.owner)
  {
    assert S.NewVoter(|c.pools.pools|).owned == V.Zeros(c.votes.pools);
  }

  lemma StakeRegistration(c: Chain, a: Action)
    requires Inv(c) && Step(c, a).Some? && (a.Stake? || a.Claim? || a.Upgrade? || a.Transfer?)
    ensures SameRegistration(c.votes.producers, Step(c, a).value.votes.producers)
  {
    InvReady(c);
    if a.Transfer? {
      TwoOwnersWritten(c, a);
    } else {
      OneOwnerWritten(c, a);
    }
    hide Inv, V.ChangeStake, V.MoveStake, OnPools, Shared, V.WellFormed, S.Shaped, SharesOf, Wrote, SameRegistration;
    var p := OnPools(c, a).value;
    if a.Transfer? {
      MoveStakeShares(c.votes, a.owner, a.to, SharesOf(p, a.owner), SharesOf(p, a.to));
    } else {
      ChangeStakeShares(c.votes, a.owner, SharesOf(p, a.owner));
    }
  }

  /** Only registering and deactivating a producer change who is registered, active and upgraded. */
  lemma RegistrationStays(c: Chain, a: Action)
    requires Inv(c) && Step(c, a).Some? && !a.Enable? && !a.Deactivate?
    ensures SameRegistration(c.votes.producers, Step(c, a).value.votes.producers)
  {
    InvReady(c);
    hide Inv, V.Vote, V.RegProxy, V.ChangeStake, V.MoveStake, OnPools, Shared, V.WellFormed, S.Shaped;
    match a
    case Vote(owner, proxy, producers) => VoteShares(c.votes, owner, proxy, producers);
    case RegProxy(owner, isProxy) => RegProxyShares(c.votes, owner, isProxy);
    case Stake(_, _, _) => StakeRegistration(c, a);
    case Claim(_, _, _) => StakeRegistration(c, a);
    case Upgrade(_, _, _, _) => StakeRegistration(c, a);
    case Transfer(_, _, _, _) => StakeRegistration(c, a);
    case _ =>
  }

  lemma StepKeeps(c: Chain, a: Action)
    requires Inv(c) && Step(c, a).Some?
    ensures Inv(Step(c, a).value)
  {
    SharedStays(c, a);
    PoolsKeep(c, a);
    VotesKeep(c, a, OnPools(c, a).value);
  }

  // ----- runs -----

  ghost predicate Initial(c: Chain) {
    SG.Initial(c.pools) && VI.Initial(c.votes) && c.votes.pools == |c.pools.pools|
  }

  lemma InitialInv(c: Chain)
    requires Initial(c)
    ensures Inv(c)
  {
    SG.InitialFunded(c.pools);
    VI.InitialInv(c.votes);
  }

  ghost function Next(c: Chain, a: Action): Chain {
    if S.Shaped(c.pools) && V.WellFormed(c.votes) && Step(c, a).Some? then Step(c, a).value else c
  }

  ghost function Run(c: Chain, actions: seq<Action>): Chain
    decreases |actions|
  {
    if actions == [] then c else Run(Next(c, actions[0]), actions[1..])
  }

  lemma {:induction false} RunKeeps(c: Chain, actions: seq<Action>)
    requires Inv(c)
    ensures Inv(Run(c, actions)) && |Run(c, actions).pools.pools| == |c.pools.pools|
    decreases |actions|
  {
    hide Inv, Step;
    if actions != [] {
      InvReady(c);
      if Step(c, actions[0]).Some? {
        StepKeeps(c, actions[0]);
      }
      SamePools(c, actions[0]);
      RunKeeps(Next(c, actions[0]), actions[1..]);
    }
  }

  lemma SamePools(c: Chain, a: Action)
    requires Inv(c)
    ensures |Next(c, a).pools.pools| == |c.pools.pools|
  {
    if Step(c, a).Some? {
      PoolsTouch(c, a);
    }
  }

  lemma SameShares(c: Chain, i: nat)
    requires Inv(c) && i < |c.pools.pools|
    ensures c.pools.pools[i].shares == Total(c.votes.voters, W.OwnedAt(i))
    ensures W.OwnsNoDebt(c.votes)
  {
    var owners := c.pools.voters;
    forall n | n in owners ensures SI.OwnedIn(i)(n, owners[n]) == W.OwnedAt(i)(n, c.votes.voters[n]) {
    }
    Alike(owners, c.votes.voters, i);
  }

  /** Two tables that record the same shares have the same total. */
  lemma {:induction false} Alike(owners: map<Name, S.Voter>, voters: map<Name, V.Voter>, i: nat)
    requires owners.Keys == voters.Keys
    requires forall n | n in owners :: SI.OwnedIn(i)(n, owners[n]) == W.OwnedAt(i)(n, voters[n])
    ensures Total(owners, SI.OwnedIn(i)) == Total(voters, W.OwnedAt(i))
    decreases owners.Keys
  {
    if owners == map[] {
      assert voters == map[];
    } else {
      var n :| n in owners && Total(owners, SI.OwnedIn(i)) == SI.OwnedIn(i)(n, owners[n]) + Total(owners - {n}, SI.OwnedIn(i));
      TotalRemove<Name, V.Voter>(voters, n, W.OwnedAt(i));
      Alike(owners - {n}, voters - {n}, i);
    }
  }

  /** In every reachable state each share of each pool counts exactly once: with the voter at the end of its owner's chain
      of proxies, or stranded with an account on that chain that is no proxy any more. */
  lemma EveryShareCountsOnce(c: Chain, actions: seq<Action>, i: nat)
    requires Initial(c) && i < |c.pools.pools|
    ensures var r := Run(c, actions);
            && |r.pools.pools| == |c.pools.pools|
            && r.pools.pools[i].shares == Total(r.votes.voters, W.Direct(i)) + Total(r.votes.voters, W.Stranded(i))
  {
    hide Inv;
    InitialInv(c);
    RunKeeps(c, actions);
    var r := Run(c, actions);
    SameShares(r, i);
    PoolCount(r);
    W.EveryShareOnce(r.votes, i);
  }

  lemma PoolCount(c: Chain)
    requires Inv(c)
    ensures c.votes.pools == |c.pools.pools| && V.Inv(c.votes)
  {
  }

  /** In every reachable state no producer has more votes in a pool than the pool has shares. */
  lemma VotesAreShares(c: Chain, actions: seq<Action>, i: nat, q: Name)
    requires Initial(c) && i < |c.pools.pools|
    ensures var r := Run(c, actions);
            && |r.pools.pools| == |c.pools.pools|
            && (q in r.votes.producers && r.votes.producers[q].votes.Some? ==>
                  && |r.votes.producers[q].votes.value| == |c.pools.pools|
                  && 0.0 <= r.votes.producers[q].votes.value[i] <= r.pools.pools[i].shares)
  {
    hide Inv;
    InitialInv(c);
    RunKeeps(c, actions);
    var r := Run(c, actions);
    SameShares(r, i);
    PoolCount(r);
    if q in r.votes.producers && r.votes.producers[q].votes.Some? {
      W.ProducerVotesBounded(r.votes, q, i);
    }
  }
}
