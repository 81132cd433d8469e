/** Pool votes: each voter's shares, one entry per staking pool, count for the producers the voter approves or
    for the voter's proxy, and so on along chains of proxies. */
module PoolVotes {
  import opened Tables
  import opened Totals
  import opened Resources
  import opened Ballots
  import ProxyGraph

  type Votes = seq<real>

  datatype Voter = Voter(owned: Votes, proxied: Votes, last: Votes, proxy: Option<Name>, producers: seq<Name>, isProxy: bool)

  /** Producers registered before the pools existed have no pool votes. */
  datatype Producer = Producer(active: bool, votes: Option<Votes>)

  /** `pools` is the number of pools. `rank` is not part of the contract's tables: it is evidence that the proxy graph has
      no cycle, as every proxy ranks below those who use it. */
  datatype State = State(
    pools: nat,
    voters: map<Name, Voter>,
    producers: map<Name, Producer>,
    totals: Votes,
    rank: Name -> nat)

  function Zeros(n: nat): Votes {
    seq(n, i => 0.0)
  }

  function Add(a: Votes, b: Votes): (r: Votes)
    requires |a| == |b|
    ensures |r| == |a| && forall i | 0 <= i < |a| :: r[i] == a[i] + b[i]
  {
    seq(|a|, i requires 0 <= i < |a| => a[i] + b[i])
  }

  function Sub(a: Votes, b: Votes): (r: Votes)
    requires |a| == |b|
    ensures |r| == |a| && forall i | 0 <= i < |a| :: r[i] == a[i] - b[i]
  {
    seq(|a|, i requires 0 <= i < |a| => a[i] - b[i])
  }

  // ----- well-formed tables -----

  predicate Upgraded(s: State, q: Name) {
    q in s.producers && s.producers[q].votes.Some? && |s.producers[q].votes.value| == s.pools
  }

  /** A voter uses a proxy or approves producers, never both; a proxy never uses a proxy; and the voter's proxy ranks below. */
  predicate ValidVoter(s: State, n: Name, v: Voter) {
    && |v.owned| == s.pools && |v.proxied| == s.pools && |v.last| == s.pools
    && (v.proxy.Some? ==>
          v.producers == [] && !v.isProxy && v.proxy.value in s.voters && s.rank(v.proxy.value) < s.rank(n))
    && Sorted(v.producers) && |v.producers| <= 30
    && forall q | q in v.producers :: Upgraded(s, q)
  }

  predicate WellFormed(s: State) {
    && |s.totals| == s.pools
    && (forall n | n in s.voters :: ValidVoter(s, n, s.voters[n]))
    && (forall q | q in s.producers && s.producers[q].votes.Some? :: |s.producers[q].votes.value| == s.pools)
  }

  // ----- what the tables summarise -----

  /** What a voter's row contributes to a proxy. */
  ghost function Behind(p: Name, i: nat): (Name, Voter) -> real {
    (n: Name, v: Voter) => if v.proxy == Some(p) && i < |v.last| then v.last[i] else 0.0
  }

  /** What a voter's row contributes to a producer. */
  ghost function Backing(q: Name, i: nat): (Name, Voter) -> real {
    (n: Name, v: Voter) => if v.proxy.None? && q in v.producers && i < |v.last| then v.last[i] else 0.0
  }

  ghost function VotesAt(i: nat): (Name, Producer) -> real {
    (q: Name, p: Producer) => if p.votes.Some? && i < |p.votes.value| then p.votes.value[i] else 0.0
  }

  ghost function Tally(pools: nat, producers: map<Name, Producer>): Votes {
    seq(pools, i requires 0 <= i < pools => Total(producers, VotesAt(i)))
  }

  ghost predicate ProxiesLinked(s: State)
    requires WellFormed(s)
  {
    forall p, i: nat | p in s.voters && i < s.pools :: s.voters[p].proxied[i] == Total(s.voters, Behind(p, i))
  }

  ghost predicate ProducersLinked(s: State)
    requires WellFormed(s)
  {
    forall q, i: nat | q in s.producers && s.producers[q].votes.Some? && i < s.pools ::
      s.producers[q].votes.value[i] == Total(s.voters, Backing(q, i))
  }

  /** What a voter's vote is worth: the voter's shares, and for a proxy those of the voters behind it. */
  function Value(v: Voter): Votes
    requires |v.owned| == |v.proxied|
  {
    if v.isProxy then Add(v.owned, v.proxied) else v.owned
  }

  /** All but the voters in `dirty` have voted with what they are worth. */
  ghost predicate FreshExcept(s: State, dirty: set<Name>)
    requires WellFormed(s)
  {
    forall n | n in s.voters && n !in dirty :: s.voters[n].last == Value(s.voters[n])
  }

  ghost predicate Linked(s: State) {
    WellFormed(s) && ProxiesLinked(s) && ProducersLinked(s) && s.totals == Tally(s.pools, s.producers)
  }

  ghost predicate Inv(s: State) {
    Linked(s) && FreshExcept(s, {})
  }

  // ----- changes of votes -----

  function Shift(p: Producer, charged: bool, paid: bool, last: Votes, votes: Votes): Producer
    requires p.votes.Some? ==> |p.votes.value| == |last| == |votes|
  {
    if p.votes.None? then p else
    var x := if charged then Sub(p.votes.value, last) else p.votes.value;
    p.(votes := Some(if paid then Add(x, votes) else x))
  }

  /** Nothing but votes has changed. */
  ghost predicate SameGraph(s: State, r: State) {
    && r.pools == s.pools && r.rank == s.rank
    && r.voters.Keys == s.voters.Keys
    && (forall n | n in s.voters :: r.voters[n] == s.voters[n].(proxied := r.voters[n].proxied, last := r.voters[n].last))
    && r.producers.Keys == s.producers.Keys
    && (forall q | q in s.producers ::
          r.producers[q].active == s.producers[q].active && (r.producers[q].votes.Some? <==> s.producers[q].votes.Some?))
  }

  /** Takes `last` from the producers in `before` and gives `votes` to those in `after`. */
  ghost function Revote(s: State, before: seq<Name>, after: seq<Name>, last: Votes, votes: Votes): (r: State)
    requires WellFormed(s) && |last| == s.pools && |votes| == s.pools
    ensures WellFormed(r) && SameGraph(s, r) && r.voters == s.voters
  {
    var producers := map q | q in s.producers :: Shift(s.producers[q], q in before, q in after, last, votes);
    s.(producers := producers, totals := Tally(s.pools, producers))
  }

  function PutVoter(s: State, n: Name, v: Voter): State {
    s.(voters := s.voters[n := v])
  }

  ghost function SetLast(s: State, n: Name, votes: Votes): (r: State)
    requires WellFormed(s) && n in s.voters && |votes| == s.pools
    ensures WellFormed(r) && SameGraph(s, r)
  {
    PutVoter(s, n, s.voters[n].(last := votes))
  }

  ghost function Debit(s: State, p: Name, last: Votes): (r: State)
    requires WellFormed(s) && p in s.voters && |last| == s.pools
    ensures WellFormed(r) && SameGraph(s, r)
  {
    PutVoter(s, p, s.voters[p].(proxied := Sub(s.voters[p].proxied, last)))
  }

  ghost function Credit(s: State, p: Name, votes: Votes): (r: State)
    requires WellFormed(s) && p in s.voters && |votes| == s.pools
    ensures WellFormed(r) && SameGraph(s, r)
  {
    PutVoter(s, p, s.voters[p].(proxied := Add(s.voters[p].proxied, votes)))
  }

  lemma SameGraphTransitive(a: State, b: State, c: State)
    requires SameGraph(a, b) && SameGraph(b, c)
    ensures SameGraph(a, c)
  {
  }

  /** Passes on the change of one voter's vote to the voter's proxy or producers. */
  ghost function PassOn(s: State, v: Voter, votes: Votes): (r: State)
    requires WellFormed(s) && |v.last| == s.pools && |votes| == s.pools && (v.proxy.Some? ==> v.proxy.value in s.voters)
    ensures WellFormed(r) && SameGraph(s, r)
  {
    if v.proxy.Some? then
      var s1 := Debit(s, v.proxy.value, v.last);
      SameVoters(s, s1);
      var s2 := Credit(s1, v.proxy.value, votes);
      SameGraphTransitive(s, s1, s2);
      s2
    else Revote(s, v.producers, v.producers, v.last, votes)
  }

  /** Brings a voter's vote up to date, and with it the proxies along its chain and the producers at the end. */
  ghost function Refresh(s: State, n: Name): (r: State)
    requires WellFormed(s) && n in s.voters
    ensures WellFormed(r) && SameGraph(s, r)
    decreases s.rank(n)
  {
    hide SameGraph, PassOn, SetLast;
    var v := s.voters[n];
    var s1 := SetLast(s, n, Value(v));
    SameVoters(s, s1);
    var s2 := PassOn(s1, v, Value(v));
    SameVoters(s1, s2);
    SameGraphTransitive(s, s1, s2);
    if v.proxy.Some? then
      var r := Refresh(s2, v.proxy.value);
      SameGraphTransitive(s, s2, r);
      r
    else s2
  }

  lemma SameVoters(s: State, r: State)
    requires SameGraph(s, r)
    ensures r.pools == s.pools && r.rank == s.rank && r.voters.Keys == s.voters.Keys
  {
  }

  // ----- changing a vote -----

  /** Takes a voter's contribution away from the proxy the voter leaves. */
  ghost function Leave(s: State, n: Name): (r: State)
    requires WellFormed(s) && n in s.voters && s.voters[n].proxy.Some?
    ensures WellFormed(r) && r.pools == s.pools && r.rank == s.rank && r.voters.Keys == s.voters.Keys && r.producers == s.producers
  {
    var v := s.voters[n];
    PutVoter(Debit(s, v.proxy.value, v.last), n, v.(proxy := None))
  }

  /** A target a voter may vote for: a proxy that ranks below the voter, or registered producers. */
  predicate ValidTarget(s: State, n: Name, proxy: Option<Name>, producers: seq<Name>) {
    && n in s.voters
    && (proxy.Some? ==>
          proxy.value in s.voters && proxy.value != n && producers == [] && !s.voters[n].isProxy
          && s.rank(proxy.value) < s.rank(n))
    && Sorted(producers) && |producers| <= 30 && forall q | q in producers :: Upgraded(s, q)
  }

  /** Writes the new vote and moves the voter's contribution there. */
  ghost function Join(s: State, n: Name, proxy: Option<Name>, producers: seq<Name>, votes: Votes): (r: State)
    requires WellFormed(s) && ValidTarget(s, n, proxy, producers) && s.voters[n].proxy.None? && |votes| == s.pools
    ensures WellFormed(r) && r.pools == s.pools && r.rank == s.rank && r.voters.Keys == s.voters.Keys
  {
    var v := s.voters[n];
    var s1 := PutVoter(s, n, v.(proxy := proxy, producers := producers, last := votes));
    var s2 := if proxy.Some? then Credit(s1, proxy.value, votes) else s1;
    Revote(s2, v.producers, producers, v.last, votes)
  }

  /** The state in which a voter without a proxy votes anew. */
  ghost function Left(s: State, n: Name): (r: State)
    requires WellFormed(s) && n in s.voters
  {
    if s.voters[n].proxy.Some? then Refresh(Leave(s, n), s.voters[n].proxy.value) else s
  }

  lemma TargetStays(s: State, n: Name, proxy: Option<Name>, producers: seq<Name>)
    requires WellFormed(s) && ValidTarget(s, n, proxy, producers)
    ensures var s1 := Left(s, n);
            && WellFormed(s1) && ValidTarget(s1, n, proxy, producers) && s1.voters[n].proxy.None? && s1.pools == s.pools
            && s1.voters.Keys == s.voters.Keys
  {
    if s.voters[n].proxy.Some? {
      var s0 := Leave(s, n);
      var s1 := Left(s, n);
      assert SameGraph(s0, s1);
      assert s1.voters[n] == s0.voters[n].(proxied := s1.voters[n].proxied, last := s1.voters[n].last);
      forall q | q in producers ensures Upgraded(s1, q) {
        assert Upgraded(s, q);
      }
    }
  }

  ghost function UpdateVotes(s: State, n: Name, proxy: Option<Name>, producers: seq<Name>): (r: State)
    requires WellFormed(s) && ValidTarget(s, n, proxy, producers)
    ensures WellFormed(r) && r.voters.Keys == s.voters.Keys
  {
    TargetStays(s, n, proxy, producers);
    var s2 := Join(Left(s, n), n, proxy, producers, Value(s.voters[n]));
    if proxy.Some? then Refresh(s2, proxy.value) else s2
  }

  // ----- actions -----

  function NewVoter(n: nat): Voter {
    Voter(Zeros(n), Zeros(n), Zeros(n), None, [], false)
  }

  function WithVoter(s: State, n: Name): State {
    if n in s.voters then s else PutVoter(s, n, NewVoter(s.pools))
  }

  function Ranked(s: State, proxy: Option<Name>): State {
    if proxy.Some? then s.(rank := ProxyGraph.Lowest(s.rank, proxy.value)) else s
  }

  /** What votewithpool demands of a new vote. */
  predicate MayVote(s: State, n: Name, proxy: Option<Name>, producers: seq<Name>) {
    (proxy.Some? || 21 <= |producers|) && CanVote(s, n, proxy, producers)
  }

  predicate CanVote(s: State, n: Name, proxy: Option<Name>, producers: seq<Name>) {
    && ValidBallot(n, proxy, producers)
    && !(proxy.Some? && n in s.voters && s.voters[n].isProxy)
    && (proxy.Some? ==> proxy.value in s.voters && s.voters[proxy.value].isProxy)
    && forall q | q in producers :: Upgraded(s, q) && s.producers[q].active
  }

  lemma WithVoterWellFormed(s: State, n: Name)
    requires WellFormed(s)
    ensures WellFormed(WithVoter(s, n)) && n in WithVoter(s, n).voters
  {
  }

  /** A voter may only choose a proxy that uses none itself, so ranking the proxy lowest keeps every chain decreasing. */
  lemma RankedWellFormed(s: State, p: Name)
    requires WellFormed(s) && p in s.voters && s.voters[p].isProxy
    ensures WellFormed(Ranked(s, Some(p)))
  {
    var r := Ranked(s, Some(p));
    forall n | n in r.voters ensures ValidVoter(r, n, r.voters[n]) {
      assert ValidVoter(s, n, s.voters[n]);
    }
  }

  lemma VoteReady(s: State, n: Name, proxy: Option<Name>, producers: seq<Name>)
    requires WellFormed(s) && CanVote(s, n, proxy, producers)
    ensures var s1 := Ranked(WithVoter(s, n), proxy); WellFormed(s1) && ValidTarget(s1, n, proxy, producers)
  {
    WithVoterWellFormed(s, n);
    if proxy.Some? {
      RankedWellFormed(WithVoter(s, n), proxy.value);
    }
  }

  /** A new vote by the voter. */
  ghost function Vote(s: State, n: Name, proxy: Option<Name>, producers: seq<Name>): Option<State>
    requires WellFormed(s)
  {
    var _ :- Need(MayVote(s, n, proxy, producers));
    VoteReady(s, n, proxy, producers);
    Some(UpdateVotes(Ranked(WithVoter(s, n), proxy), n, proxy, producers))
  }

  ghost function SetOwned(s: State, n: Name, owned: Votes): (r: State)
    requires WellFormed(s) && n in s.voters && |owned| == s.pools
    ensures WellFormed(r) && r.voters.Keys == s.voters.Keys && r.pools == s.pools
  {
    PutVoter(s, n, s.voters[n].(owned := owned))
  }

  /** Repeats a voter's vote after the voter's shares have changed. */
  ghost function Repeat(s: State, n: Name): (r: State)
    requires WellFormed(s) && n in s.voters
    ensures WellFormed(r) && r.voters.Keys == s.voters.Keys
  {
    var proxy, producers := s.voters[n].proxy, s.voters[n].producers;
    RepeatReady(s, n);
    TargetStays(s, n, proxy, producers);
    UpdateVotes(s, n, proxy, producers)
  }

  lemma RepeatReady(s: State, n: Name)
    requires WellFormed(s) && n in s.voters
    ensures ValidTarget(s, n, s.voters[n].proxy, s.voters[n].producers)
  {
    assert ValidVoter(s, n, s.voters[n]);
  }

  /** Staking, claiming and upgrading change an owner's shares and then repeat the owner's vote. */
  ghost function ChangeStake(s: State, n: Name, owned: Votes): Option<State>
    requires WellFormed(s)
  {
    var _ :- Need(|owned| == s.pools);
    WithVoterWellFormed(s, n);
    Some(Repeat(SetOwned(WithVoter(s, n), n, owned), n))
  }

  /** A transfer changes two owners' shares before it repeats either vote. */
  ghost function MoveStake(s: State, from: Name, to: Name, ownedFrom: Votes, ownedTo: Votes): Option<State>
    requires WellFormed(s)
  {
    var _ :- Need(from != to && from in s.voters && |ownedFrom| == s.pools && |ownedTo| == s.pools);
    WithVoterWellFormed(s, to);
    var s1 := SetOwned(SetOwned(WithVoter(s, to), from, ownedFrom), to, ownedTo);
    Some(Repeat(Repeat(s1, from), to))
  }

  ghost function RegProxy(s: State, n: Name, isProxy: bool): Option<State>
    requires WellFormed(s)
  {
    WithVoterWellFormed(s, n);
    var s1 := WithVoter(s, n);
    var _ :- Need(!isProxy || s1.voters[n].proxy.None?);
    var s2 := PutVoter(s1, n, s1.voters[n].(isProxy := isProxy));
    RegWellFormed(s1, n, isProxy);
    Some(Refresh(s2, n))
  }

  lemma RegWellFormed(s: State, n: Name, isProxy: bool)
    requires WellFormed(s) && n in s.voters && (isProxy ==> s.voters[n].proxy.None?)
    ensures WellFormed(PutVoter(s, n, s.voters[n].(isProxy := isProxy)))
  {
  }

  /** Registration activates a producer and gives it pool votes if it has none. */
  ghost function EnableProducer(s: State, q: Name): State {
    var votes := if q in s.producers && s.producers[q].votes.Some? then s.producers[q].votes else Some(Zeros(s.pools));
    s.(producers := s.producers[q := Producer(true, votes)])
  }

  ghost function DeactivateProducer(s: State, q: Name): Option<State> {
    var _ :- Need(q in s.producers);
    Some(s.(producers := s.producers[q := s.producers[q].(active := false)]))
  }

  datatype Action =
    | VoteCall(voter: Name, proxy: Option<Name>, producers: seq<Name>)
    | ChangeStakeCall(voter: Name, owned: Votes)
    | MoveStakeCall(voter: Name, to: Name, owned: Votes, ownedTo: Votes)
    | RegProxyCall(voter: Name, isProxy: bool)
    | EnableCall(producer: Name)
    | DeactivateCall(producer: Name)

  ghost function Step(s: State, a: Action): Option<State>
    requires WellFormed(s)
  {
    match a
    case VoteCall(n, proxy, producers) => Vote(s, n, proxy, producers)
    case ChangeStakeCall(n, owned) => ChangeStake(s, n, owned)
    case MoveStakeCall(from, to, ownedFrom, ownedTo) => MoveStake(s, from, to, ownedFrom, ownedTo)
    case RegProxyCall(n, isProxy) => RegProxy(s, n, isProxy)
    case EnableCall(q) => Some(EnableProducer(s, q))
    case DeactivateCall(q) => DeactivateProducer(s, q)
  }
}
