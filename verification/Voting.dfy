/** Stake-weighted voting, reduced to proxies: how a change of weight travels along a chain of proxies. The tallies of
    producers are not part of it. */
module Voting {
  import opened Tables
  import opened Resources
  import opened Ballots
  import opened ProxyGraph

  datatype Voter = Voter(staked: int, proxied: real, last: real, proxy: Option<Name>, producers: seq<Name>, isProxy: bool)

  type Voters = map<Name, Voter>

  function Links(voters: Voters): ProxyGraph.Links {
    map n | n in voters :: voters[n].proxy
  }

  /** Who uses a proxy is none, and proxies descend. */
  ghost predicate WellFormed(voters: Voters, rank: Name -> nat) {
    forall n | n in voters && voters[n].proxy.Some? ::
      !voters[n].isProxy && voters[n].proxy.value in voters && rank(voters[n].proxy.value) < rank(n)
  }

  lemma WellFormedDescends(voters: Voters, rank: Name -> nat)
    requires WellFormed(voters, rank)
    ensures Descending(Links(voters), rank)
  {
  }

  /** `factor` is the weight of a staked unit at the time of the action. */
  function Weight(v: Voter, factor: real): real {
    v.staked as real * factor + (if v.isProxy then v.proxied else 0.0)
  }

  function Abs(x: real): real {
    if x < 0.0 then -x else x
  }

  /** Nothing but weights has changed. */
  ghost predicate SameGraph(voters: Voters, r: Voters) {
    && r.Keys == voters.Keys
    && forall n | n in voters :: r[n] == voters[n].(proxied := r[n].proxied, last := r[n].last)
  }

  /** Only changes of more than one unit are passed on. */
  predicate Passes(v: Voter, factor: real) {
    1.0 < Abs(Weight(v, factor) - v.last) && v.proxy.Some?
  }

  /** One link: the voter's new weight and its effect on the proxy. */
  ghost function Link(voters: Voters, n: Name, factor: real, rank: Name -> nat): (r: Voters)
    requires WellFormed(voters, rank) && n in voters
    ensures WellFormed(r, rank) && SameGraph(voters, r)
  {
    var v := voters[n];
    var m := voters[n := v.(last := Weight(v, factor))];
    if !Passes(v, factor) then m
    else m[v.proxy.value := m[v.proxy.value].(proxied := m[v.proxy.value].proxied + Weight(v, factor) - v.last)]
  }

  lemma SameGraphTransitive(a: Voters, b: Voters, c: Voters)
    requires SameGraph(a, b) && SameGraph(b, c)
    ensures SameGraph(a, c)
  {
  }

  lemma ProxyBelow(voters: Voters, n: Name, rank: Name -> nat)
    requires WellFormed(voters, rank) && n in voters && voters[n].proxy.Some?
    ensures voters[n].proxy.value in voters && rank(voters[n].proxy.value) < rank(n) && voters[n].proxy.value != n && !voters[n].isProxy
  {
  }

  /** Brings a voter's weight up to date, and along the chain as far as changes are passed on. */
  ghost function Propagate(voters: Voters, n: Name, factor: real, rank: Name -> nat): (r: Voters)
    requires WellFormed(voters, rank) && n in voters
    ensures WellFormed(r, rank) && SameGraph(voters, r)
    decreases rank(n)
  {
    hide WellFormed, Weight, Abs, Link;
    var m := Link(voters, n, factor, rank);
    if Passes(voters[n], factor) then
      ProxyBelow(voters, n, rank);
      var r := Propagate(m, voters[n].proxy.value, factor, rank);
      SameGraphTransitive(voters, m, r);
      r
    else m
  }

  ghost predicate OnChain(voters: Voters, n: Name, m: Name, rank: Name -> nat)
    requires WellFormed(voters, rank) && n in voters
    decreases rank(n)
  {
    m == n || (voters[n].proxy.Some? && OnChain(voters, voters[n].proxy.value, m, rank))
  }

  lemma LinkIs(voters: Voters, n: Name, factor: real, rank: Name -> nat)
    requires WellFormed(voters, rank) && n in voters
    ensures var r, v := Link(voters, n, factor, rank), voters[n];
            && r[n] == v.(last := Weight(v, factor))
            && (forall m | m in voters && m != n && Some(m) != v.proxy :: r[m] == voters[m])
            && (v.proxy.Some? ==>
                  r[v.proxy.value] == if Passes(v, factor)
                    then voters[v.proxy.value].(proxied := voters[v.proxy.value].proxied + Weight(v, factor) - v.last)
                    else voters[v.proxy.value])
  {
    if voters[n].proxy.Some? {
      ProxyBelow(voters, n, rank);
    }
  }

  /** Only voters on the chain are touched. */
  lemma {:induction false} OffChainUntouched(voters: Voters, n: Name, m: Name, factor: real, rank: Name -> nat)
    requires WellFormed(voters, rank) && n in voters && m in voters && !OnChain(voters, n, m, rank)
    ensures Propagate(voters, n, factor, rank)[m] == voters[m]
    decreases rank(n)
  {
    LinkIs(voters, n, factor, rank);
    if voters[n].proxy.Some? {
      ProxyBelow(voters, n, rank);
      SameChain(voters, Link(voters, n, factor, rank), voters[n].proxy.value, m, rank);
      assert OnChain(voters, voters[n].proxy.value, voters[n].proxy.value, rank);
    }
    hide Weight, Abs, Link, WellFormed;
    if Passes(voters[n], factor) {
      OffChainUntouched(Link(voters, n, factor, rank), voters[n].proxy.value, m, factor, rank);
    }
  }

  lemma {:induction false} SameChain(voters: Voters, r: Voters, n: Name, m: Name, rank: Name -> nat)
    requires WellFormed(voters, rank) && WellFormed(r, rank) && SameGraph(voters, r) && n in voters
    ensures OnChain(r, n, m, rank) == OnChain(voters, n, m, rank)
    decreases rank(n)
  {
    if voters[n].proxy.Some? {
      SameChain(voters, r, voters[n].proxy.value, m, rank);
    }
  }

  lemma {:induction false} ChainRanksBelow(voters: Voters, n: Name, m: Name, rank: Name -> nat)
    requires WellFormed(voters, rank) && n in voters && rank(n) < rank(m)
    ensures !OnChain(voters, n, m, rank)
    decreases rank(n)
  {
    if voters[n].proxy.Some? {
      ChainRanksBelow(voters, voters[n].proxy.value, m, rank);
    }
  }

  /** The recursion never comes back to a voter that ranks above its start. */
  lemma AboveUntouched(voters: Voters, n: Name, m: Name, factor: real, rank: Name -> nat)
    requires WellFormed(voters, rank) && n in voters && m in voters && rank(n) < rank(m)
    ensures Propagate(voters, n, factor, rank)[m] == voters[m]
  {
    ChainRanksBelow(voters, n, m, rank);
    OffChainUntouched(voters, n, m, factor, rank);
  }

  /** What a link makes of one row. */
  function LinkRow(voters: Voters, n: Name, factor: real, k: Name): Voter
    requires n in voters && k in voters
  {
    var v := voters[n];
    if k == n then v.(last := Weight(v, factor))
    else if Passes(v, factor) && v.proxy == Some(k) then
      voters[k].(proxied := voters[k].proxied + Weight(v, factor) - v.last)
    else voters[k]
  }

  lemma LinkAt(voters: Voters, n: Name, k: Name, factor: real, rank: Name -> nat)
    requires WellFormed(voters, rank) && n in voters && k in voters
    ensures k in Link(voters, n, factor, rank) && Link(voters, n, factor, rank)[k] == LinkRow(voters, n, factor, k)
  {
    LinkIs(voters, n, factor, rank);
    hide Weight, Abs, Link, WellFormed;
  }

  lemma LinkFrameAt(voters: Voters, n: Name, m: Name, row: Voter, k: Name, factor: real, rank: Name -> nat)
    requires WellFormed(voters, rank) && WellFormed(voters[m := row], rank) && n in voters && m in voters && k in voters
    requires n != m && voters[n].proxy != Some(m)
    ensures Link(voters[m := row], n, factor, rank).Keys == voters.Keys == Link(voters, n, factor, rank).Keys
    ensures Link(voters[m := row], n, factor, rank)[k] == if k == m then row else Link(voters, n, factor, rank)[k]
  {
    SameKeys(voters, Link(voters, n, factor, rank));
    SameKeys(voters[m := row], Link(voters[m := row], n, factor, rank));
    LinkAt(voters, n, k, factor, rank);
    LinkAt(voters[m := row], n, k, factor, rank);
    hide Weight, Abs, Link, WellFormed, Passes, SameGraph;
  }

  lemma LinkFrame(voters: Voters, n: Name, m: Name, row: Voter, factor: real, rank: Name -> nat)
    requires WellFormed(voters, rank) && WellFormed(voters[m := row], rank) && n in voters && m in voters && rank(n) < rank(m)
    ensures Link(voters[m := row], n, factor, rank) == Link(voters, n, factor, rank)[m := row]
    ensures WellFormed(Link(voters, n, factor, rank)[m := row], rank)
  {
    if voters[n].proxy.Some? {
      ProxyBelow(voters, n, rank);
    }
    hide Weight, Abs, Link, WellFormed, Passes, SameGraph;
    var a, b := Link(voters[m := row], n, factor, rank), Link(voters, n, factor, rank)[m := row];
    LinkFrameAt(voters, n, m, row, n, factor, rank);
    forall k | k in voters ensures a[k] == b[k] {
      LinkFrameAt(voters, n, m, row, k, factor, rank);
    }
    assert a == b;
  }

  /** Rewriting the row of a voter that ranks above commutes with propagation. */
  lemma {:induction false} PropagateFrame(voters: Voters, n: Name, m: Name, row: Voter, factor: real, rank: Name -> nat)
    requires WellFormed(voters, rank) && WellFormed(voters[m := row], rank) && n in voters && m in voters && rank(n) < rank(m)
    ensures Propagate(voters[m := row], n, factor, rank) == Propagate(voters, n, factor, rank)[m := row]
    decreases rank(n)
  {
    hide Weight, Abs, Link, WellFormed;
    LinkFrame(voters, n, m, row, factor, rank);
    if Passes(voters[n], factor) {
      ProxyBelow(voters, n, rank);
      PropagateFrame(Link(voters, n, factor, rank), voters[n].proxy.value, m, row, factor, rank);
    }
  }

  // ----- actions -----

  /** `rank` is not part of the contract's table: it is evidence that the proxy graph has no cycle. */
  datatype State = State(voters: Voters, rank: Name -> nat)

  ghost predicate Valid(s: State) {
    WellFormed(s.voters, s.rank) && HasBallots(s.voters)
  }

  /** Every voter's recorded vote is one that could be cast. */
  predicate HasBallots(voters: Voters) {
    forall n | n in voters :: ValidBallot(n, voters[n].proxy, voters[n].producers)
  }

  lemma SameBallots(voters: Voters, r: Voters)
    requires SameGraph(voters, r) && HasBallots(voters)
    ensures HasBallots(r)
  {
  }

  /** What update_votes demands; `registered` is whether every producer newly voted for is registered, and active for a
      new vote. */
  predicate MayVote(voters: Voters, n: Name, proxy: Option<Name>, producers: seq<Name>, voting: bool, registered: bool) {
    && n in voters && registered
    && ValidBallot(n, proxy, producers)
    && !(proxy.Some? && voters[n].isProxy)
    && (proxy.Some? ==> proxy.value in voters && (voting ==> voters[proxy.value].isProxy))
  }

  /** The voter's old weight leaves the old proxy. */
  ghost function Left(voters: Voters, n: Name, factor: real, rank: Name -> nat): (r: Voters)
    requires WellFormed(voters, rank) && n in voters
    ensures WellFormed(r, rank) && SameGraph(voters, r)
  {
    var v := voters[n];
    if 0.0 < v.last && v.proxy.Some? then
      var m := Proxied(voters, v.proxy.value, -v.last);
      ProxiedKeeps(voters, v.proxy.value, -v.last, rank);
      var r := Propagate(m, v.proxy.value, factor, rank);
      SameGraphTransitive(voters, m, r);
      r
    else voters
  }

  function Proxied(voters: Voters, p: Name, delta: real): Voters {
    if p in voters then voters[p := voters[p].(proxied := voters[p].proxied + delta)] else voters
  }

  lemma ProxiedKeeps(voters: Voters, p: Name, delta: real, rank: Name -> nat)
    requires WellFormed(voters, rank)
    ensures WellFormed(Proxied(voters, p, delta), rank) && SameGraph(voters, Proxied(voters, p, delta))
  {
  }

  /** The voter's new weight joins the new proxy. */
  ghost function Joined(voters: Voters, proxy: Option<Name>, weight: real, factor: real, rank: Name -> nat): (r: Voters)
    requires WellFormed(voters, rank) && (proxy.Some? ==> proxy.value in voters)
    ensures WellFormed(r, rank) && SameGraph(voters, r)
  {
    if proxy.Some? && 0.0 <= weight then
      var m := Proxied(voters, proxy.value, weight);
      ProxiedKeeps(voters, proxy.value, weight, rank);
      var r := Propagate(m, proxy.value, factor, rank);
      SameGraphTransitive(voters, m, r);
      r
    else voters
  }

  /** A vote for a proxy that ranks below; see ProxyGraph. */
  predicate Aim(voters: Voters, n: Name, proxy: Option<Name>, rank: Name -> nat) {
    n in voters && (proxy.Some? ==> proxy.value in voters && rank(proxy.value) < rank(n) && !voters[n].isProxy)
  }

  ghost function UpdateVotes(voters: Voters, n: Name, proxy: Option<Name>, producers: seq<Name>, factor: real, rank: Name -> nat): (r: Voters)
    requires WellFormed(voters, rank) && Aim(voters, n, proxy, rank)
    ensures WellFormed(r, rank) && r.Keys == voters.Keys
  {
    var weight := Weight(voters[n], factor);
    var m := Joined(Left(voters, n, factor, rank), proxy, weight, factor, rank);
    SameGraphTransitive(voters, Left(voters, n, factor, rank), m);
    m[n := m[n].(last := weight, proxy := proxy, producers := producers)]
  }

  /** In a vote the voter's own row is never touched by the recursions it starts, only by the vote itself. */
  lemma VoterIsNotRevisited(voters: Voters, n: Name, proxy: Option<Name>, producers: seq<Name>, factor: real, rank: Name -> nat)
    requires WellFormed(voters, rank) && Aim(voters, n, proxy, rank)
    ensures Joined(Left(voters, n, factor, rank), proxy, Weight(voters[n], factor), factor, rank)[n] == voters[n]
    ensures UpdateVotes(voters, n, proxy, producers, factor, rank)[n]
         == voters[n].(last := Weight(voters[n], factor), proxy := proxy, producers := producers)
  {
    hide WellFormed, Propagate, Weight, SameGraph;
    var v := voters[n];
    if v.proxy.Some? {
      ProxyBelow(voters, n, rank);
      if 0.0 < v.last {
        ProxiedKeeps(voters, v.proxy.value, -v.last, rank);
        AboveUntouched(Proxied(voters, v.proxy.value, -v.last), v.proxy.value, n, factor, rank);
      }
    }
    var l := Left(voters, n, factor, rank);
    SameKeys(voters, l);
    if proxy.Some? && 0.0 <= Weight(v, factor) {
      ProxiedKeeps(l, proxy.value, Weight(v, factor), rank);
      AboveUntouched(Proxied(l, proxy.value, Weight(v, factor)), proxy.value, n, factor, rank);
    }
  }

  lemma UpdateKeeps(s: State, n: Name, proxy: Option<Name>, producers: seq<Name>, factor: real)
    requires Valid(s) && Aim(s.voters, n, proxy, s.rank) && ValidBallot(n, proxy, producers)
    ensures Valid(s.(voters := UpdateVotes(s.voters, n, proxy, producers, factor, s.rank)))
  {
    hide WellFormed, Propagate, Weight, ValidBallot;
  }

  lemma SameKeys(voters: Voters, r: Voters)
    requires SameGraph(voters, r)
    ensures r.Keys == voters.Keys
  {
  }

  /** A new vote ranks the chosen proxy lowest; it uses no proxy itself. */
  function Ranked(s: State, proxy: Option<Name>): State {
    if proxy.Some? then s.(rank := Lowest(s.rank, proxy.value)) else s
  }

  lemma RankedKeeps(s: State, proxy: Option<Name>)
    requires Valid(s) && (proxy.Some? ==> proxy.value in s.voters && s.voters[proxy.value].isProxy)
    ensures Valid(Ranked(s, proxy))
  {
  }

  /** Who holds REX must vote for a proxy or for at least 21 producers. */
  predicate MeetsRexRequirement(proxy: Option<Name>, producers: seq<Name>, holdsRex: bool) {
    holdsRex ==> proxy.Some? || 21 <= |producers|
  }

  ghost function Vote(s: State, n: Name, proxy: Option<Name>, producers: seq<Name>, registered: bool, holdsRex: bool,
                      factor: real): Option<State>
    requires Valid(s)
  {
    var _ :- Need(MayVote(s.voters, n, proxy, producers, true, registered) && MeetsRexRequirement(proxy, producers, holdsRex));
    RankedKeeps(s, proxy);
    var s1 := Ranked(s, proxy);
    Some(s1.(voters := UpdateVotes(s1.voters, n, proxy, producers, factor, s1.rank)))
  }

  /** A new vote is accepted exactly if the voter exists and either names a registered proxy, other than the voter, while being
      no proxy, or at most 30 registered producers in order; who holds REX needs a proxy or 21 producers. The vote is recorded as
      cast, with the weight of the voter's stake and, for a proxy, of what is proxied to it. */
  lemma VoteIsAccepted(s: State, n: Name, proxy: Option<Name>, producers: seq<Name>, registered: bool, holdsRex: bool, factor: real)
    requires Valid(s)
    ensures var r := Vote(s, n, proxy, producers, registered, holdsRex, factor);
            && (r.Some? <==>
                  && n in s.voters && registered && (holdsRex ==> proxy.Some? || 21 <= |producers|)
                  && if proxy.Some? then
                       producers == [] && proxy.value != n && proxy.value in s.voters && s.voters[proxy.value].isProxy && !s.voters[n].isProxy
                     else |producers| <= 30 && forall i, j | 0 <= i < j < |producers| :: producers[i] < producers[j])
            && (r.Some? ==>
                  var v := s.voters[n];
                  && n in r.value.voters
                  && r.value.voters[n] == v.(proxy := proxy, producers := producers,
                       last := v.staked as real * factor + (if v.isProxy then v.proxied else 0.0)))
  {
    var r := Vote(s, n, proxy, producers, registered, holdsRex, factor);
    if r.Some? {
      RankedKeeps(s, proxy);
      var s1 := Ranked(s, proxy);
      VoterIsNotRevisited(s1.voters, n, proxy, producers, factor, s1.rank);
    }
    hide UpdateVotes, WellFormed, HasBallots;
  }

  /** None of the checks can fail when a vote is repeated: producers stay in the table, so they are registered. */
  lemma RepeatIsAllowed(s: State, n: Name)
    requires Valid(s) && n in s.voters
    ensures MayVote(s.voters, n, s.voters[n].proxy, s.voters[n].producers, false, true)
  {
    if s.voters[n].proxy.Some? {
      ProxyBelow(s.voters, n, s.rank);
    }
  }

  /** Staking creates the voter if need be, changes the stake, and repeats the voter's vote. `vested` is the rule on what b1
      may unstake. */
  ghost function Restake(s: State, n: Name, delta: int, vested: bool, factor: real): Option<State>
    requires Valid(s)
  {
    var m := WithStake(s.voters, n, delta);
    WithStakeKeeps(s.voters, n, delta, s.rank);
    var _ :- Need(0 <= m[n].staked && (n == B1 ==> vested));
    Some(if m[n].proxy.None? && m[n].producers == [] then s.(voters := m)
         else s.(voters := UpdateVotes(m, n, m[n].proxy, m[n].producers, factor, s.rank)))
  }

  function WithStake(voters: Voters, n: Name, delta: int): Voters {
    if n in voters then voters[n := voters[n].(staked := voters[n].staked + delta)]
    else voters[n := Voter(delta, 0.0, 0.0, None, [], false)]
  }

  /** A change in the value of a voter's REX changes the stake, and counts from the next vote on. */
  function Revalue(s: State, n: Name, delta: int): State {
    if n in s.voters then s.(voters := WithStake(s.voters, n, delta)) else s
  }

  lemma WithStakeKeeps(voters: Voters, n: Name, delta: int, rank: Name -> nat)
    requires WellFormed(voters, rank)
    ensures var m := WithStake(voters, n, delta);
            WellFormed(m, rank) && n in m && Aim(m, n, m[n].proxy, rank) && (HasBallots(voters) ==> HasBallots(m))
  {
  }

  ghost function RegProxy(s: State, n: Name, isProxy: bool, factor: real): Option<State>
    requires Valid(s)
  {
    if n !in s.voters then Some(s.(voters := s.voters[n := Voter(0, 0.0, 0.0, None, [], isProxy)]))
    else
      var _ :- Need(isProxy != s.voters[n].isProxy && (!isProxy || s.voters[n].proxy.None?));
      var m := s.voters[n := s.voters[n].(isProxy := isProxy)];
      RoleKeeps(s.voters, n, isProxy, s.rank);
      Some(s.(voters := Propagate(m, n, factor, s.rank)))
  }

  lemma RoleKeeps(voters: Voters, n: Name, isProxy: bool, rank: Name -> nat)
    requires WellFormed(voters, rank) && n in voters && (isProxy ==> voters[n].proxy.None?)
    ensures WellFormed(voters[n := voters[n].(isProxy := isProxy)], rank)
  {
  }

  datatype Action =
    | VoteCall(voter: Name, proxy: Option<Name>, producers: seq<Name>, registered: bool, holdsRex: bool, factor: real)
    | RestakeCall(voter: Name, delta: int, vested: bool, factor: real)
    | RevalueCall(voter: Name, delta: int)
    | RegProxyCall(voter: Name, isProxy: bool, factor: real)

  ghost function Step(s: State, a: Action): Option<State>
    requires Valid(s)
  {
    match a
    case VoteCall(n, proxy, producers, registered, holdsRex, factor) => Vote(s, n, proxy, producers, registered, holdsRex, factor)
    case RestakeCall(n, delta, vested, factor) => Restake(s, n, delta, vested, factor)
    case RevalueCall(n, delta) => Some(Revalue(s, n, delta))
    case RegProxyCall(n, isProxy, factor) => RegProxy(s, n, isProxy, factor)
  }

  lemma StepKeeps(s: State, a: Action)
    requires Valid(s) && Step(s, a).Some?
    ensures Valid(Step(s, a).value)
  {
    match a
    case VoteCall(n, proxy, producers, registered, holdsRex, factor) =>
      RankedKeeps(s, proxy);
      UpdateKeeps(Ranked(s, proxy), n, proxy, producers, factor);
    case RevalueCall(n, delta) => WithStakeKeeps(s.voters, n, delta, s.rank);
    case RestakeCall(n, delta, vested, factor) =>
      WithStakeKeeps(s.voters, n, delta, s.rank);
      var m := WithStake(s.voters, n, delta);
      UpdateKeeps(s.(voters := m), n, m[n].proxy, m[n].producers, factor);
    case RegProxyCall(n, isProxy, factor) => if n in s.voters { RoleKeeps(s.voters, n, isProxy, s.rank); }
  }

  ghost function Next(s: State, a: Action): State {
    if Valid(s) && Step(s, a).Some? then Step(s, a).value else s
  }

  ghost function Run(s: State, actions: seq<Action>): State
    decreases |actions|
  {
    if actions == [] then s else Run(Next(s, actions[0]), actions[1..])
  }

  lemma {:induction false} RunKeeps(s: State, actions: seq<Action>)
    requires Valid(s)
    ensures Valid(Run(s, actions))
    decreases |actions|
  {
    hide Valid, Step;
    if actions != [] {
      if Step(s, actions[0]).Some? {
        StepKeeps(s, actions[0]);
      }
      RunKeeps(Next(s, actions[0]), actions[1..]);
    }
  }

  /** In every reachable state no chain of proxies comes back to its start, so every propagation ends. */
  lemma ProxiesNeverCycle(s: State, actions: seq<Action>, n: Name, k: nat)
    requires s.voters == map[] && 0 < k
    ensures Along(Links(Run(s, actions).voters), n, k) != Some(n)
  {
    RunKeeps(s, actions);
    var r := Run(s, actions);
    WellFormedDescends(r.voters, r.rank);
    NoCycle(Links(r.voters), r.rank, n, k);
  }
}
