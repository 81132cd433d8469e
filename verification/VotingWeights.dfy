/** Which weights are up to date after an action. Changes of weight of one unit or less are not passed on to a proxy, so a proxy's
    `proxied_vote_weight` drifts away from the weights of the voters behind it; but by no more than two units with each action. */
module VotingWeights {
  import opened Tables
  import opened Totals
  import opened Resources
  import opened Voting

  /** What a voter's row contributes to a proxy. */
  ghost function Behind(p: Name): (Name, Voter) -> real {
    (n: Name, v: Voter) => if v.proxy == Some(p) then v.last else 0.0
  }

  /** What is recorded for a proxy beyond the recorded weights of the voters that use it. */
  ghost function Drift(voters: Voters, p: Name): real {
    (if p in voters then voters[p].proxied else 0.0) - Total(voters, Behind(p))
  }

  predicate Within(x: real, y: real, d: real) {
    y - d <= x <= y + d
  }

  /** One link of a chain changes the drift of the voter's proxy only, and only by a change of at most one unit, which is not passed on. */
  lemma LinkDrifts(voters: Voters, n: Name, factor: real, rank: Name -> nat, p: Name)
    requires WellFormed(voters, rank) && n in voters
    ensures Drift(Link(voters, n, factor, rank), p) - Drift(voters, p)
         == var change := Weight(voters[n], factor) - voters[n].last;
            if voters[n].proxy == Some(p) && Within(change, 0.0, 1.0) then -change else 0.0
  {
    assert Within(Weight(voters[n], factor) - voters[n].last, 0.0, 1.0) <==> Abs(Weight(voters[n], factor) - voters[n].last) <= 1.0;
    var r := Link(voters, n, factor, rank);
    LinkIs(voters, n, factor, rank);
    SameKeys(voters, r);
    if voters[n].proxy.Some? {
      ProxyBelow(voters, n, rank);
    }
    hide Link, WellFormed, Weight, Abs, Passes;
    RowMoves<Name, Voter>(voters, r, n, Behind(p));
  }

  /** A whole chain changes each drift by at most one unit. */
  lemma {:induction false} PropagateDrifts(voters: Voters, n: Name, factor: real, rank: Name -> nat, p: Name)
    requires WellFormed(voters, rank) && n in voters
    ensures Within(Drift(Propagate(voters, n, factor, rank), p), Drift(voters, p), 1.0)
    decreases rank(n)
  {
    LinkDrifts(voters, n, factor, rank, p);
    hide Link, WellFormed, Weight, Drift;
    if Passes(voters[n], factor) {
      ProxyBelow(voters, n, rank);
      PropagateDrifts(Link(voters, n, factor, rank), voters[n].proxy.value, factor, rank, p);
    }
  }

  lemma ProxiedDrifts(voters: Voters, q: Name, delta: real, p: Name)
    requires q in voters
    ensures Drift(Proxied(voters, q, delta), p) == Drift(voters, p) + if p == q then delta else 0.0
  {
    RowMoves<Name, Voter>(voters, Proxied(voters, q, delta), q, Behind(p));
  }

  lemma LeftDrifts(voters: Voters, n: Name, factor: real, rank: Name -> nat, p: Name)
    requires WellFormed(voters, rank) && n in voters && 0.0 <= voters[n].last
    ensures Within(Drift(Left(voters, n, factor, rank), p), Drift(voters, p) - (if voters[n].proxy == Some(p) then voters[n].last else 0.0), 1.0)
  {
    hide WellFormed, Propagate, Drift, Proxied;
    var v := voters[n];
    if 0.0 < v.last && v.proxy.Some? {
      ProxyBelow(voters, n, rank);
      ProxiedDrifts(voters, v.proxy.value, -v.last, p);
      ProxiedKeeps(voters, v.proxy.value, -v.last, rank);
      SameKeys(voters, Proxied(voters, v.proxy.value, -v.last));
      PropagateDrifts(Proxied(voters, v.proxy.value, -v.last), v.proxy.value, factor, rank, p);
    }
  }

  lemma JoinedDrifts(voters: Voters, proxy: Option<Name>, weight: real, factor: real, rank: Name -> nat, p: Name)
    requires WellFormed(voters, rank) && (proxy.Some? ==> proxy.value in voters) && 0.0 <= weight
    ensures Within(Drift(Joined(voters, proxy, weight, factor, rank), p), Drift(voters, p) + (if proxy == Some(p) then weight else 0.0), 1.0)
  {
    hide WellFormed, Propagate, Drift, Proxied;
    if proxy.Some? {
      ProxiedDrifts(voters, proxy.value, weight, p);
      ProxiedKeeps(voters, proxy.value, weight, rank);
      SameKeys(voters, Proxied(voters, proxy.value, weight));
      PropagateDrifts(Proxied(voters, proxy.value, weight), proxy.value, factor, rank, p);
    }
  }

  lemma RowDrifts(m: Voters, n: Name, row: Voter, p: Name)
    requires n in m && row.proxied == m[n].proxied
    ensures Drift(m[n := row], p) == Drift(m, p) + (if m[n].proxy == Some(p) then m[n].last else 0.0)
                                                - (if row.proxy == Some(p) then row.last else 0.0)
  {
    RowMoves<Name, Voter>(m, m[n := row], n, Behind(p));
  }

  /** A vote moves the voter's old weight out of the old proxy and the new weight into the new one: but for the two chains, no
      drift. */
  lemma VoteDrifts(voters: Voters, n: Name, proxy: Option<Name>, producers: seq<Name>, factor: real, rank: Name -> nat, p: Name)
    requires WellFormed(voters, rank) && Aim(voters, n, proxy, rank)
    requires 0.0 <= voters[n].last && 0.0 <= Weight(voters[n], factor)
    ensures Within(Drift(UpdateVotes(voters, n, proxy, producers, factor, rank), p), Drift(voters, p), 2.0)
  {
    hide WellFormed, Propagate, Drift, Left, Joined, Weight;
    var weight := Weight(voters[n], factor);
    var l := Left(voters, n, factor, rank);
    SameKeys(voters, l);
    VoterIsNotRevisited(voters, n, proxy, producers, factor, rank);
    LeftDrifts(voters, n, factor, rank, p);
    JoinedDrifts(l, proxy, weight, factor, rank, p);
    var m := Joined(l, proxy, weight, factor, rank);
    SameKeys(l, m);
    RowDrifts(m, n, m[n].(last := weight, proxy := proxy, producers := producers), p);
  }

  // ----- what is up to date -----

  /** Propagation leaves the voter it starts from with its true weight, and touches no other part of the row. */
  lemma StartIsCurrent(voters: Voters, n: Name, factor: real, rank: Name -> nat)
    requires WellFormed(voters, rank) && n in voters
    ensures Propagate(voters, n, factor, rank)[n] == voters[n].(last := Weight(voters[n], factor))
  {
    LinkIs(voters, n, factor, rank);
    if Passes(voters[n], factor) {
      ProxyBelow(voters, n, rank);
      AboveUntouched(Link(voters, n, factor, rank), voters[n].proxy.value, n, factor, rank);
    }
    hide WellFormed, Link, Weight, Passes, OnChain;
  }

  /** After a vote for a proxy, with a weight that is not negative, the proxy votes with its true weight. */
  lemma ProxyIsCurrent(voters: Voters, n: Name, p: Name, factor: real, rank: Name -> nat)
    requires WellFormed(voters, rank) && Aim(voters, n, Some(p), rank) && 0.0 <= Weight(voters[n], factor)
    ensures var r := UpdateVotes(voters, n, Some(p), [], factor, rank); p in r && r[p].last == Weight(r[p], factor)
  {
    hide WellFormed, Propagate, Left, Weight;
    var l := Left(voters, n, factor, rank);
    SameKeys(voters, l);
    var m := Proxied(l, p, Weight(voters[n], factor));
    ProxiedKeeps(l, p, Weight(voters[n], factor), rank);
    SameKeys(l, m);
    StartIsCurrent(m, p, factor, rank);
    WeightDepends(m[p], m[p].(last := Weight(m[p], factor)), factor);
  }

  lemma WeightDepends(v: Voter, w: Voter, factor: real)
    requires w == v.(last := w.last)
    ensures Weight(w, factor) == Weight(v, factor)
  {
  }

  /** A change of stake is refused exactly if the stake would be negative or b1 has not vested enough; it changes the voter's
      stake by just that, repeats a recorded vote with the new weight, and leaves any other choice. */
  lemma StakeIsRecorded(s: State, n: Name, delta: int, vested: bool, factor: real)
    requires Valid(s)
    ensures var r := Restake(s, n, delta, vested, factor);
            var before := if n in s.voters then s.voters[n] else Voter(0, 0.0, 0.0, None, [], false);
            var v := before.(staked := before.staked + delta);
            && (r.Some? <==> 0 <= v.staked && (n == B1 ==> vested))
            && (r.Some? ==>
                  && n in r.value.voters
                  && r.value.voters[n] == if v.proxy.None? && v.producers == [] then v
                       else v.(last := v.staked as real * factor + (if v.isProxy then v.proxied else 0.0)))
  {
    var m := WithStake(s.voters, n, delta);
    WithStakeKeeps(s.voters, n, delta, s.rank);
    VoterIsNotRevisited(m, n, m[n].proxy, m[n].producers, factor, s.rank);
    hide WellFormed, UpdateVotes, Left, Joined, HasBallots, Aim;
  }

  /** A change in the value of a voter's REX changes the stake, and nothing else until the next vote. */
  lemma ValueIsRecorded(s: State, n: Name, delta: int)
    ensures var r := Revalue(s, n, delta);
            if n in s.voters then r == s.(voters := s.voters[n := s.voters[n].(staked := s.voters[n].staked + delta)]) else r == s
  {
  }

  /** An account changes its role exactly if that changes anything and it uses no proxy; then it votes with its true weight. */
  lemma RoleIsRecorded(s: State, n: Name, isProxy: bool, factor: real)
    requires Valid(s)
    ensures var r := RegProxy(s, n, isProxy, factor);
            && (r.Some? <==> n !in s.voters || (s.voters[n].isProxy != isProxy && !(isProxy && s.voters[n].proxy.Some?)))
            && (r.Some? ==>
                  && n in r.value.voters && r.value.voters[n].isProxy == isProxy
                  && (n in s.voters ==>
                        var v := s.voters[n].(isProxy := isProxy);
                        r.value.voters[n] == v.(last := v.staked as real * factor + (if isProxy then v.proxied else 0.0))))
  {
    if n in s.voters && (isProxy ==> s.voters[n].proxy.None?) {
      RoleKeeps(s.voters, n, isProxy, s.rank);
      StartIsCurrent(s.voters[n := s.voters[n].(isProxy := isProxy)], n, factor, s.rank);
    }
    hide WellFormed, Propagate, HasBallots;
  }

  // ----- actions and runs -----

  /** No voter's recorded weight is negative. */
  ghost predicate NonNegativeWeights(voters: Voters) {
    forall n | n in voters :: 0.0 <= voters[n].last
  }

  lemma NewRowDrifts(voters: Voters, n: Name, row: Voter, p: Name)
    requires n !in voters && row.proxied == 0.0 && row.proxy.None?
    ensures Drift(voters[n := row], p) == Drift(voters, p)
  {
    TotalPut<Name, Voter>(voters, n, row, Behind(p));
  }

  lemma StakeDrifts(voters: Voters, n: Name, delta: int, p: Name)
    ensures Drift(WithStake(voters, n, delta), p) == Drift(voters, p)
  {
    hide Drift;
    if n in voters {
      RowDrifts(voters, n, voters[n].(staked := voters[n].staked + delta), p);
    } else {
      NewRowDrifts(voters, n, Voter(delta, 0.0, 0.0, None, [], false), p);
    }
  }

  lemma RestakeDrifts(s: State, n: Name, delta: int, vested: bool, factor: real, p: Name)
    requires Valid(s) && Restake(s, n, delta, vested, factor).Some?
    requires NonNegativeWeights(s.voters) && NonNegativeWeights(Restake(s, n, delta, vested, factor).value.voters)
    ensures Within(Drift(Restake(s, n, delta, vested, factor).value.voters, p), Drift(s.voters, p), 2.0)
  {
    hide WellFormed, HasBallots, UpdateVotes, Weight, Drift, Aim;
    var m := WithStake(s.voters, n, delta);
    WithStakeKeeps(s.voters, n, delta, s.rank);
    StakeDrifts(s.voters, n, delta, p);
    if !(m[n].proxy.None? && m[n].producers == []) {
      VoterIsNotRevisited(m, n, m[n].proxy, m[n].producers, factor, s.rank);
      VoteDrifts(m, n, m[n].proxy, m[n].producers, factor, s.rank, p);
    }
  }

  lemma NewVoteDrifts(s: State, n: Name, proxy: Option<Name>, producers: seq<Name>, registered: bool, holdsRex: bool, factor: real,
                      p: Name)
    requires Valid(s) && Vote(s, n, proxy, producers, registered, holdsRex, factor).Some?
    requires NonNegativeWeights(s.voters) && NonNegativeWeights(Vote(s, n, proxy, producers, registered, holdsRex, factor).value.voters)
    ensures Within(Drift(Vote(s, n, proxy, producers, registered, holdsRex, factor).value.voters, p), Drift(s.voters, p), 2.0)
  {
    hide WellFormed, HasBallots, UpdateVotes, Weight, Drift;
    RankedKeeps(s, proxy);
    var s1 := Ranked(s, proxy);
    VoterIsNotRevisited(s1.voters, n, proxy, producers, factor, s1.rank);
    VoteDrifts(s1.voters, n, proxy, producers, factor, s1.rank, p);
  }

  lemma RoleDrifts(s: State, n: Name, isProxy: bool, factor: real, p: Name)
    requires Valid(s) && RegProxy(s, n, isProxy, factor).Some?
    ensures Within(Drift(RegProxy(s, n, isProxy, factor).value.voters, p), Drift(s.voters, p), 1.0)
  {
    hide WellFormed, HasBallots, Propagate, Drift;
    if n in s.voters {
      var row := s.voters[n].(isProxy := isProxy);
      RoleKeeps(s.voters, n, isProxy, s.rank);
      RowDrifts(s.voters, n, row, p);
      PropagateDrifts(s.voters[n := row], n, factor, s.rank, p);
    } else {
      NewRowDrifts(s.voters, n, Voter(0, 0.0, 0.0, None, [], isProxy), p);
    }
  }

  /** Each action changes each proxy's drift by at most two units, as long as no weight is negative. */
  lemma StepDrifts(s: State, a: Action, p: Name)
    requires Valid(s) && Step(s, a).Some? && NonNegativeWeights(s.voters) && NonNegativeWeights(Step(s, a).value.voters)
    ensures Within(Drift(Step(s, a).value.voters, p), Drift(s.voters, p), 2.0)
  {
    hide Valid, Vote, Restake, RegProxy, Drift, WithStake;
    match a
    case VoteCall(n, proxy, producers, registered, holdsRex, factor) => NewVoteDrifts(s, n, proxy, producers, registered, holdsRex, factor, p);
    case RestakeCall(n, delta, vested, factor) => RestakeDrifts(s, n, delta, vested, factor, p);
    case RevalueCall(n, delta) => StakeDrifts(s.voters, n, delta, p);
    case RegProxyCall(n, isProxy, factor) => RoleDrifts(s, n, isProxy, factor, p);
  }

  /** A run in which no recorded weight is ever negative. */
  ghost predicate NeverNegative(s: State, actions: seq<Action>)
    decreases |actions|
  {
    NonNegativeWeights(s.voters) && (actions != [] ==> NeverNegative(Next(s, actions[0]), actions[1..]))
  }

  lemma NeverNegativeNow(s: State, actions: seq<Action>)
    requires NeverNegative(s, actions)
    ensures NonNegativeWeights(s.voters)
  {
  }

  lemma {:induction false} RunDrifts(s: State, actions: seq<Action>, p: Name)
    requires Valid(s) && NeverNegative(s, actions)
    ensures Within(Drift(Run(s, actions).voters, p), Drift(s.voters, p), 2.0 * |actions| as real)
    decreases |actions|
  {
    hide Valid, Step, Drift, NonNegativeWeights;
    if actions != [] {
      var s1 := Next(s, actions[0]);
      NeverNegativeNow(s1, actions[1..]);
      if Step(s, actions[0]).Some? {
        StepDrifts(s, actions[0], p);
        StepKeeps(s, actions[0]);
      }
      RunDrifts(s1, actions[1..], p);
    }
  }

  /** From the first vote on, what is recorded for a proxy is the sum of what the voters behind it are recorded to vote with, up
      to two units for each action there was. */
  lemma ProxiedWeightIsClose(s: State, actions: seq<Action>, p: Name)
    requires s.voters == map[] && NeverNegative(s, actions)
    ensures var r := Run(s, actions).voters;
            p in r ==> Within(r[p].proxied, Total(r, Behind(p)), 2.0 * |actions| as real)
  {
    RunDrifts(s, actions, p);
    TotalZero<Name, Voter>(s.voters, Behind(p));
  }
}
