/** What staking pool owners can rely on over whole runs. */
module StakingGuarantees {
  import opened Tables
  import opened Totals
  import opened Resources
  import opened StakingPools
  import opened StakingInvariants

  /** A failed action changes nothing. */
  function Next(s: State, a: Action): State {
    if Shaped(s) && Step(s, a).Some? then Step(s, a).value else s
  }

  function Run(s: State, actions: seq<Action>): State
    decreases |actions|
  {
    if actions == [] then s else Run(Next(s, actions[0]), actions[1..])
  }

  /** The pools as the first cfgsrpool creates them. */
  ghost predicate Initial(s: State) {
    && 0 <= s.slot && s.voters == map[] && s.namebids == 0 && 0 <= s.tokens
    && forall i | 0 <= i < |s.pools| ::
         s.pools[i].balance == 0 && s.pools[i].shares == 0.0 && 0 < s.pools[i].claimPeriod < s.pools[i].duration
  }

  ghost predicate Funded(s: State) {
    Inv(s) && Shaped(s) && TotalBalance(s.pools) <= s.tokens
  }

  lemma InitialFunded(s: State)
    requires Initial(s)
    ensures Funded(s) && TotalBalance(s.pools) == 0
  {
    NoBalance(s.pools);
  }

  lemma {:induction false} NoBalance(pools: seq<Pool>)
    requires forall i | 0 <= i < |pools| :: pools[i].balance == 0
    ensures TotalBalance(pools) == 0
  {
    if pools != [] {
      NoBalance(pools[..|pools| - 1]);
    }
  }

  function Gifts(s: State, actions: seq<Action>): int
    decreases |actions|
  {
    if actions == [] then 0 else
    (if Shaped(s) && Step(s, actions[0]).Some? then Gift(actions[0]) else 0) + Gifts(Next(s, actions[0]), actions[1..])
  }

  lemma NextFunded(s: State, a: Action)
    requires Funded(s)
    ensures Funded(Next(s, a)) && |Next(s, a).pools| == |s.pools| && s.slot <= Next(s, a).slot
    ensures Next(s, a).tokens - TotalBalance(Next(s, a).pools) ==
            s.tokens - TotalBalance(s.pools) + (if Step(s, a).Some? then Gift(a) else 0)
    ensures forall i | 0 <= i < |s.pools| ::
              Next(s, a).pools[i].duration == s.pools[i].duration && Next(s, a).pools[i].claimPeriod == s.pools[i].claimPeriod
  {
    hide Inv, Step, TotalBalance;
    if Step(s, a).Some? {
      StepKeeps(s, a, 0);
      GiftPositive(s, a);
    }
  }

  lemma GiftPositive(s: State, a: Action)
    requires Shaped(s) && Step(s, a).Some?
    ensures 0 <= Gift(a)
  {
  }

  lemma {:induction false} RunFunded(s: State, actions: seq<Action>)
    requires Funded(s)
    ensures var r := Run(s, actions);
            && Funded(r) && |r.pools| == |s.pools| && s.slot <= r.slot
            && r.tokens - TotalBalance(r.pools) == s.tokens - TotalBalance(s.pools) + Gifts(s, actions)
            && forall i | 0 <= i < |s.pools| ::
                 r.pools[i].duration == s.pools[i].duration && r.pools[i].claimPeriod == s.pools[i].claimPeriod
    decreases |actions|
  {
    hide Funded, Step, TotalBalance;
    if actions != [] {
      FundedIsShaped(s);
      NextFunded(s, actions[0]);
      RunFunded(Next(s, actions[0]), actions[1..]);
    }
  }

  lemma FundedIsShaped(s: State)
    requires Funded(s)
    ensures Shaped(s)
  {
  }

  /** After any run eosio.srpool holds exactly the pools' balances, what it had before and what it was given; every pool's
      shares are owned; and a pool has shares exactly if it has tokens. */
  lemma PoolsAreSolvent(s: State, actions: seq<Action>)
    requires Initial(s)
    ensures var r := Run(s, actions);
            && r.tokens == TotalBalance(r.pools) + s.tokens + Gifts(s, actions)
            && forall i: nat | i < |r.pools| ::
                 && r.pools[i].shares == Total(r.voters, OwnedIn(i))
                 && (0.0 < r.pools[i].shares <==> 0 < r.pools[i].balance)
  {
    hide ValidVoters;
    InitialFunded(s);
    RunFunded(s, actions);
  }

  // ----- no dilution -----

  /** If each share is worth no less, the same shares are worth no fewer tokens. */
  lemma WorthGrows(p: Pool, p': Pool, x: real)
    requires ValidPool(p) && ValidPool(p') && 0.0 < x <= p.shares && x <= p'.shares && KeepsValue(p, p')
    ensures Worth(p, x) <= Worth(p', x)
  {
    var b, b' := p.balance as real, p'.balance as real;
    Exact(p, x);
    Exact(p', x);
    ValueOf(x, b, p.shares, b', p'.shares);
  }

  lemma Exact(p: Pool, x: real)
    requires ValidPool(p) && 0.0 < x <= p.shares
    ensures Worth(p, x) == Share(x, p.balance as real, p.shares).Floor
  {
    if x == p.shares {
      ExactShare(x, p.balance as real, p.balance as real, p.shares);
    }
  }

  lemma ValueOf(x: real, b: real, s: real, b': real, s': real)
    requires 0.0 < x && 0.0 < s && 0.0 < s' && b * s' <= b' * s
    ensures Share(x, b, s) <= Share(x, b', s')
  {
    var v, v' := Share(x, b, s), Share(x, b', s');
    assert v * s == x * b && v' * s' == x * b';
    RealBelow(b * s', b' * s, x);
    assert v * (s * s') == (v * s) * s' == (b * s') * x;
    assert v' * (s * s') == (v' * s') * s == (b' * s) * x;
    RealBelow(0.0, s, s');
    RealBelow(v, v', s * s');
  }

  ghost predicate OnlyBystander(actions: seq<Action>, n: Name) {
    forall i | 0 <= i < |actions| :: Bystander(actions[i], n)
  }

  lemma {:induction false} RunSpares(s: State, actions: seq<Action>, n: Name)
    requires Funded(s) && OnlyBystander(actions, n)
    ensures Spares(s, Run(s, actions), n)
    decreases |actions|
  {
    hide Step, Inv, TotalBalance, Spares, Bystander;
    SparesSelf(s, n);
    if actions != [] {
      var s1 := Next(s, actions[0]);
      NextFunded(s, actions[0]);
      if Step(s, actions[0]).Some? {
        StepKeeps(s, actions[0], n);
      }
      RunSpares(s1, actions[1..], n);
      RunFunded(s1, actions[1..]);
      SparesTransitive(s, s1, Run(s1, actions[1..]), n);
    }
  }

  /** Nobody's stake loses value through what others do, over any run. */
  lemma OthersNeverDilute(s: State, actions: seq<Action>, n: Name, i: nat)
    requires Funded(s) && OnlyBystander(actions, n) && i < |s.pools|
    ensures var r := Run(s, actions);
            && |r.pools| == |s.pools| && OwnedOf(r, n, i) == OwnedOf(s, n, i)
            && Worth(s.pools[i], OwnedOf(s, n, i)) <= Worth(r.pools[i], OwnedOf(r, n, i))
  {
    hide Worth, KeepsValue;
    RunSpares(s, actions, n);
    RunFunded(s, actions);
    var r := Run(s, actions);
    if 0.0 < OwnedOf(s, n, i) {
      TotalAtLeast<Name, Voter>(s.voters, n, OwnedIn(i));
      TotalAtLeast<Name, Voter>(r.voters, n, OwnedIn(i));
      WorthGrows(s.pools[i], r.pools[i], OwnedOf(s, n, i));
    } else {
      NothingOwned(s, n, i);
      WorthOfNothing(s.pools[i]);
      WorthOfNothing(r.pools[i]);
    }
  }

  lemma NothingOwned(s: State, n: Name, i: nat)
    requires Funded(s) && !(0.0 < OwnedOf(s, n, i)) && i < |s.pools|
    ensures OwnedOf(s, n, i) == 0.0
  {
  }

  lemma WorthOfNothing(p: Pool)
    ensures Worth(p, 0.0) == 0
  {
  }

  // ----- claim rate -----

  lemma {:induction false} RunTimers(s: State, actions: seq<Action>, n: Name, i: nat)
    requires Funded(s) && i < |s.pools|
    ensures NextOf(s, n, i) <= NextOf(Run(s, actions), n, i)
    decreases |actions|
  {
    hide Step, Inv, TotalBalance;
    if actions != [] {
      NextFunded(s, actions[0]);
      if Step(s, actions[0]).Some? {
        TimersNeverGoBack(s, actions[0], n, i);
      }
      RunTimers(Next(s, actions[0]), actions[1..], n, i);
    }
  }

  /** Two successful claims of the same stake are at least claim_period seconds, twice as many slots, apart, whatever happens in
      between. */
  lemma ClaimsAreSpaced(s: State, owner: Name, i: nat, requested: int, votes: bool, between: seq<Action>, again: int, votes': bool)
    requires Funded(s) && ClaimStake(s, owner, i, requested, votes).Some?
    requires var r := Run(ClaimStake(s, owner, i, requested, votes).value, between);
             Shaped(r) && ClaimStake(r, owner, i, again, votes').Some?
    ensures var r := Run(ClaimStake(s, owner, i, requested, votes).value, between);
            s.slot + 2 * s.pools[i].claimPeriod <= r.slot
  {
    hide Inv, TotalBalance, ClaimStake, Worth, Portion, Withdraw, DistributeNamebids, Spares, StakeOf, Run;
    ClaimKeeps(s, owner, i, requested, votes, owner);
    var s1 := ClaimStake(s, owner, i, requested, votes).value;
    RunFunded(s1, between);
    RunTimers(s1, between, owner, i);
    var r := Run(s1, between);
    ClaimKeeps(r, owner, i, again, votes', owner);
    TimerOf(r, owner, i);
  }

  lemma TimerOf(s: State, owner: Name, i: nat)
    requires Shaped(s) && i < |s.pools|
    ensures StakeOf(s, owner, i).nextClaim == NextOf(s, owner, i) && StakeOf(s, owner, i).owned == OwnedOf(s, owner, i)
  {
  }

  predicate Claims(a: Action, owner: Name, i: nat) {
    a.ClaimCall? && a.owner == owner && a.pool == i
  }

  /** Actions that move an owner's stake out of a pool other than by claiming. */
  predicate MovesOut(a: Action, owner: Name, i: nat) {
    (a.TransferCall? || a.UpgradeCall?) && a.owner == owner && a.pool == i
  }

  function ClaimCount(s: State, actions: seq<Action>, owner: Name, i: nat): nat
    decreases |actions|
  {
    if actions == [] then 0 else
    (if Shaped(s) && Step(s, actions[0]).Some? && Claims(actions[0], owner, i) then 1 else 0)
    + ClaimCount(Next(s, actions[0]), actions[1..], owner, i)
  }

  function Power(r: real, k: nat): real {
    if k == 0 then 1.0 else r * Power(r, k - 1)
  }

  lemma {:induction false} PowerPositive(r: real, k: nat)
    requires 0.0 <= r
    ensures 0.0 <= Power(r, k)
  {
    if k != 0 {
      PowerPositive(r, k - 1);
      RealTimes(r, Power(r, k - 1));
    }
  }

  lemma RealTimes(x: real, y: real)
    requires 0.0 <= x && 0.0 <= y
    ensures 0.0 <= x * y
  {
  }

  /** Without a claim and without moving stake out, nothing lowers an owner's shares. */
  lemma StepTakesNothing(s: State, a: Action, owner: Name, i: nat)
    requires Funded(s) && Step(s, a).Some? && i < |s.pools| && !MovesOut(a, owner, i) && !Claims(a, owner, i)
    ensures OwnedOf(s, owner, i) <= OwnedOf(Step(s, a).value, owner, i)
  {
    hide Inv, KeepsValue, StakeToPool, ClaimStake, TransferStake, UpgradeStake, TotalBalance, Channel, Worth, Portion,
         StakeOf, DistributeNamebids, PayEach, Spares, Conserves, OwnedOf;
    match a
    case StakeCall(from, j, amount) => StakeTimer(s, from, j, amount, owner, i);
    case ClaimCall(from, j, requested, votes) => ClaimTimer(s, from, j, requested, votes, owner, i);
    case TransferCall(from, to, j, requested) => TransferKeeps(s, from, to, j, requested, owner);
    case UpgradeCall(from, j, h, requested) => UpgradeKeeps(s, from, j, h, requested, owner);
    case _ =>
      StepKeeps(s, a, owner);
      SparedTimer(s, Step(s, a).value, owner, i);
  }

  /** A claim takes at most the claimable part. */
  lemma ClaimTakes(s: State, a: Action, owner: Name, i: nat)
    requires Funded(s) && Step(s, a).Some? && i < |s.pools| && Claims(a, owner, i)
    ensures s.pools[i].duration != 0
    ensures OwnedOf(Step(s, a).value, owner, i) >= OwnedOf(s, owner, i) * KeepRate(s.pools[i])
  {
    PeriodPositive(s, i);
    hide Inv, KeepsValue, ClaimStake, TotalBalance, Worth, Portion, StakeOf, DistributeNamebids, Spares, Conserves, KeepRate, OwnedOf;
    ClaimKeeps(s, owner, i, a.requested, a.votes, owner);
  }

  lemma KeepRatePositive(s: State, i: nat)
    requires Funded(s) && i < |s.pools|
    ensures s.pools[i].duration != 0 && 0.0 < KeepRate(s.pools[i]) < 1.0
  {
    PeriodPositive(s, i);
    var c, d := s.pools[i].claimPeriod as real, s.pools[i].duration as real;
    assert c / d * d == c;
    RealBelow(c / d, 1.0, d);
    RealBelow(0.0, c / d, d);
  }

  /** Over k claims, and without moving stake out, an owner keeps at least (1 - claim_period / duration)^k of the shares. */
  lemma {:induction false} ClaimsLeave(s: State, actions: seq<Action>, owner: Name, i: nat)
    requires Funded(s) && i < |s.pools|
    requires forall j | 0 <= j < |actions| :: !MovesOut(actions[j], owner, i)
    ensures s.pools[i].duration != 0
    ensures OwnedOf(Run(s, actions), owner, i) >=
            OwnedOf(s, owner, i) * Power(KeepRate(s.pools[i]), ClaimCount(s, actions, owner, i))
    decreases |actions|
  {
    hide Step, Inv, TotalBalance, KeepRate, Power, MovesOut;
    KeepRatePositive(s, i);
    PowerZero(KeepRate(s.pools[i]));
    if actions != [] {
      var a, s1 := actions[0], Next(s, actions[0]);
      NextFunded(s, a);
      ClaimsLeave(s1, actions[1..], owner, i);
      KeepRateDepends(s.pools[i], s1.pools[i]);
      var rate, k := KeepRate(s.pools[i]), ClaimCount(s1, actions[1..], owner, i);
      PowerPositive(rate, k);
      if Step(s, a).Some? {
        if Claims(a, owner, i) {
          ClaimTakes(s, a, owner, i);
          PowerNext(rate, k);
          Compound(OwnedOf(s, owner, i) * rate, OwnedOf(s1, owner, i), Power(rate, k));
          assert OwnedOf(s, owner, i) * rate * Power(rate, k) == OwnedOf(s, owner, i) * (rate * Power(rate, k));
        } else {
          StepTakesNothing(s, a, owner, i);
          Compound(OwnedOf(s, owner, i), OwnedOf(s1, owner, i), Power(rate, k));
        }
      }
    }
  }

  lemma PowerZero(r: real)
    ensures Power(r, 0) == 1.0
  {
  }

  lemma PowerNext(r: real, k: nat)
    ensures Power(r, k + 1) == r * Power(r, k)
  {
  }

  lemma KeepRateDepends(p: Pool, q: Pool)
    requires p.duration == q.duration != 0 && p.claimPeriod == q.claimPeriod
    ensures KeepRate(p) == KeepRate(q)
  {
  }

  lemma Compound(x: real, y: real, c: real)
    requires x <= y && 0.0 <= c
    ensures x * c <= y * c
  {
  }
}
