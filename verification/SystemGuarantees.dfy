/** What REX users can rely on over whole runs of the contract, whatever staking, powerup and the RAM market do in between:
    exact solvency, withdrawals that are paid, a price that never falls, REX that is conserved, and sell orders that are
    filled after thirty days at the latest. */
module SystemGuarantees {
  import opened Tables
  import opened Resources
  import opened SystemLedger
  import R = Rex
  import RexInvariants
  import RexActions
  import RexPrice
  import RG = RexGuarantees
  import RexBalances
  import RexReturns
  import B = Bandwidth
  import P = Powerup
  import PI = PowerupInvariants
  import M = RamMarket

  /** What an action does to the REX pool, stated as one of three cases. */
  lemma OthersLeaveRex(c: Chain, a: Action)
    requires Step(c, a).Some? && !a.RexCall? && !a.UnstakeToRexCall? && !a.Advance?
    ensures var r := Step(c, a).value.rex; r == c.rex.(resources := r.resources)
  {
    hide R.Step, B.Step, P.Step, M.Step;
  }

  /** Every action's share of the surplus of eosio.rex. */
  ghost function Gain(c: Chain, a: Action): int {
    match a
    case RexCall(r) => RexActions.Gain(c.rex, r)
    case UnstakeToRexCall(_, _, _, _, _) => RexActions.Forgotten(c.rex.pool)
    case _ => 0
  }

  lemma StepGains(c: Chain, a: Action, q0: int)
    requires Inv(c, q0) && Step(c, a).Some?
    ensures RexInvariants.Surplus(Step(c, a).value.rex) == RexInvariants.Surplus(c.rex) + Gain(c, a) && 0 <= Gain(c, a)
  {
    hide RexInvariants.InvExcept, B.Inv, PI.Inv, M.Inv, R.Step, B.Step, P.Step, M.Step, B.StakeToRex, R.BuyWithStake,
         RexInvariants.Surplus, RexActions.Lowered;
    var c' := Step(c, a).value;
    RG.ForgottenNonNegative(c.rex, ForRex(c));
    match a
    case RexCall(r) =>
      RexActions.StepKeeps(c.rex, r, ForRex(c));
      RG.GainNonNegative(c.rex, r, ForRex(c));
      SurplusIgnoresResources(R.Step(c.rex, r).value, c'.rex.resources);
    case UnstakeToRexCall(owner, receiver, net, cpu, votes) =>
      DelegationLowered(c, owner, receiver, net, cpu, q0);
      var o' := ForRex(c.(bw := B.StakeToRex(c.bw, owner, receiver, net, cpu).value));
      RexActions.BuyWithStakeKeeps(c.rex, owner, receiver, net, cpu, votes, ForRex(c), o');
    case Advance(time, slot) => RexActions.StepKeeps(c.rex, R.Action.Advance(time), ForRex(c));
    case _ =>
      OthersLeaveRex(c, a);
      SurplusIgnoresResources(c.rex, c'.rex.resources);
  }

  ghost function RunGain(c: Chain, actions: seq<Action>): int
    decreases |actions|
  {
    if actions == [] then 0 else
    (if Step(c, actions[0]).Some? then Gain(c, actions[0]) else 0) + RunGain(Next(c, actions[0]), actions[1..])
  }

  lemma {:induction false} RunGains(c: Chain, actions: seq<Action>, q0: int)
    requires Inv(c, q0)
    ensures RexInvariants.Surplus(Run(c, actions).rex) == RexInvariants.Surplus(c.rex) + RunGain(c, actions)
    ensures 0 <= RunGain(c, actions)
    decreases |actions|
  {
    hide Inv, Step, Gain, RexInvariants.Surplus;
    if actions != [] {
      if Step(c, actions[0]).Some? {
        StepKeeps(c, actions[0], q0);
        StepGains(c, actions[0], q0);
      }
      RunGains(Next(c, actions[0]), actions[1..], q0);
    }
  }

  /** In every reachable state the REX tables are consistent with what the other subsystems granted. */
  lemma Reached(c: Chain, supply: int, actions: seq<Action>)
    requires Genesis(c, supply)
    ensures var r := Run(c, actions);
            && Inv(r, c.ram.quote) && RexInvariants.Inv(r.rex, ForRex(r))
            && RexInvariants.Surplus(r.rex) == c.rex.tokens + RunGain(c, actions) && 0 <= RunGain(c, actions)
  {
    hide RexInvariants.InvExcept, B.Inv, PI.Inv, M.Inv;
    GenesisInv(c, supply);
    RG.InitialInv(c.rex, ForRex(c));
    RunKeeps(c, actions, c.ram.quote);
    RunGains(c, actions, c.ram.quote);
  }

  /** Solvency: after any run, eosio.rex holds what it owes plus exactly what it started with, was given, and forgot when an
      empty pool restarted. */
  lemma Solvency(c: Chain, supply: int, actions: seq<Action>)
    requires Genesis(c, supply)
    ensures var r := Run(c, actions);
            && RexInvariants.Liabilities(r.rex) <= r.rex.tokens
            && r.rex.tokens == RexInvariants.Liabilities(r.rex) + c.rex.tokens + RunGain(c, actions)
  {
    hide Inv, RexInvariants.Liabilities;
    Reached(c, supply, actions);
  }

  /** In every reachable state a withdrawal succeeds exactly when the owner's fund and uncollected proceeds cover it. */
  lemma WithdrawalsArePaid(c: Chain, supply: int, actions: seq<Action>, owner: Name, amount: int)
    requires Genesis(c, supply) && 0 < amount
    ensures var r := Run(c, actions).rex;
            R.Withdraw(r, owner, amount).Some? <==>
            amount <= (if owner in r.funds then r.funds[owner] else 0) + R.ClosedProceeds(r, owner)
  {
    hide Inv, RexInvariants.Surplus, RexInvariants.InvExcept;
    Reached(c, supply, actions);
    RG.WithdrawalIsPaid(Run(c, actions).rex, owner, amount, ForRex(Run(c, actions)));
  }

  /** In every reachable state all of an owner's REX is accounted for, in at most six ordered buckets, and an open sell
      order has its owner's balance row behind it and is covered by matured REX. */
  lemma OwnersRexIsConserved(c: Chain, supply: int, actions: seq<Action>, owner: Name)
    requires Genesis(c, supply)
    ensures var r := Run(c, actions).rex;
            && (owner in r.balances ==>
                  && var b := r.balances[owner];
                     && b.rex == b.matured + RexBalances.Total(b.maturities)
                     && |b.maturities| <= 6 && RexBalances.Sorted(b.maturities)
                     && 0 <= R.InSellOrder(r, owner) <= b.matured)
            && (owner in r.orders && r.orders[owner].isOpen ==>
                  owner in r.balances && 0 < r.orders[owner].requested <= r.balances[owner].matured)
  {
    hide Inv, RexInvariants.InvExcept;
    Reached(c, supply, actions);
    var r, o := Run(c, actions).rex, ForRex(Run(c, actions));
    if owner in r.balances {
      RG.OwnerConserved(r, owner, o);
    }
    if owner in r.orders && r.orders[owner].isOpen {
      RexPrice.QueuedIsBacked(r, owner, o);
    }
  }

  /** In every reachable state it makes no difference whether fees are released now and again, or later at once. */
  lemma LazyEqualsEager(c: Chain, supply: int, actions: seq<Action>, t1: int, t2: int)
    requires Genesis(c, supply) && Run(c, actions).rex.pool.Some?
    requires Run(c, actions).rex.now <= t1 <= t2 && RexReturns.ValidTime(t2 / 1_000_000)
    ensures var s := Run(c, actions).rex;
            var s1 := R.UpdateRexPool(s.(now := t1));
            s1.pool.Some? && R.UpdateRexPool(s1.(now := t2)) == R.UpdateRexPool(s.(now := t2))
  {
    hide Inv, R.UpdateRexPool, RexReturns.Valid, RexBalances.Valid, RexInvariants.Ledger;
    Reached(c, supply, actions);
    RexInvariants.LazyEqualsEager(Run(c, actions).rex, t1, t2);
  }

  // ----- price -----

  lemma StepPrice(c: Chain, a: Action, q0: int)
    requires Inv(c, q0) && Step(c, a).Some? && RexPrice.HasRex(c.rex) && RexPrice.HasRex(Step(c, a).value.rex)
    ensures RexPrice.PriceUp(c.rex, Step(c, a).value.rex)
  {
    hide RexInvariants.InvExcept, B.Inv, PI.Inv, M.Inv, R.Step, B.Step, P.Step, M.Step, B.StakeToRex, R.BuyWithStake, RexActions.Lowered;
    match a
    case RexCall(r) => RexPrice.PriceNeverFalls(c.rex, r, ForRex(c));
    case UnstakeToRexCall(owner, receiver, net, cpu, votes) =>
      DelegationLowered(c, owner, receiver, net, cpu, q0);
      var o' := ForRex(c.(bw := B.StakeToRex(c.bw, owner, receiver, net, cpu).value));
      RexPrice.BuyWithStakePrice(c.rex, owner, receiver, net, cpu, votes, ForRex(c), o');
    case Advance(time, slot) => RexPrice.PriceNeverFalls(c.rex, R.Action.Advance(time), ForRex(c));
    case _ => OthersLeaveRex(c, a);
  }

  /** A run during which REX is always outstanding. */
  ghost predicate AlwaysHasRex(c: Chain, actions: seq<Action>)
    decreases |actions|
  {
    RexPrice.HasRex(c.rex) && (actions != [] ==> AlwaysHasRex(Next(c, actions[0]), actions[1..]))
  }

  lemma {:induction false} PriceHolds(c: Chain, actions: seq<Action>, q0: int)
    requires Inv(c, q0) && AlwaysHasRex(c, actions)
    ensures RexPrice.PriceUp(c.rex, Run(c, actions).rex) && RexPrice.HasRex(Run(c, actions).rex)
    decreases |actions|
  {
    hide Inv, Step;
    if actions != [] {
      var c1 := Next(c, actions[0]);
      if Step(c, actions[0]).Some? {
        StepKeeps(c, actions[0], q0);
        StepPrice(c, actions[0], q0);
      }
      PriceHolds(c1, actions[1..], q0);
      var p, p1, p2 := c.rex.pool.value, c1.rex.pool.value, Run(c, actions).rex.pool.value;
      RexPrice.CrossMultiply(p.lendable, p.rex, p1.lendable, p1.rex, p2.lendable, p2.rex);
    }
  }

  /** From any reachable state on, the price of REX never falls while REX is outstanding. */
  lemma RunPrice(c: Chain, supply: int, before: seq<Action>, actions: seq<Action>)
    requires Genesis(c, supply) && AlwaysHasRex(Run(c, before), actions)
    ensures RexPrice.PriceUp(Run(c, before).rex, Run(Run(c, before), actions).rex)
  {
    hide Inv;
    GenesisInv(c, supply);
    RunKeeps(c, before, c.ram.quote);
    PriceHolds(Run(c, before), actions, c.ram.quote);
  }

  // ----- thirty days -----

  ghost predicate Queued(c: Chain) {
    c.rex.pool.Some? && RG.SomeOrderOpen(c.rex.orders)
  }

  /** Nothing has been rented out or renewed. */
  ghost predicate LendsNothing(s: R.State, s': R.State) {
    && s.pool.Some? && s'.pool.Some? && s'.pool.value.lent <= s.pool.value.lent
    && RG.NoNewLoans(s.cpu, s'.cpu) && RG.NoNewLoans(s.net, s'.net)
  }

  /** While any sell order waits, no action of any subsystem creates or renews a loan or raises what is lent. */
  lemma NothingLentWhileQueued(c: Chain, a: Action, q0: int)
    requires Inv(c, q0) && Step(c, a).Some? && Queued(c) && Queued(Step(c, a).value)
    ensures LendsNothing(c.rex, Step(c, a).value.rex)
  {
    hide RexInvariants.InvExcept, B.Inv, PI.Inv, M.Inv, R.Step, B.Step, P.Step, M.Step, B.StakeToRex, R.BuyWithStake,
         RexActions.Lowered, RG.SomeOrderOpen, RG.NoNewLoans;
    RG.SameLoans(c.rex.cpu);
    RG.SameLoans(c.rex.net);
    match a
    case RexCall(r) => RG.NothingLentWhileQueued(c.rex, r, ForRex(c));
    case UnstakeToRexCall(owner, receiver, net, cpu, votes) =>
      DelegationLowered(c, owner, receiver, net, cpu, q0);
      var o' := ForRex(c.(bw := B.StakeToRex(c.bw, owner, receiver, net, cpu).value));
      RG.BuyWithStakeLendsNothing(c.rex, owner, receiver, net, cpu, votes, ForRex(c), o');
    case Advance(time, slot) => RG.NothingLentWhileQueued(c.rex, R.Action.Advance(time), ForRex(c));
    case _ => OthersLeaveRex(c, a);
  }

  /** A run during which some sell order always waits. */
  ghost predicate AlwaysQueued(c: Chain, actions: seq<Action>)
    decreases |actions|
  {
    Queued(c) && (actions != [] ==> AlwaysQueued(Next(c, actions[0]), actions[1..]))
  }

  lemma AlwaysQueuedNow(c: Chain, actions: seq<Action>)
    requires AlwaysQueued(c, actions)
    ensures Queued(c)
  {
  }

  lemma LendsTransitive(a: R.State, b: R.State, c: R.State)
    requires LendsNothing(a, b) && LendsNothing(b, c)
    ensures LendsNothing(a, c)
  {
    RG.NoNewTransitive(a.cpu, b.cpu, c.cpu);
    RG.NoNewTransitive(a.net, b.net, c.net);
  }

  lemma LendsSelf(c: Chain)
    requires Queued(c)
    ensures LendsNothing(c.rex, c.rex)
  {
    RG.SameLoans(c.rex.cpu);
    RG.SameLoans(c.rex.net);
  }

  lemma {:induction false} NothingLent(c: Chain, actions: seq<Action>, q0: int)
    requires Inv(c, q0) && AlwaysQueued(c, actions)
    ensures LendsNothing(c.rex, Run(c, actions).rex)
    decreases |actions|
  {
    hide Inv, Step, LendsNothing, Queued;
    LendsSelf(c);
    if actions != [] {
      var c1 := Next(c, actions[0]);
      if Step(c, actions[0]).Some? {
        StepKeeps(c, actions[0], q0);
        AlwaysQueuedNow(c1, actions[1..]);
        NothingLentWhileQueued(c, actions[0], q0);
      }
      NothingLent(c1, actions[1..], q0);
      LendsTransitive(c.rex, c1.rex, Run(c, actions).rex);
    }
  }

  /** From any reachable state on, what is lent never rises while an order waits, and every loan left was there before. */
  lemma LentNeverRises(c: Chain, supply: int, before: seq<Action>, actions: seq<Action>)
    requires Genesis(c, supply) && AlwaysQueued(Run(c, before), actions)
    ensures LendsNothing(Run(c, before).rex, Run(Run(c, before), actions).rex)
  {
    hide Inv;
    GenesisInv(c, supply);
    RunKeeps(c, before, c.ram.quote);
    NothingLent(Run(c, before), actions, c.ram.quote);
  }

  /** Thirty days after an order was queued, in any reachable state, maintenance that covers the loans and orders there are
      gets every lent token back and fills every waiting order. It cannot be blocked. */
  lemma ThirtyDayGuarantee(c: Chain, supply: int, actions: seq<Action>, max: nat, queued: Name)
    requires Genesis(c, supply)
    requires var r := Run(c, actions).rex;
             && queued in r.orders && r.orders[queued].isOpen && r.orders[queued].time + R.THIRTY_DAYS <= r.now
             && |r.cpu| <= max && |r.net| <= max && |R.OpenOrders(r.orders)| <= max
    ensures var m := R.RunRex(Run(c, actions).rex, max);
            && m.Some? && m.value.pool.value.lent == 0
            && m.value.cpu == map[] && m.value.net == map[]
            && m.value.orders.Keys == Run(c, actions).rex.orders.Keys && !RG.SomeOrderOpen(m.value.orders)
  {
    hide Inv, RexInvariants.InvExcept, R.RunRex, R.OpenOrders;
    Reached(c, supply, actions);
    var r, o := Run(c, actions).rex, ForRex(Run(c, actions));
    RG.OrdersNeedPool(r, queued, o);
    RG.QueueClears(r, max, queued, o);
  }
}
