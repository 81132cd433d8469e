/** What takes how long, over whole runs of the contract: refunds wait three days, powerup orders last as long as they were
    sold for, and fees wait for noon or midnight. */
module SystemSchedules {
  import opened Tables
  import opened Resources
  import opened SystemLedger
  import R = Rex
  import RexInvariants
  import RexReturns
  import RexBalances
  import RexMaturities
  import RexTrades
  import RexOwners
  import RexCalls
  import RexActions
  import Bancor
  import RexGuarantees
  import B = Bandwidth
  import BR = Refunds
  import P = Powerup
  import PI = PowerupInvariants
  import PO = PowerupOrders
  import M = RamMarket
  import Tokens
  import SG = SystemGuarantees

  // ----- refunds -----

  predicate Undelegates(a: Action, owner: Name) {
    a.StakeCall? && BR.Undelegates(a.b, owner)
  }

  /** What an action does to the owner's refund: at most the owner's own unstaking sets its time. */
  lemma StepRefund(c: Chain, a: Action, owner: Name)
    requires Step(c, a).Some?
    ensures var c' := Step(c, a).value;
            && (!a.Advance? ==> c'.bw.now == c.bw.now) && c.bw.now <= c'.bw.now
            && (owner in c'.bw.refunds ==>
                  || (owner in c.bw.refunds && c'.bw.refunds[owner].time == c.bw.refunds[owner].time)
                  || (Undelegates(a, owner) && c'.bw.refunds[owner].time == c.bw.now))
  {
    hide R.Step, B.Step, P.Step, M.Step, R.BuyWithStake;
    match a
    case StakeCall(b) =>
      StakingTakesNoTime(c.bw, b);
      if owner in B.Step(c.bw, b).value.refunds {
        BR.OnlyUnstakingSetsTime(c.bw, b, owner);
      }
    case Advance(time, slot) => StakingAdvance(c.bw, time / 1_000_000);
    case UnstakeToRexCall(_, _, _, _, _) =>
    case _ =>
  }

  lemma StakingTakesNoTime(s: B.State, b: B.Action)
    requires B.Step(s, b).Some? && !b.Advance?
    ensures B.Step(s, b).value.now == s.now
  {
    hide B.ChangeDelegation, Adjust, Tokens.Transfer, B.ChangeRefund;
  }

  lemma StakingAdvance(s: B.State, time: int)
    requires B.Step(s, B.Action.Advance(time)).Some?
    ensures s.now <= time && B.Step(s, B.Action.Advance(time)).value == s.(now := time)
  {
  }

  /** Whatever refund the owner has was requested at `time` or later. */
  ghost predicate NotBefore(c: Chain, owner: Name, time: int) {
    time <= c.bw.now && (owner in c.bw.refunds ==> time <= c.bw.refunds[owner].time)
  }

  lemma {:induction false} RunNotBefore(c: Chain, actions: seq<Action>, owner: Name, time: int)
    requires NotBefore(c, owner, time)
    ensures NotBefore(Run(c, actions), owner, time)
    decreases |actions|
  {
    hide Step;
    if actions != [] {
      if Step(c, actions[0]).Some? {
        StepRefund(c, actions[0], owner);
      }
      RunNotBefore(Next(c, actions[0]), actions[1..], owner, time);
    }
  }

  lemma UnstakedNow(c: Chain, owner: Name, receiver: Name, net: int, cpu: int)
    requires owner != B.STAKE && Step(c, StakeCall(B.UndelegateCall(owner, receiver, net, cpu))).Some?
    ensures var c' := Step(c, StakeCall(B.UndelegateCall(owner, receiver, net, cpu))).value;
            c'.bw.now == c.bw.now && (owner in c'.bw.refunds ==> c'.bw.refunds[owner].time == c.bw.now)
  {
    hide B.ChangeDelegation, Adjust;
  }

  /** Tokens that were unstaked are not refunded for three days: however the chain goes on, the owner's next refund is at
      least 259200 seconds later. */
  lemma RefundWaitsThreeDays(c: Chain, owner: Name, receiver: Name, net: int, cpu: int, between: seq<Action>)
    requires owner != B.STAKE
    requires Step(c, StakeCall(B.UndelegateCall(owner, receiver, net, cpu))).Some?
    requires var r := Run(Step(c, StakeCall(B.UndelegateCall(owner, receiver, net, cpu))).value, between);
             Step(r, StakeCall(B.RefundCall(owner))).Some?
    ensures var r := Run(Step(c, StakeCall(B.UndelegateCall(owner, receiver, net, cpu))).value, between);
            c.bw.now + 259_200 <= r.bw.now
  {
    UnstakedNow(c, owner, receiver, net, cpu);
    var c1 := Step(c, StakeCall(B.UndelegateCall(owner, receiver, net, cpu))).value;
    RunNotBefore(c1, between, owner, c.bw.now);
    RefundIsDue(Run(c1, between), owner);
    hide Step;
  }

  lemma RefundIsDue(c: Chain, owner: Name)
    requires Step(c, StakeCall(B.RefundCall(owner))).Some?
    ensures owner in c.bw.refunds && c.bw.refunds[owner].time + 259_200 <= c.bw.now
  {
  }

  predicate NoneUndelegates(actions: seq<Action>, owner: Name) {
    forall i | 0 <= i < |actions| :: !Undelegates(actions[i], owner)
  }

  lemma {:induction false} RunKeepsTime(c: Chain, actions: seq<Action>, owner: Name)
    requires NoneUndelegates(actions, owner) && owner in Run(c, actions).bw.refunds
    ensures owner in c.bw.refunds && Run(c, actions).bw.refunds[owner].time == c.bw.refunds[owner].time
    decreases |actions|
  {
    hide Step;
    if actions != [] {
      assert forall i | 0 <= i < |actions| - 1 :: actions[1..][i] == actions[i + 1];
      RunKeepsTime(Next(c, actions[0]), actions[1..], owner);
      if Step(c, actions[0]).Some? {
        StepRefund(c, actions[0], owner);
      }
    }
  }

  /** Nor does anyone make the owner wait longer: with no further unstaking of the owner's, what is still pending is paid
      exactly from three days on. */
  lemma RefundComesDue(c: Chain, supply: int, before: seq<Action>, owner: Name, between: seq<Action>)
    requires Genesis(c, supply) && owner in Run(c, before).bw.refunds && NoneUndelegates(between, owner)
    requires forall i | 0 <= i < |before| :: OthersStake(before[i])
    requires forall i | 0 <= i < |between| :: OthersStake(between[i])
    ensures var r := Run(Run(c, before), between);
            owner in r.bw.refunds ==>
              (B.ClaimRefund(r.bw, owner).Some? <==> Run(c, before).bw.refunds[owner].time + 259_200 <= r.bw.now)
  {
    hide Inv, Genesis, Solvent;
    GenesisInv(c, supply);
    AlwaysSolvent(c, supply, before);
    RunKeeps(c, before, c.ram.quote);
    var s := Run(c, before);
    RunSolvent(s, between, c.ram.quote);
    var r := Run(s, between);
    if owner in r.bw.refunds {
      RunKeepsTime(s, between, owner);
      PaysRefund(r, owner, c.ram.quote);
    }
  }

  lemma PaysRefund(c: Chain, owner: Name, q0: int)
    requires Inv(c, q0) && Solvent(c)
    ensures B.ClaimRefund(c.bw, owner).Some? <==> owner in c.bw.refunds && c.bw.refunds[owner].time + 259_200 <= c.bw.now
  {
    hide RexInvariants.InvExcept, B.Inv, PI.Inv, M.Inv, B.ClaimRefund, RexInvariants.Surplus, B.Owed;
    B.RefundIsPaid(c.bw, owner, ForStaking(c));
  }

  // ----- stake for REX -----

  /** In every reachable state unstaketorex needs the vote and the stake, and nothing else can block it. */
  lemma UnstakeToRexNeedsOnlyStake(c: Chain, supply: int, before: seq<Action>, owner: Name, receiver: Name, net: int, cpu: int,
                                   votes: bool)
    requires Genesis(c, supply) && forall i | 0 <= i < |before| :: OthersStake(before[i])
    ensures var s := Run(c, before);
            var d := B.DelegationOf(s.bw.delegations, B.Pair(owner, receiver));
            Step(s, UnstakeToRexCall(owner, receiver, net, cpu, votes)).Some? <==>
            votes && 0 <= net <= d.net && 0 <= cpu <= d.cpu && 0 < net + cpu
  {
    hide Inv, Genesis, Solvent;
    GenesisInv(c, supply);
    AlwaysSolvent(c, supply, before);
    RunKeeps(c, before, c.ram.quote);
    StakeMoves(Run(c, before), owner, receiver, net, cpu, votes, c.ram.quote);
  }

  lemma StakeMoves(c: Chain, owner: Name, receiver: Name, net: int, cpu: int, votes: bool, q0: int)
    requires Inv(c, q0) && Solvent(c)
    ensures var d := B.DelegationOf(c.bw.delegations, B.Pair(owner, receiver));
            Step(c, UnstakeToRexCall(owner, receiver, net, cpu, votes)).Some? <==>
            votes && 0 <= net <= d.net && 0 <= cpu <= d.cpu && 0 < net + cpu
  {
    hide RexInvariants.InvExcept, B.Inv, PI.Inv, M.Inv, B.StakeToRex, RexInvariants.Surplus, B.Owed, R.BuyWithStake, RexCalls.Released,
         RexActions.Lowered;
    BR.StakeToRexExactly(c.bw, owner, receiver, net, cpu, ForStaking(c));
    if B.StakeToRex(c.bw, owner, receiver, net, cpu).Some? {
      DelegationLowered(c, owner, receiver, net, cpu, q0);
      var o' := ForRex(c.(bw := B.StakeToRex(c.bw, owner, receiver, net, cpu).value));
      var x := RexFor(c.rex, net + cpu, ForRex(c));
      RexCalls.BuyWithStakeExactly(c.rex, owner, receiver, net, cpu, votes, x, ForRex(c), o');
    }
  }

  /** What a payment buys. */
  lemma RexFor(s: R.State, payment: int, o: Claims) returns (x: int)
    requires RexInvariants.Inv(s, o)
    ensures s.pool.Some? && 0 < s.pool.value.rex ==>
              (s.pool.value.rex + x) * s.pool.value.lendable <= (s.pool.value.lendable + payment) * s.pool.value.rex
                < (s.pool.value.rex + x + 1) * s.pool.value.lendable
    ensures !(s.pool.Some? && 0 < s.pool.value.rex) ==> x == 10_000 * payment
  {
    RexCalls.PoolIsValid(s, o);
    hide RexInvariants.InvExcept;
    if s.pool.Some? && 0 < s.pool.value.rex {
      var p := s.pool.value;
      var q := Bancor.FloorOf((p.lendable + payment) * p.rex, p.lendable);
      x := q - p.rex;
      assert p.rex + x == q;
    } else {
      x := 10_000 * payment;
    }
  }

  // ----- powerup orders -----

  lemma StepOrder(c: Chain, a: Action, id: nat)
    requires Step(c, a).Some? && id in c.pw.orders && c.pw.now < c.pw.orders[id].expires
    ensures id in Step(c, a).value.pw.orders && Step(c, a).value.pw.orders[id] == c.pw.orders[id]
  {
    hide R.Step, B.Step, P.Step, M.Step, R.BuyWithStake, B.StakeToRex;
    match a
    case PowerupCall(p) => PO.UnexpiredStays(c.pw, p, id);
    case Advance(time, slot) => PO.UnexpiredStays(c.pw, P.Action.Advance(time / 1_000_000), id);
    case _ =>
  }

  lemma StepPowerupTime(c: Chain, a: Action)
    requires Step(c, a).Some?
    ensures c.pw.now <= Step(c, a).value.pw.now
  {
    hide R.Step, B.Step, M.Step, R.BuyWithStake, B.StakeToRex, P.UpdateUtilization, P.UpdateWeight, P.Expire, Adjust, P.Configure;
  }

  lemma {:induction false} RunPowerupTime(c: Chain, actions: seq<Action>)
    ensures c.pw.now <= Run(c, actions).pw.now
    decreases |actions|
  {
    hide Step;
    if actions != [] {
      if Step(c, actions[0]).Some? {
        StepPowerupTime(c, actions[0]);
      }
      RunPowerupTime(Next(c, actions[0]), actions[1..]);
    }
  }

  lemma {:induction false} RunOrder(c: Chain, actions: seq<Action>, id: nat)
    requires id in c.pw.orders && Run(c, actions).pw.now < c.pw.orders[id].expires
    ensures id in Run(c, actions).pw.orders && Run(c, actions).pw.orders[id] == c.pw.orders[id]
    decreases |actions|
  {
    hide Step;
    if actions != [] {
      var c1 := Next(c, actions[0]);
      RunPowerupTime(c, []);
      RunPowerupTime(c1, actions[1..]);
      if Step(c, actions[0]).Some? {
        StepPowerupTime(c, actions[0]);
        StepOrder(c, actions[0], id);
      }
      RunOrder(c1, actions[1..], id);
    }
  }

  lemma OrderIsHeld(c: Chain, id: nat, q0: int)
    requires Inv(c, q0) && id in c.pw.orders
    ensures var o := c.pw.orders[id];
            o.net <= NetOf(c.rex.resources, o.owner) && o.cpu <= CpuOf(c.rex.resources, o.owner)
  {
    Balanced(c, q0);
    hide RexInvariants.InvExcept, B.Inv, M.Inv, PI.Backed, PI.ValidMarket;
    var a := c.pw.orders[id].owner;
    StakedNonNegative(c.bw, ForStaking(c), a);
    LoanedNonNegative(c.rex, ForRex(c), a);
    PoweredNonNegative(c.pw, ForPowerup(c), a);
    SumAtLeast<nat, P.Order>(c.pw.orders, id, PI.NetFor(a));
    SumAtLeast<nat, P.Order>(c.pw.orders, id, PI.CpuFor(a));
  }

  /** A powerup lasts as long as it was sold for: until `days` days are over the order stays in the queue as it is, and the
      receiver's account has at least its NET and CPU, whatever anyone does; then a queue run that covers the queue erases
      it. */
  lemma PowerupLasts(c: Chain, supply: int, before: seq<Action>, p: P.Action, after: seq<Action>, max: nat, dn: int, dc: int)
    requires Genesis(c, supply) && p.PowerUpCall? && Step(Run(c, before), PowerupCall(p)).Some?
    ensures var s := Run(c, before);
            var s1 := Step(s, PowerupCall(p)).value;
            var r := Run(s1, after);
            && p.id in s1.pw.orders
            && var o := s1.pw.orders[p.id];
               && o.owner == p.receiver && o.expires == s.pw.now + p.days * 86_400
               && (r.pw.now < s.pw.now + p.days * 86_400 ==>
                     && p.id in r.pw.orders && r.pw.orders[p.id] == o
                     && o.net <= NetOf(r.rex.resources, p.receiver) && o.cpu <= CpuOf(r.rex.resources, p.receiver))
               && (s.pw.now + p.days * 86_400 <= r.pw.now && |r.pw.orders| <= max
                   && p.id in r.pw.orders && r.pw.orders[p.id] == o ==>
                     P.PowerupExec(r.pw, max, dn, dc).Some? && p.id !in P.PowerupExec(r.pw, max, dn, dc).value.orders)
  {
    var s := Run(c, before);
    OrderSold(s, p);
    hide Inv, Step, Genesis, P.PowerupExec;
    GenesisInv(c, supply);
    RunKeeps(c, before, c.ram.quote);
    StepKeeps(s, PowerupCall(p), c.ram.quote);
    var s1 := Step(s, PowerupCall(p)).value;
    RunKeeps(s1, after, c.ram.quote);
    var r := Run(s1, after);
    if r.pw.now < s.pw.now + p.days * 86_400 {
      RunOrder(s1, after, p.id);
      OrderIsHeld(r, p.id, c.ram.quote);
    } else if |r.pw.orders| <= max && p.id in r.pw.orders && r.pw.orders[p.id] == s1.pw.orders[p.id] {
      OrderExpires(r, p.id, max, dn, dc, c.ram.quote);
    }
  }

  lemma OrderSold(c: Chain, p: P.Action)
    requires p.PowerUpCall? && Step(c, PowerupCall(p)).Some?
    ensures var c' := Step(c, PowerupCall(p)).value;
            && p.id in c'.pw.orders && c'.pw.now == c.pw.now
            && c'.pw.orders[p.id].owner == p.receiver && c'.pw.orders[p.id].expires == c.pw.now + p.days * 86_400
  {
    PO.SaleAddsOneOrder(c.pw, p.receiver, p.days, p.fracNet, p.fracCpu, p.maxPayment, p.decayedNet, p.decayedCpu,
                        p.feeNet, p.feeCpu, p.id);
    hide P.PowerUp, P.ProcessQueue, PO.TookOldest;
  }

  lemma OrderExpires(c: Chain, id: nat, max: nat, dn: int, dc: int, q0: int)
    requires Inv(c, q0) && id in c.pw.orders && c.pw.orders[id].expires <= c.pw.now && |c.pw.orders| <= max
    ensures P.PowerupExec(c.pw, max, dn, dc).Some? && id !in P.PowerupExec(c.pw, max, dn, dc).value.orders
  {
    hide RexInvariants.InvExcept, B.Inv, M.Inv, PI.Backed, PI.ValidMarket, P.UpdateUtilization, P.UpdateWeight, P.Expire, Adjust;
    PI.PowerupExecKeeps(c.pw, max, dn, dc, ForPowerup(c));
    PI.AllExpire(c.pw.orders, c.pw.resources, c.pw.now, max,
                 PI.WithReserve(ForPowerup(c), c.pw.net.weight - c.pw.net.utilization, c.pw.cpu.weight - c.pw.cpu.utilization));
  }

  // ----- fees -----

  /** In every reachable state fees wait in buckets that open at noons and midnights only; at most sixty are being paid out. */
  lemma FeesWaitForHalfDays(c: Chain, supply: int, actions: seq<Action>)
    requires Genesis(c, supply) && Run(c, actions).rex.retpool.Some?
    ensures var rp := Run(c, actions).rex.retpool.value;
            && (rp.pendingTime == RexReturns.TIME_MAX || rp.pendingTime % 43_200 == 0)
            && (forall k | k in rp.buckets :: k % 43_200 == 0 && rp.lastDist - 30 * 86_400 < k <= rp.lastDist)
            && |rp.buckets| <= 60
  {
    hide Inv, RexReturns.Valid;
    SG.Reached(c, supply, actions);
    RexReturns.BucketsAreHalfDays(Run(c, actions).rex.retpool.value, Run(c, actions).rex.Seconds());
  }

  /** A fee that reaches the return pool in any reachable state opens at the next noon or midnight; only the first bucket ever
      accepts fees for ten minutes more. */
  lemma FeeOpensNext(c: Chain, supply: int, actions: seq<Action>, amount: int)
    requires Genesis(c, supply) && Run(c, actions).rex.Available() && 0 < amount
    ensures var s := Run(c, actions).rex;
            var r := R.ChannelToRex(s, amount);
            && r.Some? && r.value.retpool.Some?
            && var rp, now := r.value.retpool.value, s.Seconds();
               RexReturns.OpensNext(rp, now) && amount <= rp.pendingProceeds
  {
    hide Inv, RexInvariants.Surplus, RexInvariants.InvExcept;
    SG.Reached(c, supply, actions);
    FeeOpens(Run(c, actions).rex, amount, ForRex(Run(c, actions)));
  }

  lemma FeeOpens(s: R.State, amount: int, o: Claims)
    requires RexInvariants.Inv(s, o) && s.Available() && 0 < amount
    ensures var r := R.ChannelToRex(s, amount);
            && r.Some? && r.value.retpool.Some?
            && var rp, now := r.value.retpool.value, s.Seconds();
               RexReturns.OpensNext(rp, now) && amount <= rp.pendingProceeds
  {
    hide RexInvariants.ValidBalances, RexInvariants.ValidOrders, RexInvariants.ValidPool, RexInvariants.Ledger,
         RexInvariants.ValidLoans, RexInvariants.ExpireInTime, RexReturns.Valid, R.AddToReturnPool;
    RexInvariants.FeeOpens(s, amount);
  }

  // ----- REX -----

  predicate ActsFor(a: Action, n: Name) {
    (a.RexCall? && RexOwners.ActsFor(a.r) == Some(n)) || (a.UnstakeToRexCall? && a.owner == n)
  }

  lemma StepLeavesIdle(c: Chain, a: Action, n: Name)
    requires Step(c, a).Some? && !ActsFor(a, n) && RexOwners.Idle(c.rex, n)
    ensures RexOwners.Untouched(c.rex, Step(c, a).value.rex, n)
  {
    hide R.Step, B.Step, P.Step, M.Step, B.StakeToRex, R.BuyWithStake;
    match a
    case RexCall(r) => RexOwners.OthersLeaveIdleOwners(c.rex, r, n);
    case UnstakeToRexCall(owner, receiver, net, cpu, votes) =>
      RexOwners.UnstakingLeavesIdleOwners(c.rex, owner, receiver, net, cpu, votes, n);
    case Advance(time, slot) => RexOwners.OthersLeaveIdleOwners(c.rex, R.Action.Advance(time), n);
    case _ =>
  }

  /** Over any run in which nobody acts for an owner who has neither an open sell order nor a loan, the owner's fund, REX and
      uncollected proceeds stay exactly what they are. */
  lemma {:induction false} IdleOwnersAreLeftAlone(c: Chain, actions: seq<Action>, n: Name)
    requires RexOwners.Idle(c.rex, n) && forall i | 0 <= i < |actions| :: !ActsFor(actions[i], n)
    ensures RexOwners.Untouched(c.rex, Run(c, actions).rex, n)
    decreases |actions|
  {
    hide Step, RexOwners.Idle, RexOwners.Untouched, ActsFor;
    RexOwners.UntouchedSelf(c.rex, n);
    if actions != [] {
      var c1 := Next(c, actions[0]);
      if Step(c, actions[0]).Some? {
        StepLeavesIdle(c, actions[0], n);
        RexOwners.StillIdle(c.rex, c1.rex, n);
      }
      IdleOwnersAreLeftAlone(c1, actions[1..], n);
      RexOwners.UntouchedTransitive(c.rex, c1.rex, Run(c, actions).rex, n);
    }
  }

  lemma StepMatures(c: Chain, a: Action, n: Name, t: int, q0: int)
    requires Inv(c, q0) && Step(c, a).Some?
    ensures c.rex.now <= Step(c, a).value.rex.now
    ensures RexOwners.Early(c.rex, t) && Step(c, a).value.rex.Seconds() <= t ==>
              RexTrades.MaturedIn(Step(c, a).value.rex.balances, n, t) <= RexTrades.MaturedIn(c.rex.balances, n, t)
  {
    hide RexInvariants.InvExcept, B.Inv, PI.Inv, M.Inv, R.Step, B.Step, P.Step, M.Step, B.StakeToRex, R.BuyWithStake,
         RexTrades.MaturedIn, RexOwners.Early;
    var c' := Step(c, a).value;
    var early := RexOwners.Early(c.rex, t) && c'.rex.Seconds() <= t;
    match a
    case RexCall(r) =>
      RexFrame(c.rex, r);
      if early { RexOwners.NothingMaturesEarly(c.rex, r, n, t, ForRex(c)); }
    case UnstakeToRexCall(owner, receiver, net, cpu, votes) => UnstakeMatures(c, owner, receiver, net, cpu, votes, n, t, q0);
    case Advance(time, slot) => ClockForward(c.rex, time);
    case _ =>
  }

  lemma ClockForward(s: R.State, time: int)
    requires R.Step(s, R.Action.Advance(time)).Some?
    ensures s.now <= time && R.Step(s, R.Action.Advance(time)).value == s.(now := time)
  {
  }

  lemma UnstakeMatures(c: Chain, owner: Name, receiver: Name, net: int, cpu: int, votes: bool, n: Name, t: int, q0: int)
    requires Inv(c, q0) && B.StakeToRex(c.bw, owner, receiver, net, cpu).Some?
    requires R.BuyWithStake(c.rex, owner, receiver, net, cpu, votes).Some?
    ensures var r := R.BuyWithStake(c.rex, owner, receiver, net, cpu, votes).value;
            && r.now == c.rex.now
            && (RexOwners.Early(c.rex, t) ==> RexTrades.MaturedIn(r.balances, n, t) <= RexTrades.MaturedIn(c.rex.balances, n, t))
  {
    hide RexInvariants.InvExcept, B.Inv, PI.Inv, M.Inv, B.StakeToRex, R.BuyWithStake, RexTrades.MaturedIn, RexOwners.Early;
    RexGuarantees.BuyWithStakeTakesNoTime(c.rex, owner, receiver, net, cpu, votes);
    DelegationLowered(c, owner, receiver, net, cpu, q0);
    if RexOwners.Early(c.rex, t) {
      var o' := ForRex(c.(bw := B.StakeToRex(c.bw, owner, receiver, net, cpu).value));
      RexOwners.UnstakingMaturesNothing(c.rex, owner, receiver, net, cpu, votes, n, t, ForRex(c), o');
    }
  }

  lemma RexTimes(c: Chain, q0: int)
    requires Inv(c, q0)
    ensures RexReturns.ValidTime(c.rex.Seconds())
  {
    hide B.Inv, PI.Inv, M.Inv, RexReturns.Valid, RexInvariants.ValidBalances, RexInvariants.ValidOrders, RexInvariants.ValidPool,
         RexInvariants.Ledger, RexInvariants.ValidLoans, RexInvariants.ExpireInTime;
  }

  lemma {:induction false} RunRexTime(c: Chain, actions: seq<Action>, q0: int)
    requires Inv(c, q0)
    ensures c.rex.now <= Run(c, actions).rex.now
    decreases |actions|
  {
    hide Inv, Step;
    if actions != [] {
      if Step(c, actions[0]).Some? {
        StepMatures(c, actions[0], 0, 0, q0);
        StepKeeps(c, actions[0], q0);
      }
      RunRexTime(Next(c, actions[0]), actions[1..], q0);
    }
  }

  lemma StillEarly(c: Chain, c1: Chain, t: int, q0: int)
    requires Inv(c, q0) && Inv(c1, q0) && c.rex.now <= c1.rex.now && c1.rex.Seconds() <= t && RexOwners.Early(c.rex, t)
    ensures RexOwners.Early(c1.rex, t)
  {
    RexTimes(c, q0);
    RexTimes(c1, q0);
    RexBalances.MaturityMonotone(c.rex.Seconds(), c1.rex.Seconds());
    hide Inv;
  }

  lemma {:induction false} RunMatures(c: Chain, actions: seq<Action>, n: Name, t: int, q0: int)
    requires Inv(c, q0) && RexOwners.Early(c.rex, t) && Run(c, actions).rex.Seconds() <= t
    ensures RexTrades.MaturedIn(Run(c, actions).rex.balances, n, t) <= RexTrades.MaturedIn(c.rex.balances, n, t)
    decreases |actions|
  {
    hide Inv, Step, RexTrades.MaturedIn, RexOwners.Early;
    if actions != [] {
      var c1 := Next(c, actions[0]);
      if Step(c, actions[0]).Some? {
        StepKeeps(c, actions[0], q0);
        RunRexTime(c1, actions[1..], q0);
        StepMatures(c, actions[0], n, t, q0);
        StillEarly(c, c1, t, q0);
      }
      RunMatures(c1, actions[1..], n, t, q0);
    }
  }

  /** REX cannot be sold until the fifth midnight after it was acquired: until then, whatever anyone does, an owner can sell no
      more than the schedule of the present balance allows by that time. */
  lemma RexMaturesNoEarlier(c: Chain, supply: int, before: seq<Action>, after: seq<Action>, n: Name, m: int)
    requires Genesis(c, supply) && RexMaturities.MaturesAt(Run(c, before).rex.Seconds(), m)
    requires Run(Run(c, before), after).rex.Seconds() < m
    ensures var s, r := Run(c, before).rex, Run(Run(c, before), after).rex;
            RexTrades.Sellable(r, n) <= RexTrades.MaturedIn(s.balances, n, r.Seconds())
  {
    hide Inv, Genesis, RexTrades.MaturedIn;
    GenesisInv(c, supply);
    RunKeeps(c, before, c.ram.quote);
    var s := Run(c, before);
    RunKeeps(s, after, c.ram.quote);
    var r := Run(s, after);
    RunRexTime(s, after, c.ram.quote);
    RexTimes(s, c.ram.quote);
    RexTimes(r, c.ram.quote);
    RexMaturities.MaturityExact(s.rex.Seconds(), m);
    RunMatures(s, after, n, r.rex.Seconds(), c.ram.quote);
  }
}
