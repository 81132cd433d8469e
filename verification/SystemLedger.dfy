/** Staking, REX loans, powerup and the RAM market write to one user_resources table. In every reachable state each
    account's NET and CPU are the sum of what the subsystems granted it, so the checks on an account's
    totals never block an expiry. */
module SystemLedger {
  import opened Tables
  import opened Resources
  import R = Rex
  import RexInvariants
  import RexActions
  import RexGuarantees
  import RexReturns
  import Tokens
  import B = Bandwidth
  import P = Powerup
  import PI = PowerupInvariants
  import M = RamMarket

  datatype Chain = Chain(rex: R.State, bw: B.State, pw: P.State, ram: M.State) {
    /** All four see the same table. */
    function WithResources(res: ResourceTable): Chain {
      Chain(rex.(resources := res), bw.(resources := res), pw.(resources := res), ram.(resources := res))
    }
  }

  datatype Action =
    | RexCall(r: R.Action)
    | StakeCall(b: B.Action)
    | PowerupCall(p: P.Action)
    | RamCall(m: M.Action)
    | UnstakeToRexCall(owner: Name, receiver: Name, net: int, cpu: int, votes: bool)
    | Advance(time: int, slot: int)

  ghost function Step(c: Chain, a: Action): Option<Chain> {
    match a
    case RexCall(r) =>
      var _ :- Need(!r.Advance?);
      var rex :- R.Step(c.rex, r);
      Some(c.(rex := rex).WithResources(rex.resources))
    case StakeCall(b) =>
      var _ :- Need(!b.Advance? && !b.StakeToRexCall?);
      var bw :- B.Step(c.bw, b);
      Some(c.(bw := bw).WithResources(bw.resources))
    case PowerupCall(p) =>
      var _ :- Need(!p.Advance?);
      var pw :- P.Step(c.pw, p);
      Some(c.(pw := pw).WithResources(pw.resources))
    case RamCall(m) =>
      var _ :- Need(!m.Advance?);
      var ram :- M.Step(c.ram, m);
      Some(c.(ram := ram).WithResources(ram.resources))
    case UnstakeToRexCall(owner, receiver, net, cpu, votes) =>
      var bw :- B.StakeToRex(c.bw, owner, receiver, net, cpu);
      var rex :- R.BuyWithStake(c.rex, owner, receiver, net, cpu, votes);
      Some(c.(bw := bw, rex := rex).WithResources(rex.resources))
    case Advance(time, slot) =>
      var rex :- R.Step(c.rex, R.Action.Advance(time));
      var bw :- B.Step(c.bw, B.Action.Advance(time / 1_000_000));
      var pw :- P.Step(c.pw, P.Action.Advance(time / 1_000_000));
      var ram :- M.Step(c.ram, M.Action.Advance(slot));
      Some(Chain(rex, bw, pw, ram))
  }

  // ----- who granted what -----

  ghost function StakedNet(c: Chain, a: Name): int { Sum(c.bw.delegations, B.NetTo(a)) }
  ghost function StakedCpu(c: Chain, a: Name): int { Sum(c.bw.delegations, B.CpuTo(a)) }
  ghost function LoanedNet(c: Chain, a: Name): int { Sum(c.rex.net, RexInvariants.StakedTo(a)) }
  ghost function LoanedCpu(c: Chain, a: Name): int { Sum(c.rex.cpu, RexInvariants.StakedTo(a)) }

  /** Powerup orders of the account, and the unsold part of the market for the reserve account. */
  ghost function PoweredNet(c: Chain, a: Name): int {
    Sum(c.pw.orders, PI.NetFor(a)) + (if a == P.RESERV then c.pw.net.weight - c.pw.net.utilization else 0)
  }

  ghost function PoweredCpu(c: Chain, a: Name): int {
    Sum(c.pw.orders, PI.CpuFor(a)) + (if a == P.RESERV then c.pw.cpu.weight - c.pw.cpu.utilization else 0)
  }

  ghost function ForRex(c: Chain): Claims {
    Claims((a: Name) => StakedNet(c, a) + PoweredNet(c, a),
           (a: Name) => StakedCpu(c, a) + PoweredCpu(c, a),
           (a: Name) => RamOf(c.ram.resources, a))
  }

  ghost function ForStaking(c: Chain): Claims {
    Claims((a: Name) => LoanedNet(c, a) + PoweredNet(c, a),
           (a: Name) => LoanedCpu(c, a) + PoweredCpu(c, a),
           (a: Name) => RamOf(c.ram.resources, a))
  }

  ghost function ForPowerup(c: Chain): Claims {
    Claims((a: Name) => StakedNet(c, a) + LoanedNet(c, a),
           (a: Name) => StakedCpu(c, a) + LoanedCpu(c, a),
           (a: Name) => RamOf(c.ram.resources, a))
  }

  ghost predicate Shared(c: Chain) {
    && c.bw.resources == c.rex.resources && c.pw.resources == c.rex.resources && c.ram.resources == c.rex.resources
    && c.bw.now == c.rex.now / 1_000_000 && c.pw.now == c.rex.now / 1_000_000
  }

  /** The one ledger: an account's resources are what the three subsystems granted it, and nothing else. */
  ghost predicate OneLedger(c: Chain) {
    forall a: Name ::
      && NetOf(c.rex.resources, a) == StakedNet(c, a) + LoanedNet(c, a) + PoweredNet(c, a)
      && CpuOf(c.rex.resources, a) == StakedCpu(c, a) + LoanedCpu(c, a) + PoweredCpu(c, a)
  }

  ghost predicate Inv(c: Chain, q0: int) {
    && Shared(c)
    && RexInvariants.Inv(c.rex, ForRex(c))
    && B.Inv(c.bw, ForStaking(c))
    && PI.Inv(c.pw, ForPowerup(c))
    && M.Inv(c.ram, q0)
  }

  // ----- each part is granted, never owed -----

  ghost predicate PartsNonNegative(c: Chain) {
    forall a: Name ::
      && 0 <= StakedNet(c, a) && 0 <= StakedCpu(c, a) && 0 <= LoanedNet(c, a) && 0 <= LoanedCpu(c, a)
      && 0 <= PoweredNet(c, a) && 0 <= PoweredCpu(c, a)
  }

  lemma StakedNonNegative(s: B.State, g: Claims, a: Name)
    requires B.Inv(s, g)
    ensures 0 <= Sum(s.delegations, B.NetTo(a)) && 0 <= Sum(s.delegations, B.CpuTo(a))
  {
    hide Tokens.NonNegative, B.Backed;
    SumNonNegative(s.delegations, B.NetTo(a));
    SumNonNegative(s.delegations, B.CpuTo(a));
  }

  lemma LoanedNonNegative(s: R.State, o: Claims, a: Name)
    requires RexInvariants.Inv(s, o)
    ensures 0 <= Sum(s.net, RexInvariants.StakedTo(a)) && 0 <= Sum(s.cpu, RexInvariants.StakedTo(a))
  {
    hide RexReturns.Valid, RexInvariants.ValidBalances, RexInvariants.ValidOrders, RexInvariants.ValidPool, RexInvariants.Ledger;
    SumNonNegative<nat, R.Loan>(s.net, RexInvariants.StakedTo(a));
    SumNonNegative<nat, R.Loan>(s.cpu, RexInvariants.StakedTo(a));
  }

  lemma PoweredNonNegative(s: P.State, g: Claims, a: Name)
    requires PI.Inv(s, g)
    ensures 0 <= Sum(s.orders, PI.NetFor(a)) && 0 <= Sum(s.orders, PI.CpuFor(a))
    ensures 0 <= s.net.weight - s.net.utilization && 0 <= s.cpu.weight - s.cpu.utilization
  {
    hide PI.Backed;
    SumNonNegative<nat, P.Order>(s.orders, PI.NetFor(a));
    SumNonNegative<nat, P.Order>(s.orders, PI.CpuFor(a));
  }

  // ----- moving a subsystem to another table -----

  lemma RexOn(s: R.State, o: Claims, res: ResourceTable, o': Claims)
    requires RexInvariants.Inv(s, o) && RexInvariants.Ledger(res, s.cpu, s.net, o')
    ensures RexInvariants.Inv(s.(resources := res), o')
    ensures RexInvariants.Surplus(s.(resources := res)) == RexInvariants.Surplus(s)
  {
    hide RexReturns.Valid, RexInvariants.ValidBalances, RexInvariants.ValidOrders, RexInvariants.ValidPool, RexInvariants.Ledger,
         RexInvariants.ValidLoans, RexInvariants.ExpireInTime;
  }

  lemma StakingOn(s: B.State, g: Claims, res: ResourceTable, g': Claims)
    requires B.Inv(s, g) && B.Backed(res, s.delegations, g')
    ensures B.Inv(s.(resources := res), g')
  {
    hide B.Backed, Tokens.NonNegative;
  }

  lemma PowerupOn(s: P.State, g: Claims, res: ResourceTable, g': Claims)
    requires PI.Inv(s, g) && NonNegativeClaims(g')
    requires PI.Backed(res, s.orders, PI.WithReserve(g', s.net.weight - s.net.utilization, s.cpu.weight - s.cpu.utilization))
    ensures PI.Inv(s.(resources := res), g')
  {
    hide PI.Backed, PI.ValidMarket;
  }

  /** Tables that give every account the same RAM have the same total. */
  lemma {:induction false} SameRam(res: ResourceTable, res': ResourceTable)
    requires M.NonNegativeRam(res) && forall a: Name :: RamOf(res', a) == RamOf(res, a)
    ensures Sum(res', M.RamIn()) == Sum(res, M.RamIn()) && M.NonNegativeRam(res')
    decreases res.Keys
  {
    forall n: Name | n in res' ensures 0 <= res'[n].ram {
      assert RamOf(res', n) == RamOf(res, n);
    }
    if res == map[] {
      forall n: Name | n in res' ensures res'[n].ram == 0 {
        assert RamOf(res', n) == RamOf(res, n);
      }
      M.SumZero(res);
      M.SumZero(res');
    } else {
      var k := SomeKey<Name, Row>(res);
      var r, r' := res - {k}, res' - {k};
      forall a: Name ensures RamOf(r', a) == RamOf(r, a) {
        assert RamOf(res', a) == RamOf(res, a);
      }
      SameRam(r, r');
      SumRemove<Name, Row>(res, k, M.RamIn());
      assert RamOf(res', k) == RamOf(res, k);
      if k in res' {
        SumRemove<Name, Row>(res', k, M.RamIn());
      } else {
        assert r' == res';
      }
    }
  }

  lemma RamOn(s: M.State, res: ResourceTable, q0: int)
    requires M.Inv(s, q0) && forall a: Name :: RamOf(res, a) == RamOf(s.resources, a)
    ensures M.Inv(s.(resources := res), q0)
  {
    SameRam(s.resources, res);
  }

  lemma RexBacked(c: Chain)
    requires Shared(c) && OneLedger(c) && PartsNonNegative(c)
    ensures RexInvariants.Ledger(c.rex.resources, c.rex.cpu, c.rex.net, ForRex(c))
  {
    hide NetOf, CpuOf, RamOf;
  }

  lemma StakingBacked(c: Chain)
    requires Shared(c) && OneLedger(c) && PartsNonNegative(c)
    ensures B.Backed(c.rex.resources, c.bw.delegations, ForStaking(c))
  {
    hide NetOf, CpuOf, RamOf;
  }

  lemma PowerupBacked(c: Chain)
    requires Shared(c) && OneLedger(c) && PartsNonNegative(c)
    requires 0 <= c.pw.net.weight - c.pw.net.utilization && 0 <= c.pw.cpu.weight - c.pw.cpu.utilization
    ensures NonNegativeClaims(ForPowerup(c))
    ensures PI.Backed(c.rex.resources, c.pw.orders,
                      PI.WithReserve(ForPowerup(c), c.pw.net.weight - c.pw.net.utilization, c.pw.cpu.weight - c.pw.cpu.utilization))
  {
    hide NetOf, CpuOf, RamOf;
  }

  /** Four consistent subsystems that agree on one table are a consistent chain. */
  lemma Assemble(c: Chain, r0: ResourceTable, o: Claims, r1: ResourceTable, g: Claims, r2: ResourceTable, h: Claims, q0: int)
    requires Shared(c) && OneLedger(c)
    requires RexInvariants.Inv(c.rex.(resources := r0), o)
    requires B.Inv(c.bw.(resources := r1), g)
    requires PI.Inv(c.pw.(resources := r2), h)
    requires M.Inv(c.ram, q0)
    ensures Inv(c, q0)
  {
    hide RexInvariants.InvExcept, B.Inv, PI.Inv, M.Inv, OneLedger, RexInvariants.Surplus, RexInvariants.Ledger, B.Backed, PI.Backed,
         PI.WithReserve, ForRex, ForStaking, ForPowerup;
    forall a: Name
      ensures 0 <= StakedNet(c, a) && 0 <= StakedCpu(c, a) && 0 <= LoanedNet(c, a) && 0 <= LoanedCpu(c, a)
      ensures 0 <= PoweredNet(c, a) && 0 <= PoweredCpu(c, a)
    {
      StakedNonNegative(c.bw.(resources := r1), g, a);
      LoanedNonNegative(c.rex.(resources := r0), o, a);
      PoweredNonNegative(c.pw.(resources := r2), h, a);
    }
    PoweredNonNegative(c.pw.(resources := r2), h, 0);
    RexBacked(c);
    StakingBacked(c);
    PowerupBacked(c);
    RexOn(c.rex.(resources := r0), o, c.rex.resources, ForRex(c));
    StakingOn(c.bw.(resources := r1), g, c.rex.resources, ForStaking(c));
    PowerupOn(c.pw.(resources := r2), h, c.rex.resources, ForPowerup(c));
  }

  lemma Balanced(c: Chain, q0: int)
    requires Inv(c, q0)
    ensures OneLedger(c)
  {
    hide B.Inv, PI.Inv, M.Inv, RexReturns.Valid, RexInvariants.ValidBalances, RexInvariants.ValidOrders, RexInvariants.ValidPool,
         RexInvariants.ValidLoans, RexInvariants.ExpireInTime;
  }

  // ----- every action -----

  lemma RexFrame(s: R.State, a: R.Action)
    requires R.Step(s, a).Some? && !a.Advance?
    ensures R.Step(s, a).value.now == s.now
  {
    RexGuarantees.StepTakesNoTime(s, a);
  }

  lemma RexKeeps(c: Chain, a: R.Action, q0: int)
    requires Inv(c, q0) && !a.Advance? && R.Step(c.rex, a).Some?
    ensures Inv(c.(rex := R.Step(c.rex, a).value).WithResources(R.Step(c.rex, a).value.resources), q0)
  {
    hide RexInvariants.InvExcept, B.Inv, PI.Inv, M.Inv, R.Step;
    RexActions.StepKeeps(c.rex, a, ForRex(c));
    RexFrame(c.rex, a);
    var rex := R.Step(c.rex, a).value;
    var c' := c.(rex := rex).WithResources(rex.resources);
    RexLedger(rex, ForRex(c));
    assert OneLedger(c') by {
      forall a: Name ensures NetOf(rex.resources, a) == StakedNet(c', a) + LoanedNet(c', a) + PoweredNet(c', a)
                     ensures CpuOf(rex.resources, a) == StakedCpu(c', a) + LoanedCpu(c', a) + PoweredCpu(c', a) {
      }
    }
    RamOn(c.ram, rex.resources, q0);
    Assemble(c', rex.resources, ForRex(c), c.bw.resources, ForStaking(c), c.pw.resources, ForPowerup(c), q0);
  }

  lemma RexLedger(s: R.State, o: Claims)
    requires RexInvariants.Inv(s, o)
    ensures RexInvariants.Ledger(s.resources, s.cpu, s.net, o)
  {
    hide RexReturns.Valid, RexInvariants.ValidBalances, RexInvariants.ValidOrders, RexInvariants.ValidPool,
         RexInvariants.ValidLoans, RexInvariants.ExpireInTime, RexInvariants.Ledger;
  }

  lemma StakingFrame(s: B.State, a: B.Action, g: Claims)
    requires B.Inv(s, g) && B.Step(s, a).Some? && !a.Advance?
    ensures B.Step(s, a).value.now == s.now
    ensures B.Inv(B.Step(s, a).value, g)
  {
    hide B.Inv, B.ChangeDelegation, Adjust, Tokens.Transfer, B.ChangeRefund, B.Owed;
    B.StepConserves(s, a, g);
  }

  lemma StakingKeeps(c: Chain, a: B.Action, q0: int)
    requires Inv(c, q0) && !a.Advance? && B.Step(c.bw, a).Some?
    ensures Inv(c.(bw := B.Step(c.bw, a).value).WithResources(B.Step(c.bw, a).value.resources), q0)
  {
    hide RexInvariants.InvExcept, B.Inv, PI.Inv, M.Inv, B.Step, RexInvariants.Surplus;
    StakingFrame(c.bw, a, ForStaking(c));
    var bw := B.Step(c.bw, a).value;
    var c' := c.(bw := bw).WithResources(bw.resources);
    StakingLedger(bw, ForStaking(c));
    RamOn(c.ram, bw.resources, q0);
    Assemble(c', c.rex.resources, ForRex(c), bw.resources, ForStaking(c), c.pw.resources, ForPowerup(c), q0);
  }

  lemma StakingLedger(s: B.State, g: Claims)
    requires B.Inv(s, g)
    ensures B.Backed(s.resources, s.delegations, g)
  {
  }

  lemma PowerupFrame(s: P.State, a: P.Action, g: Claims)
    requires PI.Inv(s, g) && P.Step(s, a).Some? && !a.Advance?
    ensures P.Step(s, a).value.now == s.now
    ensures PI.Inv(P.Step(s, a).value, g)
  {
    hide PI.Inv, Adjust, P.UpdateUtilization, P.UpdateWeight, P.Expire, P.Configure, P.Sells, P.Portion, P.Sold;
    PI.StepKeeps(s, a, g);
  }

  lemma PowerupLedger(s: P.State, g: Claims)
    requires PI.Inv(s, g)
    ensures PI.Backed(s.resources, s.orders,
                      PI.WithReserve(g, s.net.weight - s.net.utilization, s.cpu.weight - s.cpu.utilization))
  {
  }

  lemma PowerupKeeps(c: Chain, a: P.Action, q0: int)
    requires Inv(c, q0) && !a.Advance? && P.Step(c.pw, a).Some?
    ensures Inv(c.(pw := P.Step(c.pw, a).value).WithResources(P.Step(c.pw, a).value.resources), q0)
  {
    hide RexInvariants.InvExcept, B.Inv, PI.Inv, M.Inv, P.Step, RexInvariants.Surplus;
    PowerupFrame(c.pw, a, ForPowerup(c));
    var pw := P.Step(c.pw, a).value;
    var c' := c.(pw := pw).WithResources(pw.resources);
    PowerupLedger(pw, ForPowerup(c));
    RamOn(c.ram, pw.resources, q0);
    Assemble(c', c.rex.resources, ForRex(c), c.bw.resources, ForStaking(c), pw.resources, ForPowerup(c), q0);
  }

  /** RAM trades leave NET and CPU alone. */
  lemma RamFrame(s: M.State, a: M.Action)
    requires M.Step(s, a).Some?
    ensures var res := M.Step(s, a).value.resources;
            forall n: Name :: NetOf(res, n) == NetOf(s.resources, n) && CpuOf(res, n) == CpuOf(s.resources, n)
  {
  }

  lemma RamKeeps(c: Chain, a: M.Action, q0: int)
    requires Inv(c, q0) && M.Step(c.ram, a).Some?
    ensures Inv(c.(ram := M.Step(c.ram, a).value).WithResources(M.Step(c.ram, a).value.resources), q0)
  {
    hide RexInvariants.InvExcept, B.Inv, PI.Inv, M.Inv, M.Step, RexInvariants.Surplus;
    M.StepKeeps(c.ram, a, q0);
    RamFrame(c.ram, a);
    Balanced(c, q0);
    var ram := M.Step(c.ram, a).value;
    var c' := c.(ram := ram).WithResources(ram.resources);
    Assemble(c', c.rex.resources, ForRex(c), c.bw.resources, ForStaking(c), c.pw.resources, ForPowerup(c), q0);
  }

  /** What staking grants once a delegation is gone, and what powerup grants, is never negative. */
  lemma GrantsNonNegative(c: Chain, bw: B.State, q0: int)
    requires Inv(c, q0) && B.Inv(bw, ForStaking(c))
    ensures forall a: Name ::
              && 0 <= Sum(bw.delegations, B.NetTo(a)) && 0 <= Sum(bw.delegations, B.CpuTo(a))
              && 0 <= PoweredNet(c, a) && 0 <= PoweredCpu(c, a)
  {
    hide RexInvariants.InvExcept, PI.Inv, M.Inv, B.Inv;
    forall a: Name
      ensures 0 <= Sum(bw.delegations, B.NetTo(a)) && 0 <= Sum(bw.delegations, B.CpuTo(a))
      ensures 0 <= PoweredNet(c, a) && 0 <= PoweredCpu(c, a)
    {
      StakedNonNegative(bw, ForStaking(c), a);
      PoweredNonNegative(c.pw, ForPowerup(c), a);
    }
  }

  /** Moving a delegation into REX lowers what staking grants the receiver by exactly that much. */
  lemma DelegationLowered(c: Chain, owner: Name, receiver: Name, net: int, cpu: int, q0: int)
    requires Inv(c, q0) && B.StakeToRex(c.bw, owner, receiver, net, cpu).Some?
    ensures var bw := B.StakeToRex(c.bw, owner, receiver, net, cpu).value;
            && bw.now == c.bw.now && B.Inv(bw, ForStaking(c))
            && RexActions.Lowered(ForRex(c), ForRex(c.(bw := bw)), receiver, net, cpu)
  {
    hide RexInvariants.InvExcept, PI.Inv, M.Inv, B.Backed, B.ValidRefunds, Tokens.NonNegative, Tokens.Transfer, Adjust,
         B.ChangeDelegation, B.ValidDelegations;
    B.StakeToRexMoves(c.bw, owner, receiver, net, cpu, ForStaking(c));
    var bw := B.StakeToRex(c.bw, owner, receiver, net, cpu).value;
    B.DelegationMoves(c.bw.delegations, B.Pair(owner, receiver), -net, -cpu);
    GrantsNonNegative(c, bw, q0);
  }

  lemma UnstakeToRexKeeps(c: Chain, owner: Name, receiver: Name, net: int, cpu: int, votes: bool, q0: int)
    requires Inv(c, q0)
    requires B.StakeToRex(c.bw, owner, receiver, net, cpu).Some? && R.BuyWithStake(c.rex, owner, receiver, net, cpu, votes).Some?
    ensures var bw := B.StakeToRex(c.bw, owner, receiver, net, cpu).value;
            var rex := R.BuyWithStake(c.rex, owner, receiver, net, cpu, votes).value;
            Inv(c.(bw := bw, rex := rex).WithResources(rex.resources), q0)
  {
    hide RexInvariants.InvExcept, B.Inv, PI.Inv, M.Inv, B.StakeToRex, R.BuyWithStake, RexInvariants.Surplus, RexActions.Lowered;
    DelegationLowered(c, owner, receiver, net, cpu, q0);
    var bw := B.StakeToRex(c.bw, owner, receiver, net, cpu).value;
    var o' := ForRex(c.(bw := bw));
    RexActions.BuyWithStakeKeeps(c.rex, owner, receiver, net, cpu, votes, ForRex(c), o');
    RexGuarantees.BuyWithStakeTakesNoTime(c.rex, owner, receiver, net, cpu, votes);
    var rex := R.BuyWithStake(c.rex, owner, receiver, net, cpu, votes).value;
    var c' := c.(bw := bw, rex := rex).WithResources(rex.resources);
    RexLedger(rex, o');
    RamOn(c.ram, rex.resources, q0);
    Assemble(c', rex.resources, o', bw.resources, ForStaking(c), c.pw.resources, ForPowerup(c), q0);
  }

  lemma AdvanceKeeps(c: Chain, time: int, slot: int, q0: int)
    requires Inv(c, q0) && Step(c, Advance(time, slot)).Some?
    ensures Inv(Step(c, Advance(time, slot)).value, q0)
  {
    hide RexInvariants.InvExcept, B.Inv, PI.Inv, M.Inv, RexInvariants.Surplus, B.Owed;
    Balanced(c, q0);
    RexActions.AdvanceKeeps(c.rex, time, ForRex(c));
    B.AdvanceMoves(c.bw, time / 1_000_000, ForStaking(c));
    PI.StepKeeps(c.pw, P.Action.Advance(time / 1_000_000), ForPowerup(c));
    M.StepKeeps(c.ram, M.Action.Advance(slot), q0);
    var c' := Step(c, Advance(time, slot)).value;
    Assemble(c', c'.rex.resources, ForRex(c), c'.rex.resources, ForStaking(c), c'.rex.resources, ForPowerup(c), q0);
  }

  lemma StepKeeps(c: Chain, a: Action, q0: int)
    requires Inv(c, q0) && Step(c, a).Some?
    ensures Inv(Step(c, a).value, q0)
  {
    hide RexInvariants.InvExcept, B.Inv, PI.Inv, M.Inv, R.Step, B.Step, P.Step, M.Step, B.StakeToRex, R.BuyWithStake;
    match a
    case RexCall(r) => RexKeeps(c, r, q0);
    case StakeCall(b) => StakingKeeps(c, b, q0);
    case PowerupCall(p) => PowerupKeeps(c, p, q0);
    case RamCall(m) => RamKeeps(c, m, q0);
    case UnstakeToRexCall(owner, receiver, net, cpu, votes) => UnstakeToRexKeeps(c, owner, receiver, net, cpu, votes, q0);
    case Advance(time, slot) => AdvanceKeeps(c, time, slot, q0);
  }

  // ----- runs -----

  ghost function Next(c: Chain, a: Action): Chain {
    if Step(c, a).Some? then Step(c, a).value else c
  }

  ghost function Run(c: Chain, actions: seq<Action>): Chain
    decreases |actions|
  {
    if actions == [] then c else Run(Next(c, actions[0]), actions[1..])
  }

  lemma {:induction false} RunKeeps(c: Chain, actions: seq<Action>, q0: int)
    requires Inv(c, q0)
    ensures Inv(Run(c, actions), q0)
    decreases |actions|
  {
    hide Inv, Step;
    if actions != [] {
      if Step(c, actions[0]).Some? {
        StepKeeps(c, actions[0], q0);
      }
      RunKeeps(Next(c, actions[0]), actions[1..], q0);
    }
  }

  /** The chain before anyone has staked, lent, powered up or bought RAM. */
  ghost predicate Genesis(c: Chain, supply: int) {
    && Shared(c) && c.rex.resources == map[]
    && c.rex.pool == None && RexInvariants.Empty(c.rex) && c.rex.funds == map[] && 0 <= c.rex.tokens
    && RexReturns.ValidTime(c.rex.Seconds())
    && c.bw.delegations == map[] && c.bw.refunds == map[] && Tokens.NonNegative(c.bw.tokens)
    && !c.pw.configured && c.pw.net == P.DEFAULT && c.pw.cpu == P.DEFAULT && c.pw.orders == map[]
    && M.Initial(c.ram, supply)
  }

  lemma GenesisInv(c: Chain, supply: int)
    requires Genesis(c, supply)
    ensures Inv(c, c.ram.quote)
  {
    M.InitialInv(c.ram, supply);
    RexGuarantees.InitialInv(c.rex, ForRex(c));
    PI.InitialInv(c.pw, ForPowerup(c));
  }

  /** The one ledger holds in every reachable state. */
  lemma OneLedgerAlways(c: Chain, supply: int, actions: seq<Action>)
    requires Genesis(c, supply)
    ensures OneLedger(Run(c, actions))
  {
    hide Inv, Genesis;
    GenesisInv(c, supply);
    RunKeeps(c, actions, c.ram.quote);
    Balanced(Run(c, actions), c.ram.quote);
  }

  /** In every reachable state loan maintenance and powerup expiry run to the end, and stake can be taken back
      whenever the delegation covers it: no check on an account's totals stands in the way. */
  lemma NothingBlocksExpiry(c: Chain, supply: int, actions: seq<Action>, max: nat, dn: int, dc: int,
                            from: Name, receiver: Name, net: int, cpu: int)
    requires Genesis(c, supply)
    ensures var r := Run(c, actions);
            && (R.RunRex(r.rex, max).Some? <==> r.rex.pool.Some?)
            && (P.PowerupExec(r.pw, max, dn, dc).Some? <==> r.pw.configured)
            && (B.UndelegateBw(r.bw, from, receiver, net, cpu).Some? <==>
                 var d := B.DelegationOf(r.bw.delegations, B.Pair(from, receiver));
                 0 <= net <= d.net && 0 <= cpu <= d.cpu && 0 < net + cpu)
  {
    hide Inv, Genesis;
    GenesisInv(c, supply);
    RunKeeps(c, actions, c.ram.quote);
    NothingBlocks(Run(c, actions), max, dn, dc, from, receiver, net, cpu, c.ram.quote);
  }

  lemma NothingBlocks(c: Chain, max: nat, dn: int, dc: int, from: Name, receiver: Name, net: int, cpu: int, q0: int)
    requires Inv(c, q0)
    ensures R.RunRex(c.rex, max).Some? <==> c.rex.pool.Some?
    ensures P.PowerupExec(c.pw, max, dn, dc).Some? <==> c.pw.configured
    ensures B.UndelegateBw(c.bw, from, receiver, net, cpu).Some? <==>
            var d := B.DelegationOf(c.bw.delegations, B.Pair(from, receiver));
            0 <= net <= d.net && 0 <= cpu <= d.cpu && 0 < net + cpu
  {
    hide RexInvariants.InvExcept, B.Inv, PI.Inv, M.Inv, R.RunRex, P.PowerupExec, B.UndelegateBw, RexInvariants.Surplus;
    if c.rex.pool.Some? {
      RexInvariants.RunRexKeeps(c.rex, max, ForRex(c));
    }
    RunNeedsPool(c.rex, max);
    PI.PowerupExecKeeps(c.pw, max, dn, dc, ForPowerup(c));
    B.UndelegationNeedsOnlyStake(c.bw, from, receiver, net, cpu, ForStaking(c));
  }

  lemma RunNeedsPool(s: R.State, max: nat)
    ensures R.RunRex(s, max).Some? ==> s.pool.Some?
  {
  }

  // ----- solvency of the whole system -----

  /** eosio.stake does not stake on its own behalf. */
  predicate OthersStake(a: Action) {
    a.StakeCall? ==> B.SelfStaked(a.b) == 0
  }

  ghost predicate Solvent(c: Chain) {
    && RexInvariants.Liabilities(c.rex) <= c.rex.tokens
    && B.Owed(c.bw) <= Tokens.BalanceOf(c.bw.tokens, B.STAKE)
    && c.ram.stake <= c.ram.tokens
  }

  lemma RexSurplus(c: Chain, a: R.Action, q0: int)
    requires Inv(c, q0) && R.Step(c.rex, a).Some?
    ensures RexInvariants.Surplus(c.rex) <= RexInvariants.Surplus(R.Step(c.rex, a).value)
  {
    hide RexInvariants.InvExcept, B.Inv, PI.Inv, M.Inv, R.Step, RexInvariants.Surplus;
    RexActions.StepKeeps(c.rex, a, ForRex(c));
    RexGuarantees.GainNonNegative(c.rex, a, ForRex(c));
  }

  lemma UnstakeSurplus(c: Chain, owner: Name, receiver: Name, net: int, cpu: int, votes: bool, q0: int)
    requires Inv(c, q0)
    requires B.StakeToRex(c.bw, owner, receiver, net, cpu).Some? && R.BuyWithStake(c.rex, owner, receiver, net, cpu, votes).Some?
    ensures RexInvariants.Surplus(c.rex) <= RexInvariants.Surplus(R.BuyWithStake(c.rex, owner, receiver, net, cpu, votes).value)
    ensures var bw := B.StakeToRex(c.bw, owner, receiver, net, cpu).value;
            Tokens.BalanceOf(bw.tokens, B.STAKE) - B.Owed(bw) == Tokens.BalanceOf(c.bw.tokens, B.STAKE) - B.Owed(c.bw)
  {
    hide RexInvariants.InvExcept, B.Inv, PI.Inv, M.Inv, B.StakeToRex, R.BuyWithStake, RexInvariants.Surplus, RexActions.Lowered,
         B.Owed, B.Holdings;
    DelegationLowered(c, owner, receiver, net, cpu, q0);
    B.StakeToRexMoves(c.bw, owner, receiver, net, cpu, ForStaking(c));
    var o' := ForRex(c.(bw := B.StakeToRex(c.bw, owner, receiver, net, cpu).value));
    RexActions.BuyWithStakeKeeps(c.rex, owner, receiver, net, cpu, votes, ForRex(c), o');
    RexGuarantees.ForgottenNonNegative(c.rex, ForRex(c));
  }

  lemma SurplusIgnoresResources(s: R.State, res: ResourceTable)
    ensures RexInvariants.Surplus(s.(resources := res)) == RexInvariants.Surplus(s)
  {
  }

  lemma OwedIgnoresResources(s: B.State, res: ResourceTable)
    ensures B.Owed(s.(resources := res)) == B.Owed(s)
  {
  }

  lemma StepSolvent(c: Chain, a: Action, q0: int)
    requires Inv(c, q0) && Solvent(c) && Step(c, a).Some? && OthersStake(a)
    ensures Inv(Step(c, a).value, q0) && Solvent(Step(c, a).value)
  {
    hide RexInvariants.InvExcept, B.Inv, PI.Inv, R.Step, B.Step, P.Step, M.Step, B.StakeToRex, R.BuyWithStake,
         RexInvariants.Liabilities, B.Owed, Tokens.BalanceOf;
    StepKeeps(c, a, q0);
    var c' := Step(c, a).value;
    OwedIgnoresResources(c.bw, c'.bw.resources);
    SurplusIgnoresResources(c.rex, c'.rex.resources);
    match a
    case RexCall(r) => RexSurplus(c, r, q0);
    case StakeCall(b) => B.StepConserves(c.bw, b, ForStaking(c)); OwedIgnoresResources(B.Step(c.bw, b).value, c'.bw.resources);
    case UnstakeToRexCall(owner, receiver, net, cpu, votes) =>
      UnstakeSurplus(c, owner, receiver, net, cpu, votes, q0);
      OwedIgnoresResources(B.StakeToRex(c.bw, owner, receiver, net, cpu).value, c'.bw.resources);
    case Advance(time, slot) =>
      RexSurplus(c, R.Action.Advance(time), q0);
      B.StepConserves(c.bw, B.Action.Advance(time / 1_000_000), ForStaking(c));
    case _ =>
  }

  lemma {:induction false} RunSolvent(c: Chain, actions: seq<Action>, q0: int)
    requires Inv(c, q0) && Solvent(c) && forall i | 0 <= i < |actions| :: OthersStake(actions[i])
    ensures Inv(Run(c, actions), q0) && Solvent(Run(c, actions))
    decreases |actions|
  {
    hide Inv, Step, Solvent, OthersStake;
    if actions != [] {
      if Step(c, actions[0]).Some? {
        StepSolvent(c, actions[0], q0);
      }
      RunSolvent(Next(c, actions[0]), actions[1..], q0);
    }
  }

  /** Whatever users do, in whatever order, eosio.rex, eosio.stake and eosio.ram can always pay what they owe. */
  lemma AlwaysSolvent(c: Chain, supply: int, actions: seq<Action>)
    requires Genesis(c, supply) && forall i | 0 <= i < |actions| :: OthersStake(actions[i])
    ensures Solvent(Run(c, actions))
  {
    hide Inv, OthersStake;
    GenesisInv(c, supply);
    RunSolvent(c, actions, c.ram.quote);
  }
}
