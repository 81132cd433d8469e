/** What REX owners keep while others act, and that nobody's REX matures early. */
module RexOwners {
  import opened Tables
  import opened Resources
  import opened Rex
  import opened RexInvariants
  import opened RexTrades
  import RexActions
  import RexBalances
  import RexMaturities
  import RexReturns

  // ----- idle owners -----

  ghost predicate NoLoans(loans: LoanTable, n: Name) {
    forall k | k in loans :: loans[k].from != n
  }

  /** An owner whom maintenance has nothing to do for: no open sell order, and no loan in the owner's name. */
  ghost predicate Idle(s: State, n: Name) {
    (n in s.orders ==> !s.orders[n].isOpen) && NoLoans(s.cpu, n) && NoLoans(s.net, n)
  }

  ghost predicate SameRow<V>(m: map<Name, V>, m': map<Name, V>, n: Name) {
    (n in m' <==> n in m) && (n in m ==> m'[n] == m[n])
  }

  /** The owner's fund, REX and order are what they were, and the owner is still idle. */
  ghost predicate Untouched(s: State, s': State, n: Name) {
    && SameRow(s.funds, s'.funds, n) && SameRow(s.balances, s'.balances, n) && SameRow(s.orders, s'.orders, n)
    && Idle(s', n)
  }

  lemma UntouchedTransitive(a: State, b: State, c: State, n: Name)
    requires Untouched(a, b, n) && Untouched(b, c, n)
    ensures Untouched(a, c, n)
  {
  }

  lemma UntouchedSelf(s: State, n: Name)
    requires Idle(s, n)
    ensures Untouched(s, s, n)
  {
  }

  lemma LoanUntouches(s: State, kind: Kind, k: nat, n: Name)
    requires s.pool.Some? && k in s.Loans(kind) && Idle(s, n) && ProcessExpiredLoan(s, kind, k).Some?
    ensures Untouched(s, ProcessExpiredLoan(s, kind, k).value, n)
  {
    hide RemoveLoanFromPool, Renews, RenewLoan, CloseLoan;
    var s1 := s.(pool := Some(RemoveLoanFromPool(s.pool.value, s.Loans(kind)[k].staked)));
    RenewalUntouches(s1, kind, k, n);
    CloseLoanUntouches(s1, kind, k, n);
  }

  lemma RenewalUntouches(s: State, kind: Kind, k: nat, n: Name)
    requires s.pool.Some? && k in s.Loans(kind) && Idle(s, n)
    ensures RenewLoan(s, kind, k).Some? ==> Untouched(s, RenewLoan(s, kind, k).value, n)
  {
    RexActions.AddToReturnPoolFrame(s, s.Loans(kind)[k].payment);
    hide AdjustLoan, Rented, AddToReturnPool;
  }

  lemma CloseLoanUntouches(s: State, kind: Kind, k: nat, n: Name)
    requires k in s.Loans(kind) && Idle(s, n)
    ensures CloseLoan(s, kind, k).Some? ==> Untouched(s, CloseLoan(s, kind, k).value, n)
  {
    assert s.Loans(kind)[k].from != n;
    hide AdjustLoan;
  }

  lemma {:induction false} LoansUntouch(s: State, kind: Kind, max: nat, n: Name)
    requires s.pool.Some? && Idle(s, n) && RunLoans(s, kind, max).Some?
    ensures Untouched(s, RunLoans(s, kind, max).value, n)
    decreases max
  {
    hide ProcessExpiredLoan, Untouched, Idle;
    if 0 < max && HasExpired(s, kind) {
      var k := FirstLoan(s.Loans(kind));
      LoanUntouches(s, kind, k, n);
      var s1 := ProcessExpiredLoan(s, kind, k).value;
      StillIdle(s, s1, n);
      LoansUntouch(s1, kind, max - 1, n);
      UntouchedTransitive(s, s1, RunLoans(s, kind, max).value, n);
    } else {
      UntouchedSelf(s, n);
    }
  }

  lemma StillIdle(s: State, s': State, n: Name)
    requires Untouched(s, s', n)
    ensures Idle(s', n)
  {
  }

  lemma FillUntouches(s: State, owner: Name, n: Name)
    requires s.pool.Some? && owner in s.orders && owner != n && Idle(s, n) && FillQueued(s, owner).Some?
    ensures Untouched(s, FillQueued(s, owner).value, n)
  {
  }

  lemma {:induction false} FillsUntouch(s: State, todo: set<Name>, max: nat, n: Name)
    requires s.pool.Some? && todo <= s.orders.Keys && n !in todo && Idle(s, n) && FillOrders(s, todo, max).Some?
    ensures Untouched(s, FillOrders(s, todo, max).value, n)
    decreases max
  {
    hide FillQueued, Untouched, Idle;
    if 0 < max && todo != {} {
      var owner := FirstOrder(s.orders, todo);
      FillUntouches(s, owner, n);
      var s1 := FillQueued(s, owner).value;
      StillIdle(s, s1, n);
      FillsUntouch(s1, todo - {owner}, max - 1, n);
      UntouchedTransitive(s, s1, FillOrders(s, todo, max).value, n);
    } else {
      UntouchedSelf(s, n);
    }
  }

  lemma FeesUntouch(s: State, n: Name)
    requires s.pool.Some? && Idle(s, n)
    ensures Untouched(s, CollectNamebids(UpdateRexPool(s)), n)
  {
    RexActions.CollectNamebidsFrame(s);
    hide CollectNamebids, UpdateRexPool;
  }

  lemma MaintenanceUntouches(s: State, max: nat, n: Name)
    requires Idle(s, n) && RunRex(s, max).Some?
    ensures Untouched(s, RunRex(s, max).value, n)
  {
    FeesUntouch(s, n);
    hide CollectNamebids, UpdateRexPool, RunLoans, FillOrders, NoLoans;
    var s1 := CollectNamebids(UpdateRexPool(s));
    LoansUntouch(s1, Cpu, max, n);
    var s2 := RunLoans(s1, Cpu, max).value;
    LoansUntouch(s2, Net, max, n);
    var s3 := RunLoans(s2, Net, max).value;
    FillsUntouch(s3, OpenOrders(s3.orders), max, n);
  }

  /** The owner an action is for; fees, settings and maintenance are for nobody. */
  function ActsFor(a: Action): Option<Name> {
    match a
    case DepositCall(owner, _) => Some(owner)
    case WithdrawCall(owner, _) => Some(owner)
    case BuyRexCall(owner, _, _) => Some(owner)
    case SellRexCall(owner, _) => Some(owner)
    case CancelOrderCall(owner) => Some(owner)
    case RentCall(_, owner, _, _, _) => Some(owner)
    case FundLoanCall(_, owner, _, _) => Some(owner)
    case DefundLoanCall(_, owner, _, _) => Some(owner)
    case UpdateRexCall(owner) => Some(owner)
    case ConsolidateCall(owner) => Some(owner)
    case MoveToSavingsCall(owner, _) => Some(owner)
    case MoveFromSavingsCall(owner, _) => Some(owner)
    case CloseRexCall(owner) => Some(owner)
    case _ => None
  }

  /** What others do changes nothing in an idle owner's fund, REX or uncollected proceeds. */
  lemma OthersLeaveIdleOwners(s: State, a: Action, n: Name)
    requires Step(s, a).Some? && ActsFor(a) != Some(n) && Idle(s, n)
    ensures Untouched(s, Step(s, a).value, n)
  {
    hide RunRex, AddToReturnPool, AdjustLoan, Rented, RexBalances.MoveToSavings, RexBalances.MoveFromSavings, RexBalances.Consolidate,
         RexBalances.Buy, AddToRexPool, SellMatured, GrantLoan, HasLoans, FundLoan, DefundLoan, Untouched, CloseRex, BuyRex;
    match a
    case SellRexCall(owner, rex) =>
      MaintenanceUntouches(s, 2, n);
      StillIdle(s, RunRex(s, 2).value, n);
      SaleUntouches(RunRex(s, 2).value, owner, rex, n);
      UntouchedTransitive(s, RunRex(s, 2).value, Step(s, a).value, n);
    case RentCall(kind, owner, receiver, payment, fund) =>
      MaintenanceUntouches(s, 2, n);
      StillIdle(s, RunRex(s, 2).value, n);
      GrantUntouches(RunRex(s, 2).value, kind, owner, receiver, payment, fund, n);
      UntouchedTransitive(s, RunRex(s, 2).value, Step(s, a).value, n);
    case BuyRexCall(owner, amount, votes) => BuyUntouches(s, owner, amount, votes, n);
    case RexExecCall(max) => MaintenanceUntouches(s, max, n);
    case FundLoanCall(kind, owner, k, payment) => LoanFundsUntouch(s, kind, owner, k, payment, n);
    case DefundLoanCall(kind, owner, k, payment) => LoanFundsUntouch(s, kind, owner, k, payment, n);
    case CloseRexCall(owner) => CloseUntouches(s, owner, n);
    case UpdateRexCall(owner) => BalanceUntouches(s, a, owner, n);
    case ConsolidateCall(owner) => BalanceUntouches(s, a, owner, n);
    case MoveToSavingsCall(owner, rex) => BalanceUntouches(s, a, owner, n);
    case MoveFromSavingsCall(owner, rex) => BalanceUntouches(s, a, owner, n);
    case ChannelFeeCall(amount) => FeeUntouches(s, amount, n);
    case WithdrawCall(owner, amount) => WithdrawUntouches(s, owner, amount, n);
    case _ => QuietUntouches(s, a, n);
  }

  lemma QuietUntouches(s: State, a: Action, n: Name)
    requires Step(s, a).Some? && ActsFor(a) != Some(n) && Idle(s, n)
    requires a.DepositCall? || a.CancelOrderCall? || a.SetRexCall? || a.ChannelNamebidCall? || a.Donate? || a.Advance?
    ensures Untouched(s, Step(s, a).value, n)
  {
    hide NoLoans;
  }

  lemma WithdrawUntouches(s: State, owner: Name, amount: int, n: Name)
    requires Withdraw(s, owner, amount).Some? && owner != n && Idle(s, n)
    ensures Untouched(s, Withdraw(s, owner, amount).value, n)
  {
    hide UpdateRexAccount, NoLoans;
    AccountUntouches(s, owner, 0, n);
  }

  lemma FeeUntouches(s: State, amount: int, n: Name)
    requires ChannelToRex(s, amount).Some? && Idle(s, n)
    ensures Untouched(s, ChannelToRex(s, amount).value, n)
  {
    hide AddToReturnPool;
    if s.Available() {
      RexActions.AddToReturnPoolFrame(s, amount);
    }
  }

  lemma AccountUntouches(s: State, owner: Name, proceeds: int, n: Name)
    requires Idle(s, n) && owner != n
    ensures Untouched(s, UpdateRexAccount(s, owner, proceeds), n)
  {
    hide NoLoans;
  }

  lemma SaleUntouches(s: State, owner: Name, rex: int, n: Name)
    requires s.pool.Some? && Idle(s, n) && owner != n && SellMatured(s, owner, rex).Some?
    ensures Untouched(s, SellMatured(s, owner, rex).value, n)
  {
    hide RexBalances.ProcessMaturities, UpdateRexAccount, NoLoans;
    var s2 := s.(balances := s.balances[owner := RexBalances.ProcessMaturities(s.balances[owner], s.Seconds())]);
    var fill := FillRexOrder(s2, owner, rex).value;
    assert Untouched(s, fill.state, n);
    AccountUntouches(fill.state, owner, fill.proceeds, n);
    RexActions.UpdateRexAccountFrame(fill.state, owner, fill.proceeds);
  }

  lemma GrantUntouches(s: State, kind: Kind, owner: Name, receiver: Name, payment: int, fund: int, n: Name)
    requires s.pool.Some? && Idle(s, n) && owner != n && GrantLoan(s, kind, owner, receiver, payment, fund).Some?
    ensures Untouched(s, GrantLoan(s, kind, owner, receiver, payment, fund).value, n)
  {
    hide AdjustLoan, Rented, AddToReturnPool;
    var s2 := TransferFromFund(s, owner, payment + fund).value;
    RexActions.AddToReturnPoolFrame(s2, payment);
  }

  lemma PurchaseUntouches(s: State, owner: Name, amount: int, n: Name)
    requires Idle(s, n) && owner != n && Purchase(s, owner, amount).Some?
    ensures Untouched(s, Purchase(s, owner, amount).value, n)
  {
    hide AddToRexPool, RexBalances.Buy;
  }

  lemma BuyUntouches(s: State, owner: Name, amount: int, votes: bool, n: Name)
    requires Idle(s, n) && owner != n && BuyRex(s, owner, amount, votes).Some?
    ensures Untouched(s, BuyRex(s, owner, amount, votes).value, n)
  {
    hide RunRex, UpdateRexAccount, Purchase;
    var s1 := TransferFromFund(s, owner, amount).value;
    PurchaseUntouches(s1, owner, amount, n);
    var s2 := Purchase(s1, owner, amount).value;
    MaintenanceUntouches(s2, 2, n);
    AccountUntouches(RunRex(s2, 2).value, owner, 0, n);
  }

  /** unstaketorex, too, leaves idle owners alone. */
  lemma UnstakingLeavesIdleOwners(s: State, owner: Name, receiver: Name, net: int, cpu: int, votes: bool, n: Name)
    requires Idle(s, n) && owner != n && BuyWithStake(s, owner, receiver, net, cpu, votes).Some?
    ensures Untouched(s, BuyWithStake(s, owner, receiver, net, cpu, votes).value, n)
  {
    hide RunRex, UpdateRexAccount, Purchase, Adjust;
    var s1 := s.(resources := Adjust(s.resources, receiver, -net, -cpu).value, tokens := s.tokens + net + cpu);
    PurchaseUntouches(s1, owner, net + cpu, n);
    var s2 := Purchase(s1, owner, net + cpu).value;
    MaintenanceUntouches(s2, 2, n);
    AccountUntouches(RunRex(s2, 2).value, owner, 0, n);
  }

  lemma LoanFundsUntouch(s: State, kind: Kind, owner: Name, k: nat, amount: int, n: Name)
    requires Idle(s, n) && owner != n
    ensures FundLoan(s, kind, owner, k, amount).Some? ==> Untouched(s, FundLoan(s, kind, owner, k, amount).value, n)
    ensures DefundLoan(s, kind, owner, k, amount).Some? ==> Untouched(s, DefundLoan(s, kind, owner, k, amount).value, n)
  {
  }

  lemma CloseUntouches(s: State, owner: Name, n: Name)
    requires Idle(s, n) && owner != n && CloseRex(s, owner).Some?
    ensures Untouched(s, CloseRex(s, owner).value, n)
  {
    hide RunRex, UpdateRexAccount, HasLoans, NoLoans;
    if s.pool.Some? {
      MaintenanceUntouches(s, 2, n);
    }
    AccountUntouches(if s.pool.Some? then RunRex(s, 2).value else s, owner, 0, n);
  }

  lemma BalanceUntouches(s: State, a: Action, owner: Name, n: Name)
    requires Idle(s, n) && owner != n && Step(s, a).Some? && ActsFor(a) == Some(owner)
    requires a.UpdateRexCall? || a.ConsolidateCall? || a.MoveToSavingsCall? || a.MoveFromSavingsCall?
    ensures Untouched(s, Step(s, a).value, n)
  {
    hide RunRex, UpdateRexAccount, NoLoans, RexBalances.ProcessMaturities, RexBalances.MoveToSavings, RexBalances.MoveFromSavings,
         RexBalances.Consolidate;
    MaintenanceUntouches(s, 2, n);
    var s1 := RunRex(s, 2).value;
    AccountUntouches(s1, owner, 0, n);
    RexActions.UpdateRexAccountFrame(s1, owner, 0);
    if a.MoveFromSavingsCall? {
      var s2 := s1.(balances := s1.balances[owner := RexBalances.MoveFromSavings(s1.balances[owner], a.rex, s.Seconds())]);
      assert Untouched(s1, s2, n);
      AccountUntouches(s2, owner, 0, n);
    }
  }

  // ----- nobody's REX matures early -----

  /** A time before anything acquired now matures. */
  predicate Early(s: State, t: int) {
    s.Seconds() <= t < RexBalances.RexMaturity(s.Seconds()) && t < RexReturns.TIME_MAX
  }

  lemma MaturedNonNegative(s: State, n: Name, t: int, o: Claims)
    requires Inv(s, o)
    ensures 0 <= MaturedIn(s.balances, n, t)
    ensures n in s.balances ==> s.balances[n].matured <= MaturedIn(s.balances, n, t)
  {
    if n in s.balances {
      RexActions.OwnerValid(s, n, o);
      hide InvExcept;
      var b := s.balances[n];
      RexBalances.SavingsTotal(b);
      assert forall i | 0 <= i < |b.maturities| :: 0 <= b.maturities[i].amount;
      RexMaturities.DueAtMost(b.maturities, t);
    }
  }

  /** Of what maintenance does, filling orders takes matured REX; nothing else touches balances. */
  lemma {:induction false} FillsMatureNothing(s: State, todo: set<Name>, max: nat, n: Name, t: int, o: Claims)
    requires Inv(s, o) && s.pool.Some? && todo <= s.orders.Keys && forall m | m in todo :: s.orders[m].isOpen
    requires FillOrders(s, todo, max).Some?
    ensures MaturedIn(FillOrders(s, todo, max).value.balances, n, t) <= MaturedIn(s.balances, n, t)
    decreases max
  {
    hide InvExcept, FillQueued, Surplus;
    if 0 < max && todo != {} {
      var owner := FirstOrder(s.orders, todo);
      FillQueuedKeeps(s, owner, o);
      FillMaturesNothing(s, owner, n, t, o);
      FillsMatureNothing(FillQueued(s, owner).value, todo - {owner}, max - 1, n, t, o);
    }
  }

  lemma FillMaturesNothing(s: State, owner: Name, n: Name, t: int, o: Claims)
    requires Inv(s, o) && s.pool.Some? && owner in s.orders && s.orders[owner].isOpen && FillQueued(s, owner).Some?
    ensures MaturedIn(FillQueued(s, owner).value.balances, n, t) <= MaturedIn(s.balances, n, t)
  {
    assert 0 < s.orders[owner].requested by {
      RexActions.OpenRequestPositive(s, owner, o);
    }
    hide InvExcept;
  }

  lemma MaintenanceMaturesNothing(s: State, max: nat, n: Name, t: int, o: Claims)
    requires Inv(s, o) && RunRex(s, max).Some?
    ensures MaturedIn(RunRex(s, max).value.balances, n, t) <= MaturedIn(s.balances, n, t)
    ensures RunRex(s, max).value.now == s.now && Inv(RunRex(s, max).value, o)
  {
    hide InvExcept, Surplus, UpdateRexPool, CollectNamebids, RunLoans, FillOrders, MaturedIn;
    RunRexKeeps(s, max, o);
    RexActions.RunRexFrame(s, max);
    UpdateRexPoolKeeps(s, o, {});
    CollectNamebidsKeeps(UpdateRexPool(s), o, {});
    RexActions.CollectNamebidsFrame(s);
    var s1 := CollectNamebids(UpdateRexPool(s));
    RunLoansKeeps(s1, Cpu, max, o);
    RexActions.RunLoansFrame(s1, Cpu, max);
    var s2 := RunLoans(s1, Cpu, max).value;
    RunLoansKeeps(s2, Net, max, o);
    RexActions.RunLoansFrame(s2, Net, max);
    var s3 := RunLoans(s2, Net, max).value;
    FillsMatureNothing(s3, OpenOrders(s3.orders), max, n, t, o);
  }

  lemma PurchaseMaturesNothing(s: State, owner: Name, amount: int, n: Name, t: int)
    requires Purchase(s, owner, amount).Some? && Early(s, t)
    ensures MaturedIn(Purchase(s, owner, amount).value.balances, n, t) == MaturedIn(s.balances, n, t)
  {
    hide AddToRexPool, RexBalances.Buy, RexMaturities.MaturesAt, RexBalances.RexMaturity;
    var m := RexBalances.RexMaturity(s.Seconds());
    RexMaturities.MaturityExists(s.Seconds());
    var received := AddToRexPool(s.pool, amount).value.received;
    RexMaturities.BoughtMatures(BalanceOrNew(s.balances, owner), received, s.Seconds(), m, t);
  }

  /** No action makes REX mature earlier than it would have, and what is acquired now matures at the fifth midnight to come:
      until then an owner can sell no more than the schedule already allowed. */
  lemma NothingMaturesEarly(s: State, a: Action, n: Name, t: int, o: Claims)
    requires Inv(s, o) && Step(s, a).Some? && Early(s, t) && Step(s, a).value.Seconds() <= t
    ensures MaturedIn(Step(s, a).value.balances, n, t) <= MaturedIn(s.balances, n, t)
  {
    hide InvExcept, RunRex, AddToReturnPool, AdjustLoan, Rented, SellMatured, GrantLoan, HasLoans, FundLoan, DefundLoan, CloseRex,
         BuyRex, MaturedIn, Withdraw, Consolidate, MoveToSavings, MoveFromSavings, UpdateRex, Surplus;
    assert s.Seconds() <= t;
    hide Early;
    match a
    case SellRexCall(owner, rex) =>
      MaintenanceMaturesNothing(s, 2, n, t, o);
      SaleMaturesNothing(RunRex(s, 2).value, owner, rex, n, t);
    case RentCall(kind, owner, receiver, payment, fund) =>
      MaintenanceMaturesNothing(s, 2, n, t, o);
      GrantKeepsBalances(RunRex(s, 2).value, kind, owner, receiver, payment, fund);
    case BuyRexCall(owner, amount, votes) => BuyMaturesNothing(s, owner, amount, votes, n, t, o);
    case RexExecCall(max) => MaintenanceMaturesNothing(s, max, n, t, o);
    case FundLoanCall(kind, owner, k, payment) => LoanFundsKeepBalances(s, kind, owner, k, payment);
    case DefundLoanCall(kind, owner, k, payment) => LoanFundsKeepBalances(s, kind, owner, k, payment);
    case CloseRexCall(owner) => CloseMaturesNothing(s, owner, n, t, o);
    case UpdateRexCall(owner) => UpdateMaturesNothing(s, owner, n, t, o);
    case ConsolidateCall(owner) => ConsolidateMaturesNothing(s, owner, n, t, o);
    case MoveToSavingsCall(owner, rex) => ToSavingsMaturesNothing(s, owner, rex, n, t, o);
    case MoveFromSavingsCall(owner, rex) => FromSavingsMaturesNothing(s, owner, rex, n, t, o);
    case ChannelFeeCall(amount) => if s.Available() { RexActions.AddToReturnPoolFrame(s, amount); }
    case WithdrawCall(owner, amount) => WithdrawKeepsBalances(s, owner, amount);
    case _ =>
  }

  lemma WithdrawKeepsBalances(s: State, owner: Name, amount: int)
    requires Withdraw(s, owner, amount).Some?
    ensures Withdraw(s, owner, amount).value.balances == s.balances
  {
  }

  lemma GrantKeepsBalances(s: State, kind: Kind, owner: Name, receiver: Name, payment: int, fund: int)
    requires s.pool.Some? && GrantLoan(s, kind, owner, receiver, payment, fund).Some?
    ensures GrantLoan(s, kind, owner, receiver, payment, fund).value.balances == s.balances
  {
    hide AdjustLoan, Rented, AddToReturnPool;
    RexActions.AddToReturnPoolFrame(TransferFromFund(s, owner, payment + fund).value, payment);
  }

  lemma LoanFundsKeepBalances(s: State, kind: Kind, owner: Name, k: nat, amount: int)
    ensures FundLoan(s, kind, owner, k, amount).Some? ==> FundLoan(s, kind, owner, k, amount).value.balances == s.balances
    ensures DefundLoan(s, kind, owner, k, amount).Some? ==> DefundLoan(s, kind, owner, k, amount).value.balances == s.balances
  {
  }

  lemma SaleMaturesNothing(s: State, owner: Name, rex: int, n: Name, t: int)
    requires s.pool.Some? && SellMatured(s, owner, rex).Some? && s.Seconds() <= t
    ensures MaturedIn(SellMatured(s, owner, rex).value.balances, n, t) <= MaturedIn(s.balances, n, t)
  {
    hide RexBalances.ProcessMaturities, UpdateRexAccount, Enqueue, InSellOrder;
    var b := RexBalances.ProcessMaturities(s.balances[owner], s.Seconds());
    RexMaturities.ProcessSchedule(s.balances[owner], s.Seconds(), t);
    var fill := FillRexOrder(s.(balances := s.balances[owner := b]), owner, rex).value;
    RexActions.UpdateRexAccountFrame(fill.state, owner, fill.proceeds);
  }

  lemma BuyMaturesNothing(s: State, owner: Name, amount: int, votes: bool, n: Name, t: int, o: Claims)
    requires Inv(s, o) && BuyRex(s, owner, amount, votes).Some? && Early(s, t)
    ensures MaturedIn(BuyRex(s, owner, amount, votes).value.balances, n, t) <= MaturedIn(s.balances, n, t)
  {
    hide InvExcept, RunRex, UpdateRexAccount, Purchase, Surplus, MaturedIn;
    var s1 := TransferFromFund(s, owner, amount).value;
    FromFundKeeps(s, owner, amount, o, {});
    PurchaseMaturesNothing(s1, owner, amount, n, t);
    RexActions.PurchaseKeeps(s1, owner, amount, o);
    var s2 := Purchase(s1, owner, amount).value;
    MaintenanceMaturesNothing(s2, 2, n, t, o);
    RexActions.UpdateRexAccountFrame(RunRex(s2, 2).value, owner, 0);
  }

  lemma UnstakingMaturesNothing(s: State, owner: Name, receiver: Name, net: int, cpu: int, votes: bool, n: Name, t: int,
                                o: Claims, o': Claims)
    requires Inv(s, o) && RexActions.Lowered(o, o', receiver, net, cpu)
    requires BuyWithStake(s, owner, receiver, net, cpu, votes).Some? && Early(s, t)
    ensures MaturedIn(BuyWithStake(s, owner, receiver, net, cpu, votes).value.balances, n, t) <= MaturedIn(s.balances, n, t)
  {
    hide InvExcept, RunRex, UpdateRexAccount, Purchase, Surplus, MaturedIn, Adjust, RexActions.Lowered;
    RexActions.LowerClaims(s, receiver, net, cpu, o, o');
    var s0 := s.(resources := Adjust(s.resources, receiver, -net, -cpu).value);
    RexActions.TokensKeep(s0, s.tokens + net + cpu, o');
    var s1 := s0.(tokens := s.tokens + net + cpu);
    PurchaseMaturesNothing(s1, owner, net + cpu, n, t);
    RexActions.PurchaseKeeps(s1, owner, net + cpu, o');
    var s2 := Purchase(s1, owner, net + cpu).value;
    MaintenanceMaturesNothing(s2, 2, n, t, o');
    RexActions.UpdateRexAccountFrame(RunRex(s2, 2).value, owner, 0);
  }

  lemma CloseMaturesNothing(s: State, owner: Name, n: Name, t: int, o: Claims)
    requires Inv(s, o) && CloseRex(s, owner).Some?
    ensures MaturedIn(CloseRex(s, owner).value.balances, n, t) <= MaturedIn(s.balances, n, t)
  {
    hide InvExcept, RunRex, UpdateRexAccount, HasLoans;
    MaturedNonNegative(s, n, t, o);
    if s.pool.Some? {
      MaintenanceMaturesNothing(s, 2, n, t, o);
      MaturedNonNegative(RunRex(s, 2).value, n, t, o);
    }
    RexActions.UpdateRexAccountFrame(if s.pool.Some? then RunRex(s, 2).value else s, owner, 0);
  }

  lemma UpdateMaturesNothing(s: State, owner: Name, n: Name, t: int, o: Claims)
    requires Inv(s, o) && UpdateRex(s, owner).Some? && s.Seconds() <= t
    ensures MaturedIn(UpdateRex(s, owner).value.balances, n, t) <= MaturedIn(s.balances, n, t)
  {
    hide InvExcept, RunRex, UpdateRexAccount, RexBalances.ProcessMaturities;
    MaintenanceMaturesNothing(s, 2, n, t, o);
    var s1 := RunRex(s, 2).value;
    RexActions.UpdateRexAccountFrame(s1, owner, 0);
    RexMaturities.ProcessSchedule(s1.balances[owner], s.Seconds(), t);
  }

  lemma ConsolidateMaturesNothing(s: State, owner: Name, n: Name, t: int, o: Claims)
    requires Inv(s, o) && Consolidate(s, owner).Some? && Early(s, t)
    ensures MaturedIn(Consolidate(s, owner).value.balances, n, t) <= MaturedIn(s.balances, n, t)
  {
    hide InvExcept, RunRex, UpdateRexAccount, RexBalances.Consolidate, RexBalances.Valid, Surplus, InSellOrder, RexBalances.RexMaturity;
    MaintenanceMaturesNothing(s, 2, n, t, o);
    var s1 := RunRex(s, 2).value;
    UpdateRexAccountKeeps(s1, owner, 0, o, {});
    RexActions.UpdateRexAccountFrame(s1, owner, 0);
    var s2 := UpdateRexAccount(s1, owner, 0);
    RexActions.InSellOrderCovered(s2, owner, o);
    RexActions.OwnerValid(s2, owner, o);
    MaturedNonNegative(s2, owner, t, o);
    RexMaturities.MaturityExists(s.Seconds());
    RexMaturities.ConsolidatedMatures(s2.balances[owner], InSellOrder(s2, owner), s.Seconds(), RexBalances.RexMaturity(s.Seconds()), t);
  }

  lemma ToSavingsMaturesNothing(s: State, owner: Name, rex: int, n: Name, t: int, o: Claims)
    requires Inv(s, o) && MoveToSavings(s, owner, rex).Some? && Early(s, t)
    ensures MaturedIn(MoveToSavings(s, owner, rex).value.balances, n, t) <= MaturedIn(s.balances, n, t)
  {
    hide InvExcept, RunRex, UpdateRexAccount, RexBalances.MoveToSavings, RexBalances.Valid, Surplus, InSellOrder;
    MaintenanceMaturesNothing(s, 2, n, t, o);
    var s1 := RunRex(s, 2).value;
    UpdateRexAccountKeeps(s1, owner, 0, o, {});
    RexActions.UpdateRexAccountFrame(s1, owner, 0);
    var s2 := UpdateRexAccount(s1, owner, 0);
    RexActions.InSellOrderCovered(s2, owner, o);
    RexActions.OwnerValid(s2, owner, o);
    RexMaturities.ToSavingsTakesLast(s2.balances[owner], rex, InSellOrder(s2, owner), s.Seconds(), t);
  }

  lemma FromSavingsMaturesNothing(s: State, owner: Name, rex: int, n: Name, t: int, o: Claims)
    requires Inv(s, o) && MoveFromSavings(s, owner, rex).Some? && Early(s, t)
    ensures MaturedIn(MoveFromSavings(s, owner, rex).value.balances, n, t) <= MaturedIn(s.balances, n, t)
  {
    hide InvExcept, RunRex, UpdateRexAccount, RexBalances.MoveFromSavings, RexBalances.RexMaturity;
    MaintenanceMaturesNothing(s, 2, n, t, o);
    var s1 := RunRex(s, 2).value;
    RexMaturities.MaturityExists(s.Seconds());
    RexMaturities.FromSavingsMatures(s1.balances[owner], rex, s.Seconds(), RexBalances.RexMaturity(s.Seconds()), t);
    RexActions.UpdateRexAccountFrame(s1.(balances := s1.balances[owner := RexBalances.MoveFromSavings(s1.balances[owner], rex, s.Seconds())]),
                                     owner, 0);
  }
}
