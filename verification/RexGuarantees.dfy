/** What REX users can rely on: withdrawals that are paid, REX that is conserved, and sell orders that are filled after
    thirty days at the latest. Module SystemGuarantees carries it over to whole runs of the contract. */
module RexGuarantees {
  import opened Tables
  import opened Resources
  import opened Rex
  import opened RexInvariants
  import opened RexActions
  import opened RexPrice
  import Bancor
  import RexReturns
  import RexBalances

  /** Before the first purchase of REX. */
  ghost predicate Initial(s: State, o: Claims) {
    && s.pool == None && Empty(s) && s.funds == map[] && 0 <= s.tokens
    && RexReturns.ValidTime(s.Seconds())
    && Resources.Granted(s.resources, o)
  }

  lemma InitialInv(s: State, o: Claims)
    requires Initial(s, o)
    ensures Inv(s, o) && Surplus(s) == s.tokens
  {
  }

  lemma ForgottenNonNegative(s: State, o: Claims)
    requires Inv(s, o)
    ensures 0 <= Forgotten(s.pool)
  {
    hide RexReturns.Valid, RexBalances.Valid, Ledger, ValidOrders, ValidLoans, ValidBalances, ExpireInTime;
  }

  lemma GainNonNegative(s: State, a: Action, o: Claims)
    requires Inv(s, o) && Step(s, a).Some?
    ensures 0 <= Gain(s, a)
  {
    hide InvExcept;
    ForgottenNonNegative(s, o);
  }

  /** A withdrawal succeeds exactly when the owner's fund and uncollected proceeds cover it. */
  lemma WithdrawalIsPaid(s: State, owner: Name, amount: int, o: Claims)
    requires Inv(s, o) && 0 <= Surplus(s) && 0 < amount
    ensures Withdraw(s, owner, amount).Some? <==>
            amount <= (if owner in s.funds then s.funds[owner] else 0) + ClosedProceeds(s, owner)
  {
    ProceedsNonNegative(s, owner, o);
    CollectedFund(s, owner, amount);
    hide InvExcept, Surplus, UpdateRexAccount, ClosedProceeds;
    var s1 := UpdateRexAccount(s, owner, 0);
    UpdateRexAccountKeeps(s, owner, 0, o, {});
    if owner in s1.funds && amount <= s1.funds[owner] {
      FromFundKeeps(s1, owner, amount, o, {});
      TokensCover(TransferFromFund(s1, owner, amount).value, amount, o);
    }
  }

  lemma CollectedFund(s: State, owner: Name, amount: int)
    requires 0 <= ClosedProceeds(s, owner) && 0 < amount
    ensures var s1 := UpdateRexAccount(s, owner, 0);
            owner in s1.funds && amount <= s1.funds[owner] <==>
            amount <= (if owner in s.funds then s.funds[owner] else 0) + ClosedProceeds(s, owner)
  {
  }

  lemma ProceedsNonNegative(s: State, owner: Name, o: Claims)
    requires Inv(s, o)
    ensures 0 <= ClosedProceeds(s, owner)
  {
    hide RexReturns.Valid, RexBalances.Valid, Ledger, ExpireInTime, Liabilities;
  }

  lemma TokensCover(s: State, amount: int, o: Claims)
    requires Inv(s, o) && amount <= Surplus(s)
    ensures amount <= s.tokens
  {
    hide RexReturns.Valid, RexBalances.Valid, Ledger, ExpireInTime;
    SumNonNegative<Name, int>(s.funds, FundOf());
    SumNonNegative<nat, Loan>(s.cpu, LoanBalanceOf());
    SumNonNegative<nat, Loan>(s.net, LoanBalanceOf());
    SumNonNegative<Name, Order>(s.orders, UncollectedOf());
    if s.retpool.Some? {
      RexReturns.ProceedsNonNegative(s.retpool.value, s.Seconds());
    }
  }

  // ----- thirty days -----

  ghost predicate SomeOrderOpen(orders: map<Name, Order>) {
    exists n :: n in orders && orders[n].isOpen
  }

  /** Only closing: each remaining loan was there before with the same stake and expiration. */
  ghost predicate NoNewLoans(loans: LoanTable, loans': LoanTable) {
    forall n | n in loans' ::
      n in loans && loans'[n].staked == loans[n].staked && loans'[n].expiration == loans[n].expiration
  }

  /** While an order waits, an expired loan is closed. */
  lemma ClosesWhileQueued(s: State, kind: Kind, n: nat, o: Claims)
    requires Inv(s, o) && s.pool.Some? && n in s.Loans(kind) && SomeOrderOpen(s.orders)
    ensures var r := ProcessExpiredLoan(s, kind, n);
            r.Some? ==>
              && r.value.cpu == s.WithLoans(kind, s.Loans(kind) - {n}).cpu
              && r.value.net == s.WithLoans(kind, s.Loans(kind) - {n}).net
              && r.value.orders == s.orders && r.value.now == s.now
              && r.value.pool.value.lent == s.pool.value.lent - s.Loans(kind)[n].staked
  {
    hide InvExcept, AdjustLoan, RenewLoan;
    var s1 := s.(pool := Some(RemoveLoanFromPool(s.pool.value, s.Loans(kind)[n].staked)));
    var m :| m in s.orders && s.orders[m].isOpen;
    assert !s1.LoansAvailable();
  }

  /** Loans that can only close, and everything they leave alone. */
  ghost predicate OnlyCloses(s: State, s': State, kind: Kind) {
    && s.pool.Some? && s'.pool.Some?
    && NoNewLoans(s.Loans(kind), s'.Loans(kind))
    && (kind == Cpu ==> s'.net == s.net) && (kind == Net ==> s'.cpu == s.cpu)
    && s'.orders == s.orders && s'.now == s.now
    && s'.pool.value.lent <= s.pool.value.lent
  }

  lemma OneCloses(s: State, kind: Kind, n: nat, o: Claims)
    requires Inv(s, o) && s.pool.Some? && n in s.Loans(kind) && SomeOrderOpen(s.orders)
    ensures var r := ProcessExpiredLoan(s, kind, n);
            r.Some? ==> OnlyCloses(s, r.value, kind) && r.value.Loans(kind) == s.Loans(kind) - {n}
  {
    hide InvExcept, ProcessExpiredLoan, Surplus, SomeOrderOpen;
    ClosesWhileQueued(s, kind, n, o);
    StakedInLoans(s, kind, n, o, {});
  }

  lemma ClosesTransitive(a: State, b: State, c: State, kind: Kind)
    requires OnlyCloses(a, b, kind) && OnlyCloses(b, c, kind)
    ensures OnlyCloses(a, c, kind)
  {
  }

  lemma {:induction false} LoansRunOff(s: State, kind: Kind, max: nat, o: Claims)
    requires Inv(s, o) && s.pool.Some? && SomeOrderOpen(s.orders)
    ensures var r := RunLoans(s, kind, max); r.Some? && OnlyCloses(s, r.value, kind)
    decreases max
  {
    hide InvExcept, ProcessExpiredLoan, Surplus, SomeOrderOpen;
    if 0 < max && HasExpired(s, kind) {
      var n := FirstLoan(s.Loans(kind));
      ProcessExpiredLoanKeeps(s, kind, n, o);
      OneCloses(s, kind, n, o);
      var s1 := ProcessExpiredLoan(s, kind, n).value;
      LoansRunOff(s1, kind, max - 1, o);
      ClosesTransitive(s, s1, RunLoans(s1, kind, max - 1).value, kind);
    }
  }

  ghost predicate AllExpired(loans: LoanTable, now: int) {
    forall n | n in loans :: loans[n].expiration <= now
  }

  /** Enough rounds close every loan that has expired. */
  lemma {:induction false} AllLoansClose(s: State, kind: Kind, max: nat, o: Claims)
    requires Inv(s, o) && s.pool.Some? && SomeOrderOpen(s.orders)
    requires AllExpired(s.Loans(kind), s.now) && |s.Loans(kind)| <= max
    ensures var r := RunLoans(s, kind, max); r.Some? && r.value.Loans(kind) == map[]
    decreases max
  {
    hide InvExcept, ProcessExpiredLoan, Surplus, SomeOrderOpen;
    if s.Loans(kind) != map[] {
      var n := FirstLoan(s.Loans(kind));
      ProcessExpiredLoanKeeps(s, kind, n, o);
      OneCloses(s, kind, n, o);
      var s1 := ProcessExpiredLoan(s, kind, n).value;
      assert |s.Loans(kind) - {n}| == |s.Loans(kind)| - 1;
      AllLoansClose(s1, kind, max - 1, o);
    }
  }

  /** With nothing lent, every queued order can be paid. */
  lemma FillsWhenNothingLent(s: State, owner: Name, o: Claims)
    requires Inv(s, o) && s.pool.Some? && s.pool.value.lent == 0
    requires owner in s.orders && s.orders[owner].isOpen
    ensures var r := FillQueued(s, owner);
            && r.Some? && r.value.pool.value.lent == 0
            && r.value.orders == s.orders[owner := r.value.orders[owner]] && !r.value.orders[owner].isOpen
            && r.value.cpu == s.cpu && r.value.net == s.net
  {
    hide InvExcept;
    QueuedIsBacked(s, owner, o);
    RexAtMostPool(s, owner, o, {});
    PoolRexNonNegative(s, o);
    Bancor.ShareOf(s.orders[owner].requested, s.pool.value.rex, s.pool.value.lendable);
  }

  lemma OneFewer(orders: map<Name, Order>, orders': map<Name, Order>, owner: Name)
    requires owner in orders && orders[owner].isOpen
    requires owner in orders' && orders' == orders[owner := orders'[owner]] && !orders'[owner].isOpen
    ensures OpenOrders(orders') == OpenOrders(orders) - {owner} && |OpenOrders(orders')| == |OpenOrders(orders)| - 1
    ensures orders'.Keys == orders.Keys
  {
  }

  lemma {:induction false} AllFilled(s: State, todo: set<Name>, max: nat, o: Claims)
    requires Inv(s, o) && s.pool.Some? && s.pool.value.lent == 0
    requires todo == OpenOrders(s.orders) && |todo| <= max
    ensures var r := FillOrders(s, todo, max);
            && r.Some? && r.value.pool.value.lent == 0 && r.value.orders.Keys == s.orders.Keys
            && !SomeOrderOpen(r.value.orders)
            && r.value.cpu == s.cpu && r.value.net == s.net
    decreases max
  {
    hide InvExcept, FillQueued, Surplus;
    if todo != {} {
      var owner := FirstOrder(s.orders, todo);
      FillsWhenNothingLent(s, owner, o);
      FillQueuedKeeps(s, owner, o);
      var s1 := FillQueued(s, owner).value;
      OneFewer(s.orders, s1.orders, owner);
      AllFilled(s1, todo - {owner}, max - 1, o);
    } else {
      assert forall n | n in s.orders :: n !in todo;
    }
  }

  /** While any sell order waits, nothing is rented out: an action that starts and ends with an order open creates
      no loan, renews no loan, and never raises what is lent. */
  lemma NothingLentWhileQueued(s: State, a: Action, o: Claims)
    requires Inv(s, o) && Step(s, a).Some? && s.pool.Some?
    requires SomeOrderOpen(s.orders) && SomeOrderOpen(Step(s, a).value.orders)
    ensures var s' := Step(s, a).value;
            && s'.pool.Some? && s'.pool.value.lent <= s.pool.value.lent
            && NoNewLoans(s.cpu, s'.cpu) && NoNewLoans(s.net, s'.net)
  {
    hide InvExcept, RunRex, UpdateRexAccount, Surplus, AddToReturnPool, HasLoans, TransferFromFund, TransferToFund,
         RexBalances.MoveToSavings, RexBalances.MoveFromSavings, RexBalances.Consolidate, SomeOrderOpen, Purchase,
         FillRexOrder, BuyRex, SellRex, Rent;
    match a
    case RentCall(kind, owner, receiver, payment, fund) => RentNeedsNoQueue(s, kind, owner, receiver, payment, fund);
    case BuyRexCall(owner, amount, votes) => BuyLendsNothing(s, owner, amount, votes, o);
    case SellRexCall(owner, rex) => SellLendsNothing(s, owner, rex, o);
    case RexExecCall(max) => MaintenanceLendsNothing(s, max, o);
    case UpdateRexCall(owner) => MaintenanceLendsNothing(s, 2, o); AccountFrame(RunRex(s, 2).value, owner, 0);
    case ConsolidateCall(owner) => MaintenanceLendsNothing(s, 2, o); AccountFrame(RunRex(s, 2).value, owner, 0);
    case MoveToSavingsCall(owner, rex) => MaintenanceLendsNothing(s, 2, o); AccountFrame(RunRex(s, 2).value, owner, 0);
    case MoveFromSavingsCall(owner, rex) =>
      MaintenanceLendsNothing(s, 2, o);
      MoveFromSavingsFrame(s, owner, rex);
    case CloseRexCall(owner) => MaintenanceLendsNothing(s, 2, o); AccountFrame(RunRex(s, 2).value, owner, 0);
    case ChannelFeeCall(amount) => AddToReturnPoolFrame(s, amount); FeesLendNothing(s, amount, o);
    case _ => QuietLoans(s, a);
  }

  lemma NoNewTransitive(a: LoanTable, b: LoanTable, c: LoanTable)
    requires NoNewLoans(a, b) && NoNewLoans(b, c)
    ensures NoNewLoans(a, c)
  {
  }

  /** The rest of the actions leave loans alone but for their balances. */
  lemma QuietLoans(s: State, a: Action)
    requires Step(s, a).Some? && s.pool.Some?
    requires a.DepositCall? || a.WithdrawCall? || a.CancelOrderCall? || a.FundLoanCall? || a.DefundLoanCall?
             || a.SetRexCall? || a.ChannelNamebidCall? || a.Donate? || a.Advance?
    ensures var s' := Step(s, a).value;
            && s'.pool.Some? && s'.pool.value.lent == s.pool.value.lent
            && NoNewLoans(s.cpu, s'.cpu) && NoNewLoans(s.net, s'.net)
  {
    hide UpdateRexAccount, TransferToFund, TransferFromFund, BuyRex, SellRex, Rent, RunRex, UpdateRex, Consolidate,
         MoveToSavings, MoveFromSavings, CloseRex, ChannelToRex, FundLoan, DefundLoan, NoNewLoans;
    SameLoans(s.cpu);
    SameLoans(s.net);
    match a
    case DepositCall(owner, amount) => ToFundFrame(s, owner, amount);
    case WithdrawCall(owner, amount) =>
      AccountFrame(s, owner, 0);
      FromFundFrame(UpdateRexAccount(s, owner, 0), owner, amount);
    case FundLoanCall(kind, owner, n, payment) => FundLoanFrame(s, kind, owner, n, payment);
    case DefundLoanCall(kind, owner, n, amount) => DefundLoanFrame(s, kind, owner, n, amount);
    case _ =>
  }

  lemma SameLoans(loans: LoanTable)
    ensures NoNewLoans(loans, loans)
  {
  }

  lemma FundLoanFrame(s: State, kind: Kind, from: Name, n: nat, payment: int)
    ensures var r := FundLoan(s, kind, from, n, payment);
            r.Some? ==> r.value.pool == s.pool && NoNewLoans(s.cpu, r.value.cpu) && NoNewLoans(s.net, r.value.net)
  {
    hide TransferFromFund;
    FromFundFrame(s, from, payment);
  }

  lemma DefundLoanFrame(s: State, kind: Kind, from: Name, n: nat, amount: int)
    ensures var r := DefundLoan(s, kind, from, n, amount);
            r.Some? ==> r.value.pool == s.pool && NoNewLoans(s.cpu, r.value.cpu) && NoNewLoans(s.net, r.value.net)
  {
    hide TransferToFund;
    var loans := s.Loans(kind);
    if n in loans {
      ToFundFrame(s.WithLoans(kind, loans[n := loans[n].(balance := loans[n].balance - amount)]), from, amount);
    }
  }

  lemma AccountFrame(s: State, owner: Name, proceeds: int)
    ensures var s' := UpdateRexAccount(s, owner, proceeds);
            s'.pool == s.pool && s'.cpu == s.cpu && s'.net == s.net && s'.balances == s.balances
  {
    UpdateRexAccountFrame(s, owner, proceeds);
  }

  lemma MoveFromSavingsFrame(s: State, owner: Name, rex: int)
    ensures var r := MoveFromSavings(s, owner, rex);
            r.Some? ==> (var s1 := RunRex(s, 2).value;
                         r.value.pool == s1.pool && r.value.cpu == s1.cpu && r.value.net == s1.net)
  {
    hide RunRex, RexBalances.MoveFromSavings;
  }

  lemma FeesLendNothing(s: State, fee: int, o: Claims)
    requires Inv(s, o) && s.pool.Some?
    ensures var s' := AddToReturnPool(s, fee); s'.pool.Some? && s'.pool.value.lent == s.pool.value.lent
    ensures var s' := UpdateRexPool(s); s'.pool.Some? && s'.pool.value.lent == s.pool.value.lent
  {
    hide RexReturns.Valid, RexBalances.Valid, Ledger, ValidOrders, ValidLoans, ValidBalances, ExpireInTime, AddToReturnPool, UpdateRexPool;
    AddToReturnPoolMoves(s, fee);
    UpdateRexPoolMoves(s);
  }

  lemma CollectLendsNothing(s: State, o: Claims)
    requires Inv(s, o) && s.pool.Some?
    ensures var s' := CollectNamebids(UpdateRexPool(s));
            && s' == s.(pool := s'.pool, retpool := s'.retpool, tokens := s'.tokens)
            && s'.pool.Some? && s'.pool.value.lent == s.pool.value.lent
  {
    hide InvExcept, AddToReturnPool, UpdateRexPool, Surplus;
    FeesLendNothing(s, 0, o);
    UpdateRexPoolKeeps(s, o, {});
    var s1 := UpdateRexPool(s);
    FeesLendNothing(s1, s1.pool.value.namebid, o);
    CollectNamebidsFrame(s);
  }

  lemma {:induction false} FillOrdersLendNothing(s: State, todo: set<Name>, max: nat)
    requires s.pool.Some? && todo <= s.orders.Keys
    ensures var r := FillOrders(s, todo, max);
            r.Some? ==> r.value.pool.value.lent == s.pool.value.lent
    decreases max
  {
    hide FillRexOrder;
    if 0 < max && todo != {} {
      var owner := FirstOrder(s.orders, todo);
      if owner in s.balances { FillLendsNothing(s, owner, s.orders[owner].requested); }
      var r := FillQueued(s, owner);
      if r.Some? {
        FillOrdersLendNothing(r.value, todo - {owner}, max - 1);
      }
    }
  }

  lemma FillLendsNothing(s: State, owner: Name, rex: int)
    requires s.pool.Some? && owner in s.balances
    ensures var r := FillRexOrder(s, owner, rex);
            r.Some? ==> && r.value.state == s.(pool := r.value.state.pool, balances := r.value.state.balances)
                        && r.value.state.pool.Some? && r.value.state.pool.value.lent == s.pool.value.lent
  {
  }

  lemma MaintenanceLendsNothing(s: State, max: nat, o: Claims)
    requires Inv(s, o) && s.pool.Some? && SomeOrderOpen(s.orders)
    ensures var r := RunRex(s, max);
            && r.Some? && r.value.pool.value.lent <= s.pool.value.lent
            && NoNewLoans(s.cpu, r.value.cpu) && NoNewLoans(s.net, r.value.net)
  {
    hide InvExcept, RunLoans, FillOrders, UpdateRexPool, CollectNamebids, Surplus, SomeOrderOpen;
    CollectLendsNothing(s, o);
    UpdateRexPoolKeeps(s, o, {});
    CollectNamebidsKeeps(UpdateRexPool(s), o, {});
    var s1 := CollectNamebids(UpdateRexPool(s));
    RunLoansKeeps(s1, Cpu, max, o);
    LoansRunOff(s1, Cpu, max, o);
    var s2 := RunLoans(s1, Cpu, max).value;
    RunLoansKeeps(s2, Net, max, o);
    LoansRunOff(s2, Net, max, o);
    var s3 := RunLoans(s2, Net, max).value;
    FillOrdersKeeps(s3, OpenOrders(s3.orders), max, o);
    FillOrdersFrame(s3, OpenOrders(s3.orders), max);
    FillOrdersLendNothing(s3, OpenOrders(s3.orders), max);
  }

  /** Renting succeeds only when no order is left waiting. */
  lemma RentNeedsNoQueue(s: State, kind: Kind, from: Name, receiver: Name, payment: int, fund: int)
    ensures var r := Rent(s, kind, from, receiver, payment, fund); r.Some? ==> !SomeOrderOpen(r.value.orders)
  {
    hide RunRex, AddToReturnPool, AdjustLoan, Rented;
    var r := Rent(s, kind, from, receiver, payment, fund);
    if r.Some? {
      var s1 := RunRex(s, 2).value;
      FromFundFrame(s1, from, payment + fund);
      AddToReturnPoolFrame(TransferFromFund(s1, from, payment + fund).value, payment);
      assert r.value.orders == s1.orders;
    }
  }

  lemma BuyLendsNothing(s: State, owner: Name, amount: int, votes: bool, o: Claims)
    requires Inv(s, o) && s.pool.Some? && BuyRex(s, owner, amount, votes).Some? && SomeOrderOpen(s.orders)
    ensures var s' := BuyRex(s, owner, amount, votes).value;
            && s'.pool.Some? && s'.pool.value.lent <= s.pool.value.lent
            && NoNewLoans(s.cpu, s'.cpu) && NoNewLoans(s.net, s'.net)
  {
    hide InvExcept, RunRex, UpdateRexAccount, Surplus, TransferFromFund, SomeOrderOpen, RexBalances.Buy;
    FromFundKeeps(s, owner, amount, o, {});
    FromFundFrame(s, owner, amount);
    var s1 := TransferFromFund(s, owner, amount).value;
    PurchaseKeeps(s1, owner, amount, o);
    PoolRexNonNegative(s1, o);
    BoughtValid(s1.pool, amount);
    var s2 := Purchase(s1, owner, amount).value;
    MaintenanceLendsNothing(s2, 2, o);
    AccountFrame(RunRex(s2, 2).value, owner, 0);
  }

  /** unstaketorex lends nothing either. */
  lemma BuyWithStakeLendsNothing(s: State, owner: Name, receiver: Name, net: int, cpu: int, votes: bool, o: Claims, o': Claims)
    requires Inv(s, o) && Lowered(o, o', receiver, net, cpu) && s.pool.Some? && SomeOrderOpen(s.orders)
    requires BuyWithStake(s, owner, receiver, net, cpu, votes).Some?
    ensures var s' := BuyWithStake(s, owner, receiver, net, cpu, votes).value;
            && s'.pool.Some? && s'.pool.value.lent <= s.pool.value.lent
            && NoNewLoans(s.cpu, s'.cpu) && NoNewLoans(s.net, s'.net)
  {
    hide InvExcept, RunRex, UpdateRexAccount, Surplus, Adjust, Lowered, SomeOrderOpen, RexBalances.Buy;
    LowerClaims(s, receiver, net, cpu, o, o');
    var s0 := s.(resources := Adjust(s.resources, receiver, -net, -cpu).value);
    TokensKeep(s0, s0.tokens + net + cpu, o');
    var s1 := s0.(tokens := s.tokens + net + cpu);
    PurchaseKeeps(s1, owner, net + cpu, o');
    PoolRexNonNegative(s1, o');
    BoughtValid(s1.pool, net + cpu);
    var s2 := Purchase(s1, owner, net + cpu).value;
    MaintenanceLendsNothing(s2, 2, o');
    AccountFrame(RunRex(s2, 2).value, owner, 0);
  }

  lemma SellLendsNothing(s: State, from: Name, rex: int, o: Claims)
    requires Inv(s, o) && s.pool.Some? && SellRex(s, from, rex).Some? && SomeOrderOpen(s.orders)
    ensures var s' := SellRex(s, from, rex).value;
            && s'.pool.Some? && s'.pool.value.lent <= s.pool.value.lent
            && NoNewLoans(s.cpu, s'.cpu) && NoNewLoans(s.net, s'.net)
  {
    hide InvExcept, RunRex, FillRexOrder, UpdateRexAccount, Enqueue, Surplus, SomeOrderOpen, RexBalances.ProcessMaturities;
    MaintenanceLendsNothing(s, 2, o);
    var s1 := RunRex(s, 2).value;
    var s2 := s1.(balances := s1.balances[from := RexBalances.ProcessMaturities(s1.balances[from], s1.Seconds())]);
    FillLendsNothing(s2, from, rex);
    var fill := FillRexOrder(s2, from, rex).value;
    AccountFrame(fill.state, from, fill.proceeds);
  }

  lemma OrdersNeedPool(s: State, owner: Name, o: Claims)
    requires Inv(s, o) && owner in s.orders && s.orders[owner].isOpen
    ensures s.pool.Some?
  {
    hide RexReturns.Valid, RexBalances.Valid, Ledger, ExpireInTime, Liabilities, Summarises;
  }

  /** Thirty days after an order was queued, maintenance that covers the loans and orders there are gets every lent token
      back and fills every waiting order. It cannot be blocked. */
  lemma QueueClears(s: State, max: nat, queued: Name, o: Claims)
    requires Inv(s, o) && s.pool.Some?
    requires queued in s.orders && s.orders[queued].isOpen && s.orders[queued].time + THIRTY_DAYS <= s.now
    requires |s.cpu| <= max && |s.net| <= max && |OpenOrders(s.orders)| <= max
    ensures var r := RunRex(s, max);
            && r.Some? && r.value.pool.value.lent == 0
            && r.value.cpu == map[] && r.value.net == map[]
            && r.value.orders.Keys == s.orders.Keys && !SomeOrderOpen(r.value.orders)
  {
    hide InvExcept, RunLoans, FillOrders, UpdateRexPool, CollectNamebids, Surplus;
    EveryLoanExpired(s, queued, o);
    CollectLendsNothing(s, o);
    UpdateRexPoolKeeps(s, o, {});
    CollectNamebidsKeeps(UpdateRexPool(s), o, {});
    var s1 := CollectNamebids(UpdateRexPool(s));
    assert SomeOrderOpen(s1.orders);
    RunLoansKeeps(s1, Cpu, max, o);
    LoansRunOff(s1, Cpu, max, o);
    AllLoansClose(s1, Cpu, max, o);
    var s2 := RunLoans(s1, Cpu, max).value;
    RunLoansKeeps(s2, Net, max, o);
    LoansRunOff(s2, Net, max, o);
    AllLoansClose(s2, Net, max, o);
    var s3 := RunLoans(s2, Net, max).value;
    NoLoansNothingLent(s3, o);
    AllFilled(s3, OpenOrders(s3.orders), max, o);
  }

  lemma EveryLoanExpired(s: State, queued: Name, o: Claims)
    requires Inv(s, o) && queued in s.orders && s.orders[queued].isOpen && s.orders[queued].time + THIRTY_DAYS <= s.now
    ensures AllExpired(s.cpu, s.now) && AllExpired(s.net, s.now)
  {
    hide RexReturns.Valid, RexBalances.Valid, Ledger, ValidOrders, ValidLoans, ValidBalances, ValidPool;
  }

  lemma NoLoansNothingLent(s: State, o: Claims)
    requires Inv(s, o) && s.pool.Some? && s.cpu == map[] && s.net == map[]
    ensures s.pool.value.lent == 0
  {
    hide RexReturns.Valid, RexBalances.Valid, Ledger, ValidOrders, ValidLoans, ValidBalances, ValidPool, ExpireInTime;
  }

  /** Only the passing of time changes the clock. */
  lemma StepTakesNoTime(s: State, a: Action)
    requires Step(s, a).Some? && !a.Advance?
    ensures Step(s, a).value.now == s.now
  {
    hide RunRex, UpdateRexAccount, AddToReturnPool, AdjustLoan, FillRexOrder, Purchase, TransferToFund, TransferFromFund, HasLoans,
         Rented, RexBalances.MoveToSavings, RexBalances.MoveFromSavings, RexBalances.Consolidate, SellMatured, GrantLoan,
         BuyRex, FundLoan, DefundLoan, Withdraw, MoveToSavings, MoveFromSavings, Consolidate, CloseRex, UpdateRex;
    RunRexFrame(s, 2);
    match a
    case BuyRexCall(owner, amount, votes) => BuyTakesNoTime(s, owner, amount, votes);
    case SellRexCall(owner, rex) => SellTakesNoTime(RunRex(s, 2).value, owner, rex);
    case RentCall(kind, owner, receiver, payment, fund) => GrantTakesNoTime(RunRex(s, 2).value, kind, owner, receiver, payment, fund);
    case RexExecCall(max) => RunRexFrame(s, max);
    case DepositCall(owner, amount) => ToFundFrame(s, owner, amount);
    case WithdrawCall(owner, amount) => WithdrawTakesNoTime(s, owner, amount);
    case ChannelFeeCall(amount) => if s.Available() { AddToReturnPoolFrame(s, amount); }
    case FundLoanCall(kind, owner, n, payment) => LoanFundsTakeNoTime(s, kind, owner, n, payment);
    case DefundLoanCall(kind, owner, n, payment) => LoanFundsTakeNoTime(s, kind, owner, n, payment);
    case UpdateRexCall(owner) => OwnerTakesNoTime(s, owner, 0);
    case ConsolidateCall(owner) => OwnerTakesNoTime(s, owner, 0);
    case MoveToSavingsCall(owner, rex) => OwnerTakesNoTime(s, owner, rex);
    case MoveFromSavingsCall(owner, rex) => OwnerTakesNoTime(s, owner, rex);
    case CloseRexCall(owner) => OwnerTakesNoTime(s, owner, 0);
    case _ =>
  }

  lemma BuyTakesNoTime(s: State, owner: Name, amount: int, votes: bool)
    ensures var r := BuyRex(s, owner, amount, votes); r.Some? ==> r.value.now == s.now
  {
    hide RunRex, UpdateRexAccount, TransferFromFund, AddToRexPool, RexBalances.Buy;
    if BuyRex(s, owner, amount, votes).Some? {
      FromFundFrame(s, owner, amount);
      var s2 := Purchase(TransferFromFund(s, owner, amount).value, owner, amount).value;
      RunRexFrame(s2, 2);
      UpdateRexAccountFrame(RunRex(s2, 2).value, owner, 0);
    }
  }

  lemma BuyWithStakeTakesNoTime(s: State, owner: Name, receiver: Name, net: int, cpu: int, votes: bool)
    ensures var r := BuyWithStake(s, owner, receiver, net, cpu, votes); r.Some? ==> r.value.now == s.now
  {
    hide RunRex, UpdateRexAccount, Adjust, AddToRexPool, RexBalances.Buy;
    if BuyWithStake(s, owner, receiver, net, cpu, votes).Some? {
      var s1 := s.(resources := Adjust(s.resources, receiver, -net, -cpu).value, tokens := s.tokens + net + cpu);
      var s2 := Purchase(s1, owner, net + cpu).value;
      RunRexFrame(s2, 2);
      UpdateRexAccountFrame(RunRex(s2, 2).value, owner, 0);
    }
  }

  lemma SellTakesNoTime(s: State, from: Name, rex: int)
    requires s.pool.Some?
    ensures var r := SellMatured(s, from, rex); r.Some? ==> r.value.now == s.now
  {
    hide FillRexOrder, UpdateRexAccount, Enqueue, RexBalances.ProcessMaturities, InSellOrder;
    if SellMatured(s, from, rex).Some? {
      var s2 := s.(balances := s.balances[from := RexBalances.ProcessMaturities(s.balances[from], s.Seconds())]);
      FillLendsNothing(s2, from, rex);
      var fill := FillRexOrder(s2, from, rex).value;
      UpdateRexAccountFrame(fill.state, from, fill.proceeds);
    }
  }

  lemma GrantTakesNoTime(s: State, kind: Kind, from: Name, receiver: Name, payment: int, fund: int)
    requires s.pool.Some?
    ensures var r := GrantLoan(s, kind, from, receiver, payment, fund); r.Some? ==> r.value.now == s.now
  {
    hide AddToReturnPool, AdjustLoan, Rented, TransferFromFund;
    if GrantLoan(s, kind, from, receiver, payment, fund).Some? {
      FromFundFrame(s, from, payment + fund);
      AddToReturnPoolFrame(TransferFromFund(s, from, payment + fund).value, payment);
    }
  }

  lemma WithdrawTakesNoTime(s: State, owner: Name, amount: int)
    ensures var r := Withdraw(s, owner, amount); r.Some? ==> r.value.now == s.now
  {
    hide UpdateRexAccount, TransferFromFund;
    UpdateRexAccountFrame(s, owner, 0);
    FromFundFrame(UpdateRexAccount(s, owner, 0), owner, amount);
  }

  lemma LoanFundsTakeNoTime(s: State, kind: Kind, owner: Name, n: nat, amount: int)
    ensures var r := FundLoan(s, kind, owner, n, amount); r.Some? ==> r.value.now == s.now
    ensures var r := DefundLoan(s, kind, owner, n, amount); r.Some? ==> r.value.now == s.now
  {
    hide TransferFromFund, TransferToFund;
    FromFundFrame(s, owner, amount);
    var loans := s.Loans(kind);
    if n in loans {
      ToFundFrame(s.WithLoans(kind, loans[n := loans[n].(balance := loans[n].balance - amount)]), owner, amount);
    }
  }

  lemma OwnerTakesNoTime(s: State, owner: Name, rex: int)
    ensures var r := UpdateRex(s, owner); r.Some? ==> r.value.now == s.now
    ensures var r := Consolidate(s, owner); r.Some? ==> r.value.now == s.now
    ensures var r := MoveToSavings(s, owner, rex); r.Some? ==> r.value.now == s.now
    ensures var r := MoveFromSavings(s, owner, rex); r.Some? ==> r.value.now == s.now
    ensures var r := CloseRex(s, owner); r.Some? ==> r.value.now == s.now
  {
    hide RunRex, UpdateRexAccount, HasLoans, RexBalances.MoveToSavings, RexBalances.MoveFromSavings, RexBalances.Consolidate,
         RexBalances.ProcessMaturities;
    RunRexFrame(s, 2);
    var s1 := if RunRex(s, 2).Some? then RunRex(s, 2).value else s;
    UpdateRexAccountFrame(s1, owner, 0);
    UpdateRexAccountFrame(s, owner, 0);
    if MoveFromSavings(s, owner, rex).Some? {
      UpdateRexAccountFrame(s1.(balances := s1.balances[owner := RexBalances.MoveFromSavings(s1.balances[owner], rex, s.Seconds())]), owner, 0);
    }
  }

  // ----- each owner's REX -----

  /** All of an owner's REX is accounted for, in at most six ordered buckets, and an open sell order is covered by matured
      REX. */
  lemma OwnerConserved(s: State, owner: Name, o: Claims)
    requires Inv(s, o) && owner in s.balances
    ensures var b := s.balances[owner];
            && b.rex == b.matured + RexBalances.Total(b.maturities)
            && |b.maturities| <= 6 && RexBalances.Sorted(b.maturities)
            && 0 <= InSellOrder(s, owner) <= b.matured
  {
    OwnerValid(s, owner, o);
    InSellOrderCovered(s, owner, o);
    RexBalances.AtMostSix(s.balances[owner], s.Seconds());
  }
}
