/** Every REX action keeps the invariant, and the tokens eosio.rex holds beyond what it owes change only
    where an action says so. */
module RexActions {
  import opened Tables
  import opened Resources
  import opened Rex
  import opened RexInvariants
  import Bancor
  import RexReturns
  import RexBalances

  // ----- buying -----

  /** Fees released while no REX existed; a restart of the empty pool forgets them. */
  function Forgotten(pool: Option<Pool>): int {
    if pool.Some? && pool.value.rex <= 0 then pool.value.lendable else 0
  }

  /** Buying never aborts on a valid pool: both pool checks are dead. */
  lemma BoughtValid(pool: Option<Pool>, payment: int)
    requires pool.Some? ==> ValidPool(pool.value)
    requires 0 < payment
    ensures var r := AddToRexPool(pool, payment);
            && r.Some? && ValidPool(r.value.pool) && 0 <= r.value.received
            && (pool.None? ==> r.value.pool.rex == r.value.received && r.value.pool.lent == 0)
            && (pool.Some? ==>
                  && r.value.pool.rex == pool.value.rex + r.value.received
                  && r.value.pool.lent == pool.value.lent
                  && r.value.pool.loanNum == pool.value.loanNum)
            && r.value.pool.lendable == payment + (if pool.Some? then pool.value.lendable else 0) - Forgotten(pool)
  {
    if pool.Some? && 0 < pool.value.rex {
      var p := pool.value;
      Bancor.Scaled(p.lendable, p.lendable + payment, p.rex);
      Bancor.Commutes(p.lendable, p.rex);
      Bancor.QuotientAtLeast((p.lendable + payment) * p.rex, p.lendable, p.rex);
    }
  }

  lemma NewBalanceValid(seconds: int)
    ensures RexBalances.Valid(RexBalances.Balance(0, 0, []), seconds)
  {
  }

  lemma PurchaseKeeps(s: State, owner: Name, payment: int, o: Claims)
    requires Inv(s, o) && 0 < payment
    ensures var r := Purchase(s, owner, payment);
            && r.Some? && Inv(r.value, o) && r.value.pool.Some?
            && Surplus(r.value) == Surplus(s) - payment + Forgotten(s.pool)
            && r.value.pool.value.rex >= (if s.pool.Some? then s.pool.value.rex else 0)
  {
    hide RexReturns.Valid, RexBalances.Valid, RexBalances.Buy, Ledger, ValidPool, AddToRexPool;
    BoughtValid(s.pool, payment);
    var received := AddToRexPool(s.pool, payment).value.received;
    var b := BalanceOrNew(s.balances, owner);
    NewBalanceValid(s.Seconds());
    RexBalances.BuyValid(b, received, s.Seconds());
    SumPut<Name, RexBalances.Balance>(s.balances, owner, RexBalances.Buy(b, received, s.Seconds()), RexOf());
  }

  lemma BuyRexKeeps(s: State, from: Name, amount: int, votes: bool, o: Claims)
    requires Inv(s, o)
    ensures var r := BuyRex(s, from, amount, votes);
            r.Some? ==> Inv(r.value, o) && Surplus(r.value) == Surplus(s) + Forgotten(s.pool)
  {
    hide InvExcept, Surplus, Purchase, RunRex, UpdateRexAccount;
    if BuyRex(s, from, amount, votes).Some? {
      FromFundKeeps(s, from, amount, o, {});
      var s1 := TransferFromFund(s, from, amount).value;
      PurchaseKeeps(s1, from, amount, o);
      var s2 := Purchase(s1, from, amount).value;
      RunRexKeeps(s2, 2, o);
      UpdateRexAccountKeeps(RunRex(s2, 2).value, from, 0, o, {});
    }
  }

  /** Claims once a delegation to `receiver` has been lowered. */
  ghost predicate Lowered(o: Claims, o': Claims, receiver: Name, net: int, cpu: int) {
    forall a: Name ::
      && o'.net(a) == o.net(a) - (if a == receiver then net else 0) && 0 <= o'.net(a)
      && o'.cpu(a) == o.cpu(a) - (if a == receiver then cpu else 0) && 0 <= o'.cpu(a)
      && o'.ram(a) == o.ram(a)
  }

  lemma LedgerLowered(s: State, receiver: Name, net: int, cpu: int, o: Claims, o': Claims)
    requires Ledger(s.resources, s.cpu, s.net, o) && Lowered(o, o', receiver, net, cpu)
    requires NonNegativeStakes(s.cpu) && NonNegativeStakes(s.net)
    ensures var res := Adjust(s.resources, receiver, -net, -cpu);
            res.Some? && Ledger(res.value, s.cpu, s.net, o')
  {
    hide Adjust;
    AdjustMeaning(s.resources, receiver, -net, -cpu);
    SumNonNegative<nat, Loan>(s.cpu, StakedTo(receiver));
    SumNonNegative<nat, Loan>(s.net, StakedTo(receiver));
  }

  /** Taking back what another subsystem granted never aborts. */
  lemma LowerClaims(s: State, receiver: Name, net: int, cpu: int, o: Claims, o': Claims)
    requires Inv(s, o) && Lowered(o, o', receiver, net, cpu)
    ensures var res := Adjust(s.resources, receiver, -net, -cpu);
            res.Some? && Inv(s.(resources := res.value), o') && Surplus(s.(resources := res.value)) == Surplus(s)
  {
    hide RexReturns.Valid, RexBalances.Valid, ValidPool, ValidBalances, ValidOrders, ExpireInTime, Ledger, Adjust, Lowered;
    assert NonNegativeStakes(s.cpu) && NonNegativeStakes(s.net);
    LedgerLowered(s, receiver, net, cpu, o, o');
  }

  lemma BuyWithStakeKeeps(s: State, owner: Name, receiver: Name, net: int, cpu: int, votes: bool, o: Claims, o': Claims)
    requires Inv(s, o) && Lowered(o, o', receiver, net, cpu)
    ensures var r := BuyWithStake(s, owner, receiver, net, cpu, votes);
            r.Some? ==> Inv(r.value, o') && Surplus(r.value) == Surplus(s) + Forgotten(s.pool)
  {
    hide InvExcept, Purchase, RunRex, UpdateRexAccount, Adjust, Liabilities;
    if BuyWithStake(s, owner, receiver, net, cpu, votes).Some? {
      LowerClaims(s, receiver, net, cpu, o, o');
      var s0 := s.(resources := Adjust(s.resources, receiver, -net, -cpu).value);
      TokensKeep(s0, s0.tokens + net + cpu, o');
      var s1 := s0.(tokens := s.tokens + net + cpu);
      PurchaseKeeps(s1, owner, net + cpu, o');
      var s2 := Purchase(s1, owner, net + cpu).value;
      RunRexKeeps(s2, 2, o');
      UpdateRexAccountKeeps(RunRex(s2, 2).value, owner, 0, o', {});
    }
  }

  lemma TokensKeep(s: State, tokens: int, o: Claims)
    requires Inv(s, o)
    ensures Inv(s.(tokens := tokens), o) && Surplus(s.(tokens := tokens)) == Surplus(s) + tokens - s.tokens
  {
    hide RexReturns.Valid, RexBalances.Valid, ValidPool, ValidBalances, ValidOrders, ExpireInTime, Ledger, ValidLoans;
  }

  // ----- deposits and withdrawals -----

  lemma DepositKeeps(s: State, owner: Name, amount: int, o: Claims)
    requires Inv(s, o)
    ensures var r := Deposit(s, owner, amount);
            r.Some? ==> Inv(r.value, o) && Surplus(r.value) == Surplus(s)
  {
    hide InvExcept, Liabilities, TransferToFund;
    if Deposit(s, owner, amount).Some? {
      PositiveTransfer(s, owner, amount);
      ToFundKeeps(s, owner, amount, o, {});
      var s1 := TransferToFund(s, owner, amount).value;
      TokensKeep(s1, s1.tokens + amount, o);
    }
  }

  lemma PositiveTransfer(s: State, owner: Name, amount: int)
    ensures TransferToFund(s, owner, amount).Some? <==> 0 < amount
  {
  }

  lemma WithdrawKeeps(s: State, owner: Name, amount: int, o: Claims)
    requires Inv(s, o)
    ensures var r := Withdraw(s, owner, amount);
            r.Some? ==> Inv(r.value, o) && Surplus(r.value) == Surplus(s)
  {
    hide InvExcept, Liabilities, TransferFromFund, UpdateRexAccount;
    if Withdraw(s, owner, amount).Some? {
      UpdateRexAccountKeeps(s, owner, 0, o, {});
      var s1 := UpdateRexAccount(s, owner, 0);
      FromFundKeeps(s1, owner, amount, o, {});
      var s2 := TransferFromFund(s1, owner, amount).value;
      TokensKeep(s2, s2.tokens - amount, o);
    }
  }

  // ----- selling -----

  lemma ProcessOwnerKeeps(s: State, owner: Name, o: Claims)
    requires Inv(s, o) && owner in s.balances
    ensures var s' := s.(balances := s.balances[owner := RexBalances.ProcessMaturities(s.balances[owner], s.Seconds())]);
            Inv(s', o) && Surplus(s') == Surplus(s)
  {
    var b := s.balances[owner];
    RexBalances.ProcessValid(b, s.Seconds());
    ReplaceBalanceKeeps(s, owner, RexBalances.ProcessMaturities(b, s.Seconds()), o);
  }

  /** Rearranging an owner's REX keeps everything if the open sell order stays covered. */
  lemma ReplaceBalanceKeeps(s: State, owner: Name, b: RexBalances.Balance, o: Claims)
    requires Inv(s, o) && owner in s.balances
    requires RexBalances.Valid(b, s.Seconds()) && b.rex == s.balances[owner].rex
    requires InSellOrder(s, owner) <= b.matured
    ensures Inv(s.(balances := s.balances[owner := b]), o)
    ensures Surplus(s.(balances := s.balances[owner := b])) == Surplus(s)
  {
    hide RexReturns.Valid, RexBalances.Valid, ValidPool, ExpireInTime, Ledger, ValidLoans;
    SumPut<Name, RexBalances.Balance>(s.balances, owner, b, RexOf());
  }

  lemma InSellOrderCovered(s: State, owner: Name, o: Claims)
    requires Inv(s, o) && owner in s.balances
    ensures 0 <= InSellOrder(s, owner) <= s.balances[owner].matured
  {
    hide RexReturns.Valid, ValidPool, ExpireInTime, Ledger, ValidLoans;
  }

  /** Queueing a sell order while no loan can outlive it by more than thirty days. */
  lemma EnqueueKeeps(s: State, owner: Name, rex: int, o: Claims)
    requires InvExcept(s, o, {owner}) && 0 < rex && owner in s.balances
    requires owner in s.orders ==> s.orders[owner].isOpen && 0 <= s.orders[owner].requested
    requires InSellOrder(s.(orders := Enqueue(s.orders, owner, rex, s.now)), owner) <= s.balances[owner].matured
    ensures var s' := s.(orders := Enqueue(s.orders, owner, rex, s.now));
            Inv(s', o) && Surplus(s') == Surplus(s)
  {
    hide RexReturns.Valid, RexBalances.Valid, ValidPool, Ledger;
    var s' := s.(orders := Enqueue(s.orders, owner, rex, s.now));
    SumPut<Name, Order>(s.orders, owner, s'.orders[owner], UncollectedOf());
  }

  /** With its open order covered again, an owner is back in step. */
  lemma CoveredAgain(s: State, owner: Name, o: Claims)
    requires InvExcept(s, o, {owner})
    requires owner in s.balances && InSellOrder(s, owner) <= s.balances[owner].matured
    requires owner in s.orders ==> s.orders[owner].isOpen ==> 0 < s.orders[owner].requested
    ensures Inv(s, o)
  {
    hide RexReturns.Valid, RexBalances.Valid, ValidPool, Ledger, ExpireInTime, ValidLoans;
  }

  lemma OpenRequestPositive(s: State, owner: Name, o: Claims)
    requires Inv(s, o)
    ensures owner in s.orders && s.orders[owner].isOpen ==> 0 < s.orders[owner].requested
  {
    hide RexReturns.Valid, RexBalances.Valid, ValidPool, Ledger, ExpireInTime, ValidLoans;
  }

  lemma UpdateRexAccountFrame(s: State, owner: Name, proceeds: int)
    ensures var s' := UpdateRexAccount(s, owner, proceeds);
            && s' == s.(orders := s'.orders, funds := s'.funds)
            && s'.orders == (if owner in s.orders && !s.orders[owner].isOpen then s.orders - {owner} else s.orders)
  {
  }

  lemma SellRexKeeps(s: State, from: Name, rex: int, o: Claims)
    requires Inv(s, o)
    ensures var r := SellRex(s, from, rex);
            r.Some? ==> Inv(r.value, o) && Surplus(r.value) == Surplus(s)
  {
    hide InvExcept, Surplus, RunRex, UpdateRexAccount, FillRexOrder, Enqueue, InSellOrder;
    if SellRex(s, from, rex).Some? {
      RunRexKeeps(s, 2, o);
      var s1 := RunRex(s, 2).value;
      ProcessOwnerKeeps(s1, from, o);
      var s2 := s1.(balances := s1.balances[from := RexBalances.ProcessMaturities(s1.balances[from], s1.Seconds())]);
      OpenRequestPositive(s2, from, o);
      FillKeeps(s2, from, rex, o, {});
      var fill := FillRexOrder(s2, from, rex).value;
      assert {} + {from} == {from};
      RunRexFrame(s, 2);
      UpdateRexAccountKeeps(fill.state, from, fill.proceeds, o, {from});
      UpdateRexAccountFrame(fill.state, from, fill.proceeds);
      var s3 := UpdateRexAccount(fill.state, from, fill.proceeds);
      if fill.success {
        CoveredAgain(s3, from, o);
      } else {
        EnqueueKeeps(s3, from, rex, o);
      }
    }
  }

  lemma CancelOrderKeeps(s: State, owner: Name, o: Claims)
    requires Inv(s, o)
    ensures var r := CancelOrder(s, owner);
            r.Some? ==> Inv(r.value, o) && Surplus(r.value) == Surplus(s)
  {
    hide RexReturns.Valid, RexBalances.Valid, ValidPool, Ledger;
    if owner in s.orders {
      SumRemove<Name, Order>(s.orders, owner, UncollectedOf());
    }
  }

  // ----- loans -----

  lemma NewLoanKeeps(s: State, kind: Kind, n: nat, loan: Loan, s': State, o: Claims)
    requires Inv(s, o) && s.pool.Some? && n !in s.Loans(kind)
    requires ValidLoan(loan, s.now) && s.LoansAvailable() && n == s.pool.value.loanNum + 1
    requires s' == s.WithLoans(kind, s.Loans(kind)[n := loan]).(pool := s'.pool, retpool := s'.retpool, resources := s'.resources)
    requires Some(s'.resources) == AdjustLoan(s.resources, loan.receiver, kind, loan.staked)
    requires s'.pool.Some? && ValidPool(s'.pool.value) && ValidReturns(s')
    requires s'.pool.value.rex == s.pool.value.rex && s'.pool.value.loanNum == n
    requires s'.pool.value.lent == s.pool.value.lent + loan.staked
    ensures Inv(s', o)
    ensures Sum(s'.cpu, LoanBalanceOf()) + Sum(s'.net, LoanBalanceOf())
         == Sum(s.cpu, LoanBalanceOf()) + Sum(s.net, LoanBalanceOf()) + loan.balance
  {
    hide RexReturns.Valid, RexBalances.Valid, Ledger, AdjustLoan, ValidBalances, ValidOrders, ValidPool;
    var loans := s.Loans(kind);
    SumPut<nat, Loan>(loans, n, loan, StakedOf());
    SumPut<nat, Loan>(loans, n, loan, LoanBalanceOf());
    assert NonNegativeStakes(s.cpu) && NonNegativeStakes(s.net);
    NewLoanLedger(s, kind, n, loan, o);
  }

  lemma RentKeeps(s: State, kind: Kind, from: Name, receiver: Name, payment: int, fund: int, o: Claims)
    requires Inv(s, o)
    ensures var r := Rent(s, kind, from, receiver, payment, fund);
            r.Some? ==> Inv(r.value, o) && Surplus(r.value) == Surplus(s)
  {
    hide InvExcept, Surplus, RunRex, TransferFromFund, AdjustLoan, AddToReturnPool, Rented;
    var r := Rent(s, kind, from, receiver, payment, fund);
    if r.Some? {
      RunRexKeeps(s, 2, o);
      var s1 := RunRex(s, 2).value;
      FromFundKeeps(s1, from, payment + fund, o, {});
      FromFundFrame(s1, from, payment + fund);
      RunRexFrame(s, 2);
      var s2 := TransferFromFund(s1, from, payment + fund).value;
      GrantLoanKeeps(s2, kind, from, receiver, payment, fund, r.value, o);
    }
  }

  lemma FromFundFrame(s: State, owner: Name, amount: int)
    ensures var r := TransferFromFund(s, owner, amount); r.Some? ==> r.value == s.(funds := r.value.funds)
  {
  }

  lemma ToFundFrame(s: State, owner: Name, amount: int)
    ensures var r := TransferToFund(s, owner, amount); r.Some? ==> r.value == s.(funds := r.value.funds)
  {
  }

  lemma GrantLoanKeeps(s: State, kind: Kind, from: Name, receiver: Name, payment: int, fund: int, s': State, o: Claims)
    requires Inv(s, o) && s.LoansAvailable() && 0 < payment && 0 <= fund
    requires payment < Rented(s.pool.value, payment)
    requires var rented := Rented(s.pool.value, payment);
             var s3 := AddLoanToPool(s, payment, rented, true);
             var n := s3.pool.value.loanNum;
             var res := AdjustLoan(s3.resources, receiver, kind, rented);
             && n !in s3.Loans(kind) && res.Some?
             && s' == s3.WithLoans(kind, s3.Loans(kind)[n := Loan(from, receiver, payment, fund, rented, s.now + THIRTY_DAYS)]).(resources := res.value)
    ensures Inv(s', o) && Surplus(s') == Surplus(s) - payment - fund
  {
    hide RexReturns.Valid, RexBalances.Valid, Ledger, AdjustLoan, AddToReturnPool, Rented, ValidPool, ValidBalances, ValidOrders, ExpireInTime;
    var rented := Rented(s.pool.value, payment);
    AddToReturnPoolMoves(s, payment);
    var n := s.pool.value.loanNum + 1;
    GrantedValid(s.pool.value, PaidNow(s), payment, n);
    var loan := Loan(from, receiver, payment, fund, rented, s.now + THIRTY_DAYS);
    NewLoanKeeps(s, kind, n, loan, s', o);
  }

  /** Changing a loan's balance touches nothing else. */
  lemma ReserveKeeps(s: State, kind: Kind, n: nat, balance: int, o: Claims)
    requires Inv(s, o) && n in s.Loans(kind) && 0 <= balance
    ensures var s' := s.WithLoans(kind, s.Loans(kind)[n := s.Loans(kind)[n].(balance := balance)]);
            Inv(s', o) && Surplus(s') == Surplus(s) + s.Loans(kind)[n].balance - balance
  {
    hide RexReturns.Valid, RexBalances.Valid, ValidBalances, ValidOrders, ValidPool, Ledger;
    var loans := s.Loans(kind);
    var loan' := loans[n].(balance := balance);
    SumPut<nat, Loan>(loans, n, loan', StakedOf());
    SumPut<nat, Loan>(loans, n, loan', LoanBalanceOf());
    ReserveLedger(s, kind, n, loan', o);
  }

  lemma ReserveLedger(s: State, kind: Kind, n: nat, loan': Loan, o: Claims)
    requires n in s.Loans(kind) && Ledger(s.resources, s.cpu, s.net, o)
    requires loan'.receiver == s.Loans(kind)[n].receiver && loan'.staked == s.Loans(kind)[n].staked
    ensures var s' := s.WithLoans(kind, s.Loans(kind)[n := loan']); Ledger(s.resources, s'.cpu, s'.net, o)
  {
    var loans := s.Loans(kind);
    forall a: Name ensures Sum(loans[n := loan'], StakedTo(a)) == Sum(loans, StakedTo(a)) {
      SumPut<nat, Loan>(loans, n, loan', StakedTo(a));
    }
  }

  lemma FundLoanKeeps(s: State, kind: Kind, from: Name, n: nat, payment: int, o: Claims)
    requires Inv(s, o)
    ensures var r := FundLoan(s, kind, from, n, payment);
            r.Some? ==> Inv(r.value, o) && Surplus(r.value) == Surplus(s)
  {
    hide InvExcept, Surplus, TransferFromFund;
    if FundLoan(s, kind, from, n, payment).Some? {
      FromFundKeeps(s, from, payment, o, {});
      var s1 := TransferFromFund(s, from, payment).value;
      LoanBalanceNonNegative(s1, kind, n, o);
      PositiveTransferFrom(s, from, payment);
      ReserveKeeps(s1, kind, n, s1.Loans(kind)[n].balance + payment, o);
    }
  }

  lemma PositiveTransferFrom(s: State, owner: Name, amount: int)
    ensures TransferFromFund(s, owner, amount).Some? ==> 0 < amount
  {
  }

  lemma LoanBalanceNonNegative(s: State, kind: Kind, n: nat, o: Claims)
    requires Inv(s, o) && n in s.Loans(kind)
    ensures 0 <= s.Loans(kind)[n].balance
  {
    hide RexReturns.Valid, RexBalances.Valid, ValidBalances, ValidOrders, ValidPool, Ledger, ExpireInTime;
  }

  lemma DefundLoanKeeps(s: State, kind: Kind, from: Name, n: nat, amount: int, o: Claims)
    requires Inv(s, o)
    ensures var r := DefundLoan(s, kind, from, n, amount);
            r.Some? ==> Inv(r.value, o) && Surplus(r.value) == Surplus(s)
  {
    hide InvExcept, Surplus, TransferToFund;
    if DefundLoan(s, kind, from, n, amount).Some? {
      var s1 := s.WithLoans(kind, s.Loans(kind)[n := s.Loans(kind)[n].(balance := s.Loans(kind)[n].balance - amount)]);
      ReserveKeeps(s, kind, n, s.Loans(kind)[n].balance - amount, o);
      PositiveTransfer(s1, from, amount);
      ToFundKeeps(s1, from, amount, o, {});
    }
  }

  // ----- balances -----

  lemma UpdateRexKeeps(s: State, owner: Name, o: Claims)
    requires Inv(s, o)
    ensures var r := UpdateRex(s, owner);
            r.Some? ==> Inv(r.value, o) && Surplus(r.value) == Surplus(s)
  {
    hide InvExcept, Surplus, RunRex, UpdateRexAccount;
    if UpdateRex(s, owner).Some? {
      RunRexKeeps(s, 2, o);
      RunRexFrame(s, 2);
      var s1 := RunRex(s, 2).value;
      UpdateRexAccountKeeps(s1, owner, 0, o, {});
      UpdateRexAccountFrame(s1, owner, 0);
      ProcessOwnerKeeps(UpdateRexAccount(s1, owner, 0), owner, o);
    }
  }

  /** Maintenance takes no time. */
  lemma RunRexFrame(s: State, max: nat)
    ensures var r := RunRex(s, max); r.Some? ==> r.value.now == s.now
  {
    hide RunLoans, FillOrders, AddToReturnPool;
    if RunRex(s, max).Some? {
      CollectNamebidsFrame(s);
      var s1 := CollectNamebids(UpdateRexPool(s));
      RunLoansFrame(s1, Cpu, max);
      var s2 := RunLoans(s1, Cpu, max).value;
      RunLoansFrame(s2, Net, max);
      var s3 := RunLoans(s2, Net, max).value;
      FillOrdersFrame(s3, OpenOrders(s3.orders), max);
    }
  }

  /** Fees move only the pool and the return pool. */
  lemma AddToReturnPoolFrame(s: State, fee: int)
    requires s.pool.Some?
    ensures var s' := UpdateRexPool(s); s' == s.(pool := s'.pool, retpool := s'.retpool) && s'.pool.Some?
    ensures var s' := AddToReturnPool(s, fee); s' == s.(pool := s'.pool, retpool := s'.retpool) && s'.pool.Some?
  {
    hide RexReturns.Distribute, RexReturns.Released, RexReturns.Collect, RexReturns.FirstFee;
  }

  lemma CollectNamebidsFrame(s: State)
    requires s.pool.Some?
    ensures var s' := CollectNamebids(UpdateRexPool(s)); s' == s.(pool := s'.pool, retpool := s'.retpool, tokens := s'.tokens)
  {
    hide UpdateRexPool, AddToReturnPool;
    AddToReturnPoolFrame(s, 0);
    var s1 := UpdateRexPool(s);
    AddToReturnPoolFrame(s1, s1.pool.value.namebid);
  }

  lemma RenewLoanFrame(s: State, kind: Kind, n: nat)
    requires s.pool.Some? && n in s.Loans(kind)
    ensures var r := RenewLoan(s, kind, n);
            r.Some? ==> r.value.now == s.now && r.value.orders == s.orders && r.value.balances == s.balances
  {
    hide AdjustLoan, Rented, AddToReturnPool;
    AddToReturnPoolFrame(s, s.Loans(kind)[n].payment);
  }

  lemma CloseLoanFrame(s: State, kind: Kind, n: nat)
    requires n in s.Loans(kind)
    ensures var r := CloseLoan(s, kind, n);
            r.Some? ==> r.value.now == s.now && r.value.orders == s.orders && r.value.balances == s.balances
  {
    hide AdjustLoan;
  }

  /** A loan step leaves orders and balances alone. */
  lemma ProcessExpiredLoanFrame(s: State, kind: Kind, n: nat)
    requires s.pool.Some? && n in s.Loans(kind)
    ensures var r := ProcessExpiredLoan(s, kind, n);
            r.Some? ==> r.value.now == s.now && r.value.orders == s.orders && r.value.balances == s.balances
  {
    hide RenewLoan, CloseLoan, Renews, RemoveLoanFromPool;
    var s1 := s.(pool := Some(RemoveLoanFromPool(s.pool.value, s.Loans(kind)[n].staked)));
    RenewLoanFrame(s1, kind, n);
    CloseLoanFrame(s1, kind, n);
  }

  lemma {:induction false} RunLoansFrame(s: State, kind: Kind, max: nat)
    requires s.pool.Some?
    ensures var r := RunLoans(s, kind, max);
            r.Some? ==> r.value.now == s.now && r.value.orders == s.orders && r.value.balances == s.balances
    decreases max
  {
    hide ProcessExpiredLoan;
    if 0 < max && HasExpired(s, kind) {
      var n := FirstLoan(s.Loans(kind));
      ProcessExpiredLoanFrame(s, kind, n);
      var r := ProcessExpiredLoan(s, kind, n);
      if r.Some? {
        RunLoansFrame(r.value, kind, max - 1);
      }
    }
  }

  lemma FillRexOrderFrame(s: State, owner: Name)
    requires s.pool.Some? && owner in s.orders
    ensures owner in s.balances ==>
              var r := FillRexOrder(s, owner, s.orders[owner].requested);
              r.Some? ==> r.value.state == s.(pool := r.value.state.pool, balances := r.value.state.balances)
  {
  }

  lemma {:induction false} FillOrdersFrame(s: State, todo: set<Name>, max: nat)
    requires s.pool.Some? && todo <= s.orders.Keys
    ensures var r := FillOrders(s, todo, max);
            r.Some? ==> r.value.now == s.now && r.value.cpu == s.cpu && r.value.net == s.net
    decreases max
  {
    hide FillRexOrder;
    if 0 < max && todo != {} {
      var owner := FirstOrder(s.orders, todo);
      FillRexOrderFrame(s, owner);
      var r := FillQueued(s, owner);
      if r.Some? {
        FillOrdersFrame(r.value, todo - {owner}, max - 1);
      }
    }
  }

  lemma ConsolidateKeeps(s: State, owner: Name, o: Claims)
    requires Inv(s, o)
    ensures var r := Consolidate(s, owner);
            r.Some? ==> Inv(r.value, o) && Surplus(r.value) == Surplus(s)
  {
    hide InvExcept, Surplus, RunRex, UpdateRexAccount, RexBalances.Consolidate, RexBalances.Valid;
    if Consolidate(s, owner).Some? {
      RunRexKeeps(s, 2, o);
      RunRexFrame(s, 2);
      var s1 := RunRex(s, 2).value;
      UpdateRexAccountKeeps(s1, owner, 0, o, {});
      UpdateRexAccountFrame(s1, owner, 0);
      var s2 := UpdateRexAccount(s1, owner, 0);
      InSellOrderCovered(s2, owner, o);
      OwnerValid(s2, owner, o);
      RexBalances.ConsolidateValid(s2.balances[owner], InSellOrder(s2, owner), s.Seconds());
      ReplaceBalanceKeeps(s2, owner, RexBalances.Consolidate(s2.balances[owner], InSellOrder(s2, owner), s.Seconds()), o);
    }
  }

  lemma OwnerValid(s: State, owner: Name, o: Claims)
    requires Inv(s, o) && owner in s.balances
    ensures RexBalances.Valid(s.balances[owner], s.Seconds()) && RexReturns.ValidTime(s.Seconds())
  {
    hide RexReturns.Valid, RexBalances.Valid, ValidOrders, ValidPool, Ledger, ExpireInTime;
  }

  lemma MoveToSavingsKeeps(s: State, owner: Name, rex: int, o: Claims)
    requires Inv(s, o)
    ensures var r := MoveToSavings(s, owner, rex);
            r.Some? ==> Inv(r.value, o) && Surplus(r.value) == Surplus(s)
  {
    hide InvExcept, Surplus, RunRex, UpdateRexAccount, RexBalances.MoveToSavings, RexBalances.Valid;
    if MoveToSavings(s, owner, rex).Some? {
      RunRexKeeps(s, 2, o);
      RunRexFrame(s, 2);
      var s1 := RunRex(s, 2).value;
      UpdateRexAccountKeeps(s1, owner, 0, o, {});
      UpdateRexAccountFrame(s1, owner, 0);
      var s2 := UpdateRexAccount(s1, owner, 0);
      InSellOrderCovered(s2, owner, o);
      OwnerValid(s2, owner, o);
      RexBalances.MoveToSavingsSucceeds(s2.balances[owner], rex, InSellOrder(s2, owner), s.Seconds());
      ReplaceBalanceKeeps(s2, owner, RexBalances.MoveToSavings(s2.balances[owner], rex, InSellOrder(s2, owner), s.Seconds()).value, o);
    }
  }

  lemma MoveFromSavingsKeeps(s: State, owner: Name, rex: int, o: Claims)
    requires Inv(s, o)
    ensures var r := MoveFromSavings(s, owner, rex);
            r.Some? ==> Inv(r.value, o) && Surplus(r.value) == Surplus(s)
  {
    hide InvExcept, Surplus, RunRex, UpdateRexAccount, RexBalances.MoveFromSavings, RexBalances.Valid;
    if MoveFromSavings(s, owner, rex).Some? {
      RunRexKeeps(s, 2, o);
      RunRexFrame(s, 2);
      var s1 := RunRex(s, 2).value;
      InSellOrderCovered(s1, owner, o);
      OwnerValid(s1, owner, o);
      var b := RexBalances.MoveFromSavings(s1.balances[owner], rex, s.Seconds());
      RexBalances.MoveFromSavingsValid(s1.balances[owner], rex, s.Seconds());
      ReplaceBalanceKeeps(s1, owner, b, o);
      UpdateRexAccountKeeps(s1.(balances := s1.balances[owner := b]), owner, 0, o, {});
    }
  }

  // ----- closing an account -----

  lemma EraseFundKeeps(s: State, owner: Name, o: Claims)
    requires Inv(s, o) && owner in s.funds && s.funds[owner] == 0
    ensures Inv(s.(funds := s.funds - {owner}), o)
    ensures Surplus(s.(funds := s.funds - {owner})) == Surplus(s)
  {
    hide RexReturns.Valid, RexBalances.Valid, ValidBalances, ValidOrders, ValidPool, Ledger, ExpireInTime, ValidLoans;
    SumRemove<Name, int>(s.funds, owner, FundOf());
  }

  /** An account without REX has no open sell order, so its balance row may go. */
  lemma EraseBalanceKeeps(s: State, owner: Name, o: Claims)
    requires Inv(s, o)
    requires owner in s.balances ==> s.balances[owner].rex == 0
    ensures Inv(s.(balances := s.balances - {owner}), o)
    ensures Surplus(s.(balances := s.balances - {owner})) == Surplus(s)
  {
    hide RexReturns.Valid, ValidPool, Ledger, ExpireInTime, ValidLoans, RexBalances.Valid, ValidFunds;
    if owner in s.balances {
      SumRemove<Name, RexBalances.Balance>(s.balances, owner, RexOf());
      MaturedWithinRex(s.balances[owner], s.Seconds());
    } else {
      assert s.balances - {owner} == s.balances;
    }
  }

  lemma CloseRexKeeps(s: State, owner: Name, o: Claims)
    requires Inv(s, o)
    ensures var r := CloseRex(s, owner);
            r.Some? ==> Inv(r.value, o) && Surplus(r.value) == Surplus(s)
  {
    hide InvExcept, Surplus, RunRex, UpdateRexAccount, HasLoans;
    if CloseRex(s, owner).Some? {
      if s.pool.Some? {
        RunRexKeeps(s, 2, o);
      }
      var s1 := if s.pool.Some? then RunRex(s, 2).value else s;
      UpdateRexAccountKeeps(s1, owner, 0, o, {});
      var s2 := UpdateRexAccount(s1, owner, 0);
      var erase := !HasLoans(s2.cpu, owner) && !HasLoans(s2.net, owner) && owner in s2.funds && s2.funds[owner] == 0;
      if erase {
        EraseFundKeeps(s2, owner, o);
      }
      var s3 := if erase then s2.(funds := s2.funds - {owner}) else s2;
      EraseBalanceKeeps(s3, owner, o);
    }
  }

  // ----- fees and time -----

  lemma ChannelToRexKeeps(s: State, amount: int, o: Claims)
    requires Inv(s, o)
    ensures var r := ChannelToRex(s, amount);
            r.Some? ==> Inv(r.value, o) && Surplus(r.value) == Surplus(s)
  {
    hide InvExcept, Liabilities, AddToReturnPool;
    if s.Available() && 0 < amount {
      AddToReturnPoolKeeps(s, amount, o, {});
      var s1 := AddToReturnPool(s, amount);
      TokensKeep(s1, s1.tokens + amount, o);
    }
  }

  lemma PoolFieldsKeep(s: State, p: Pool, o: Claims)
    requires Inv(s, o) && s.pool.Some? && p == s.pool.value.(rent := p.rent, namebid := p.namebid)
    requires 0 <= p.rent && 0 <= p.namebid
    ensures Inv(s.(pool := Some(p)), o) && Surplus(s.(pool := Some(p))) == Surplus(s)
  {
    hide RexReturns.Valid, RexBalances.Valid, ValidBalances, ValidOrders, Ledger, ExpireInTime, ValidLoans;
  }

  lemma NamebidsNonNegative(s: State, o: Claims)
    requires Inv(s, o) && s.pool.Some?
    ensures 0 <= s.pool.value.namebid && 0 <= s.pool.value.rent
  {
    hide RexReturns.Valid, RexBalances.Valid, ValidBalances, ValidOrders, Ledger, ExpireInTime, ValidLoans;
  }

  lemma AdvanceKeeps(s: State, time: int, o: Claims)
    requires Inv(s, o) && s.now <= time && RexReturns.ValidTime(time / 1_000_000)
    ensures Inv(s.(now := time), o) && Surplus(s.(now := time)) == Surplus(s)
  {
    hide RexReturns.Valid, RexBalances.Valid, ValidPool, Ledger;
    var before, later := s.Seconds(), time / 1_000_000;
    assert before <= later;
    if s.retpool.Some? {
      RexReturns.LaterValid(s.retpool.value, before, later);
    }
    forall n | n in s.balances ensures RexBalances.Valid(s.balances[n], later) {
      RexBalances.LaterValid(s.balances[n], before, later);
    }
  }

  // ----- every action -----

  /** What an action adds to the tokens that eosio.rex holds beyond its liabilities: gifts, and what a
      restart of the empty pool forgets. Nothing else, and never less. */
  ghost function Gain(s: State, a: Action): int {
    match a
    case Donate(amount) => amount
    case BuyRexCall(_, _, _) => Forgotten(s.pool)
    case _ => 0
  }

  lemma StepKeeps(s: State, a: Action, o: Claims)
    requires Inv(s, o) && Step(s, a).Some?
    ensures Inv(Step(s, a).value, o)
    ensures Surplus(Step(s, a).value) == Surplus(s) + Gain(s, a)
  {
    hide InvExcept, Surplus, Deposit, Withdraw, BuyRex, SellRex, CancelOrder, Rent, FundLoan, DefundLoan, UpdateRex,
         Consolidate, MoveToSavings, MoveFromSavings, CloseRex, ChannelToRex, RunRex, Liabilities;
    match a
    case DepositCall(owner, amount) => DepositKeeps(s, owner, amount, o);
    case WithdrawCall(owner, amount) => WithdrawKeeps(s, owner, amount, o);
    case BuyRexCall(owner, amount, votes) => BuyRexKeeps(s, owner, amount, votes, o);
    case SellRexCall(owner, rex) => SellRexKeeps(s, owner, rex, o);
    case CancelOrderCall(owner) => CancelOrderKeeps(s, owner, o);
    case RentCall(kind, owner, receiver, payment, fund) => RentKeeps(s, kind, owner, receiver, payment, fund, o);
    case FundLoanCall(kind, owner, n, payment) => FundLoanKeeps(s, kind, owner, n, payment, o);
    case DefundLoanCall(kind, owner, n, payment) => DefundLoanKeeps(s, kind, owner, n, payment, o);
    case UpdateRexCall(owner) => UpdateRexKeeps(s, owner, o);
    case SetRexCall(balance) =>
      NamebidsNonNegative(s, o);
      PoolFieldsKeep(s, s.pool.value.(rent := balance), o);
    case RexExecCall(max) => RexExecKeeps(s, max, o);
    case ConsolidateCall(owner) => ConsolidateKeeps(s, owner, o);
    case MoveToSavingsCall(owner, rex) => MoveToSavingsKeeps(s, owner, rex, o);
    case MoveFromSavingsCall(owner, rex) => MoveFromSavingsKeeps(s, owner, rex, o);
    case CloseRexCall(owner) => CloseRexKeeps(s, owner, o);
    case ChannelFeeCall(amount) => ChannelToRexKeeps(s, amount, o);
    case ChannelNamebidCall(bid) => ChannelNamebidKeeps(s, bid, o);
    case Donate(amount) => DonateKeeps(s, amount, o);
    case Advance(time) => AdvanceKeeps(s, time, o);
  }

  lemma RexExecKeeps(s: State, max: nat, o: Claims)
    requires Inv(s, o)
    ensures var r := RunRex(s, max); r.Some? ==> Inv(r.value, o) && Surplus(r.value) == Surplus(s)
  {
    hide InvExcept, Surplus;
    if s.pool.Some? {
      RunRexKeeps(s, max, o);
    }
  }

  lemma ChannelNamebidKeeps(s: State, bid: int, o: Claims)
    requires Inv(s, o)
    ensures var r := ChannelNamebid(s, bid); r.Some? ==> Inv(r.value, o) && Surplus(r.value) == Surplus(s)
  {
    hide InvExcept, Surplus;
    if 0 < bid && s.Available() {
      NamebidsNonNegative(s, o);
      PoolFieldsKeep(s, s.pool.value.(namebid := s.pool.value.namebid + bid), o);
    }
  }

  lemma DonateKeeps(s: State, amount: int, o: Claims)
    requires Inv(s, o)
    ensures Inv(s.(tokens := s.tokens + amount), o) && Surplus(s.(tokens := s.tokens + amount)) == Surplus(s) + amount
  {
    TokensKeep(s, s.tokens + amount, o);
  }
}
