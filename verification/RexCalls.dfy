/** When each REX action succeeds, once maintenance has been done, and what it leaves of the owner's REX and tokens. */
module RexCalls {
  import opened Tables
  import opened Resources
  import opened Rex
  import opened RexInvariants
  import opened RexTrades
  import Bancor
  import RexActions
  import RexBalances
  import RexLoans
  import RexOwners
  import RexReturns

  /** The state after the maintenance that an action starts with. */
  ghost function Maintained(s: State): State
  {
    if RunRex(s, 2).Some? then RunRex(s, 2).value else s
  }

  lemma MaintainedKeeps(s: State, o: Claims)
    requires Inv(s, o)
    ensures RunRex(s, 2).Some? <==> s.pool.Some?
    ensures Inv(Maintained(s), o) && Maintained(s).now == s.now && (Maintained(s).pool.Some? <==> s.pool.Some?)
  {
    hide InvExcept, Surplus, RunRex;
    NeedsPool(s);
    if s.pool.Some? {
      RunRexKeeps(s, 2, o);
      RexActions.RunRexFrame(s, 2);
    }
  }

  lemma NeedsPool(s: State)
    ensures RunRex(s, 2).Some? ==> s.pool.Some?
  {
  }

  // ----- fees -----

  /** Every fee that is due has been released to the REX pool. */
  ghost predicate Released(s: State) {
    s.retpool.Some? ==> RexReturns.Effective(s.Seconds()) <= s.retpool.value.lastDist
  }

  lemma UpdateReleases(s: State)
    requires s.pool.Some?
    ensures Released(UpdateRexPool(s)) && UpdateRexPool(s).pool.Some? && UpdateRexPool(s).now == s.now
  {
  }

  lemma FeeKeepsReleased(s: State, fee: int)
    requires s.pool.Some? && ValidReturns(s)
    ensures Released(AddToReturnPool(s, fee))
  {
    UpdateReleases(s);
    RexReturns.TimeFacts(s.Seconds());
    hide RexReturns.Valid, UpdateRexPool;
  }

  lemma LoanKeepsReleased(s: State, kind: Kind, n: nat)
    requires s.pool.Some? && ValidReturns(s) && Released(s) && n in s.Loans(kind)
    ensures var r := ProcessExpiredLoan(s, kind, n); r.Some? ==> Released(r.value)
  {
    hide RemoveLoanFromPool, Renews, RenewLoan, CloseLoan, Released, ValidReturns;
    var s1 := s.(pool := Some(RemoveLoanFromPool(s.pool.value, s.Loans(kind)[n].staked)));
    SameReleased(s, s1);
    RenewalKeepsReleased(s1, kind, n);
    CloseKeepsReleased(s1, kind, n);
  }

  lemma RenewalKeepsReleased(s: State, kind: Kind, n: nat)
    requires s.pool.Some? && ValidReturns(s) && n in s.Loans(kind)
    ensures RenewLoan(s, kind, n).Some? ==> Released(RenewLoan(s, kind, n).value)
  {
    hide AdjustLoan, Rented, AddToReturnPool, ValidReturns, Released;
    var fee := s.Loans(kind)[n].payment;
    FeeKeepsReleased(s, fee);
    RexActions.AddToReturnPoolFrame(s, fee);
    if RenewLoan(s, kind, n).Some? {
      SameReleased(AddToReturnPool(s, fee), RenewLoan(s, kind, n).value);
    }
  }

  lemma CloseKeepsReleased(s: State, kind: Kind, n: nat)
    requires n in s.Loans(kind) && Released(s)
    ensures CloseLoan(s, kind, n).Some? ==> Released(CloseLoan(s, kind, n).value)
  {
    hide AdjustLoan, Released;
    if CloseLoan(s, kind, n).Some? {
      SameReleased(s, CloseLoan(s, kind, n).value);
    }
  }

  lemma SameReleased(s: State, r: State)
    requires r.retpool == s.retpool && r.now == s.now
    ensures Released(r) == Released(s)
    ensures ValidReturns(r) == ValidReturns(s)
  {
  }

  lemma {:induction false} LoansKeepReleased(s: State, kind: Kind, max: nat, o: Claims)
    requires Inv(s, o) && s.pool.Some? && Released(s)
    ensures RunLoans(s, kind, max).Some? ==> Released(RunLoans(s, kind, max).value)
    decreases max
  {
    hide InvExcept, ProcessExpiredLoan, Surplus, Released;
    if 0 < max && HasExpired(s, kind) {
      var n := FirstLoan(s.Loans(kind));
      RexLoans.GrantFacts(s, kind, o);
      LoanKeepsReleased(s, kind, n);
      ProcessExpiredLoanKeeps(s, kind, n, o);
      LoansKeepReleased(ProcessExpiredLoan(s, kind, n).value, kind, max - 1, o);
    }
  }

  lemma {:induction false} FillsKeepReleased(s: State, todo: set<Name>, max: nat)
    requires s.pool.Some? && todo <= s.orders.Keys && Released(s)
    ensures FillOrders(s, todo, max).Some? ==> Released(FillOrders(s, todo, max).value)
    decreases max
  {
    hide FillRexOrder, Released;
    if 0 < max && todo != {} {
      var owner := FirstOrder(s.orders, todo);
      var r := FillQueued(s, owner);
      if r.Some? {
        RexActions.FillRexOrderFrame(s, owner);
        SameReleased(s, r.value);
        FillsKeepReleased(r.value, todo - {owner}, max - 1);
      }
    }
  }

  /** Maintenance releases every fee that is due, before it looks at loans and orders. */
  lemma MaintenanceReleases(s: State, max: nat, o: Claims)
    requires Inv(s, o) && s.pool.Some?
    ensures RunRex(s, max).Some? && Released(RunRex(s, max).value)
  {
    hide InvExcept, Surplus, UpdateRexPool, AddToReturnPool, RunLoans, FillOrders, Released;
    RunRexKeeps(s, max, o);
    UpdateReleases(s);
    UpdateRexPoolKeeps(s, o, {});
    var s0 := UpdateRexPool(s);
    CollectNamebidsKeeps(s0, o, {});
    RexLoans.GrantFacts(s0, Cpu, o);
    FeeKeepsReleased(s0, s0.pool.value.namebid);
    RexActions.AddToReturnPoolFrame(s0, s0.pool.value.namebid);
    var s1 := CollectNamebids(s0);
    CollectedReleased(s0);
    LoansKeepReleased(s1, Cpu, max, o);
    RunLoansKeeps(s1, Cpu, max, o);
    var s2 := RunLoans(s1, Cpu, max).value;
    LoansKeepReleased(s2, Net, max, o);
    RunLoansKeeps(s2, Net, max, o);
    var s3 := RunLoans(s2, Net, max).value;
    FillsKeepReleased(s3, OpenOrders(s3.orders), max);
  }

  lemma CollectedReleased(s: State)
    requires s.pool.Some? && Released(s) && Released(AddToReturnPool(s, s.pool.value.namebid))
    requires AddToReturnPool(s, s.pool.value.namebid).pool.Some? && AddToReturnPool(s, s.pool.value.namebid).now == s.now
    ensures Released(CollectNamebids(s))
  {
    hide AddToReturnPool;
  }

  // ----- buying -----

  /** buyrex needs a positive amount that the fund covers, and the vote. It pays the price before maintenance; an owner without
      open order and loans ends up with exactly the REX bought and the rest of the fund. */
  lemma BuyRexExactly(s: State, from: Name, amount: int, votes: bool, x: int, o: Claims)
    requires Inv(s, o)
    requires s.pool.Some? && 0 < s.pool.value.rex ==>
               (s.pool.value.rex + x) * s.pool.value.lendable <= (s.pool.value.lendable + amount) * s.pool.value.rex
                 < (s.pool.value.rex + x + 1) * s.pool.value.lendable
    requires !(s.pool.Some? && 0 < s.pool.value.rex) ==> x == 10_000 * amount
    ensures var r := BuyRex(s, from, amount, votes);
            && (r.Some? <==> 0 < amount && votes && from in s.funds && amount <= s.funds[from])
            && (r.Some? ==> Released(r.value))
            && (r.Some? && RexOwners.Idle(s, from) ==>
                  && Collectable(r.value, from) == Collectable(s, from) - amount
                  && from in r.value.balances
                  && r.value.balances[from].rex == (if from in s.balances then s.balances[from].rex else 0) + x)
  {
    hide InvExcept, Surplus, RunRex, UpdateRexAccount, Purchase, Released, RexOwners.NoLoans;
    if 0 < amount && votes && from in s.funds && amount <= s.funds[from] {
      var s1 := TransferFromFund(s, from, amount).value;
      FromFundKeeps(s, from, amount, o, {});
      RexActions.PurchaseKeeps(s1, from, amount, o);
      PurchasesExactly(s1, from, amount, x, o);
      var s2 := Purchase(s1, from, amount).value;
      RunRexKeeps(s2, 2, o);
      MaintenanceReleases(s2, 2, o);
      var s3 := RunRex(s2, 2).value;
      ClosedNonNegative(s3, from, o);
      AccountExactly(s3, from, 0);
      SameReleased(s3, UpdateRexAccount(s3, from, 0));
      if RexOwners.Idle(s, from) {
        RexOwners.MaintenanceUntouches(s2, 2, from);
      }
    }
  }

  lemma PurchasesExactly(s: State, owner: Name, amount: int, x: int, o: Claims)
    requires Inv(s, o) && 0 < amount
    requires s.pool.Some? && 0 < s.pool.value.rex ==>
               (s.pool.value.rex + x) * s.pool.value.lendable <= (s.pool.value.lendable + amount) * s.pool.value.rex
                 < (s.pool.value.rex + x + 1) * s.pool.value.lendable
    requires !(s.pool.Some? && 0 < s.pool.value.rex) ==> x == 10_000 * amount
    ensures var r := Purchase(s, owner, amount);
            && r.Some? && r.value == s.(pool := r.value.pool, balances := r.value.balances)
            && owner in r.value.balances
            && r.value.balances[owner].rex == (if owner in s.balances then s.balances[owner].rex else 0) + x
  {
    PoolIsValid(s, o);
    hide InvExcept, ValidPool;
    BoughtExactly(s.pool, amount);
    var y := AddToRexPool(s.pool, amount).value.received;
    if s.pool.Some? && 0 < s.pool.value.rex {
      SameBought(s.pool.value, amount, x, y);
    }
    hide AddToRexPool;
    RexBalances.BuyIs(BalanceOrNew(s.balances, owner), x, s.Seconds());
    BuyAddsRex(BalanceOrNew(s.balances, owner), x, s.Seconds());
    hide RexBalances.Buy;
  }

  lemma PoolIsValid(s: State, o: Claims)
    requires Inv(s, o)
    ensures s.pool.Some? ==> ValidPool(s.pool.value) && (0 < s.pool.value.rex ==> 0 < s.pool.value.lendable)
  {
    hide RexReturns.Valid, RexBalances.Valid, Ledger, ValidBalances, ValidOrders, ExpireInTime, ValidLoans;
  }

  lemma SameBought(p: Pool, amount: int, x: int, y: int)
    requires 0 < p.lendable
    requires (p.rex + x) * p.lendable <= (p.lendable + amount) * p.rex < (p.rex + x + 1) * p.lendable
    requires (p.rex + y) * p.lendable <= (p.lendable + amount) * p.rex < (p.rex + y + 1) * p.lendable
    ensures x == y
  {
    Bancor.QuotientIs((p.lendable + amount) * p.rex, p.lendable, p.rex + x);
    Bancor.QuotientIs((p.lendable + amount) * p.rex, p.lendable, p.rex + y);
  }

  lemma BuyAddsRex(b: RexBalances.Balance, received: int, now: int)
    ensures RexBalances.Buy(b, received, now).rex == b.rex + received
  {
    RexBalances.BuyIs(b, received, now);
    hide RexBalances.ProcessMaturities;
  }

  /** The REX half of unstaketorex, for stake that is there, needs only a positive amount and the vote. */
  lemma BuyWithStakeExactly(s: State, owner: Name, receiver: Name, net: int, cpu: int, votes: bool, x: int, o: Claims, o': Claims)
    requires Inv(s, o) && RexActions.Lowered(o, o', receiver, net, cpu)
    requires s.pool.Some? && 0 < s.pool.value.rex ==>
               (s.pool.value.rex + x) * s.pool.value.lendable <= (s.pool.value.lendable + net + cpu) * s.pool.value.rex
                 < (s.pool.value.rex + x + 1) * s.pool.value.lendable
    requires !(s.pool.Some? && 0 < s.pool.value.rex) ==> x == 10_000 * (net + cpu)
    ensures var r := BuyWithStake(s, owner, receiver, net, cpu, votes);
            && (r.Some? <==> 0 <= net && 0 <= cpu && 0 < net + cpu && votes)
            && (r.Some? ==> Released(r.value))
            && (r.Some? && RexOwners.Idle(s, owner) ==>
                  && Collectable(r.value, owner) == Collectable(s, owner)
                  && owner in r.value.balances
                  && r.value.balances[owner].rex == (if owner in s.balances then s.balances[owner].rex else 0) + x)
  {
    hide InvExcept, Surplus, RunRex, UpdateRexAccount, Purchase, Released, RexOwners.NoLoans, Adjust, RexActions.Lowered;
    if 0 <= net && 0 <= cpu && 0 < net + cpu && votes {
      RexActions.LowerClaims(s, receiver, net, cpu, o, o');
      var s0 := s.(resources := Adjust(s.resources, receiver, -net, -cpu).value);
      RexActions.TokensKeep(s0, s.tokens + net + cpu, o');
      var s1 := s0.(tokens := s.tokens + net + cpu);
      RexActions.PurchaseKeeps(s1, owner, net + cpu, o');
      assert s.pool.Some? ==> s.pool.value.lendable + net + cpu == s.pool.value.lendable + (net + cpu);
      PurchasesExactly(s1, owner, net + cpu, x, o');
      var s2 := Purchase(s1, owner, net + cpu).value;
      RunRexKeeps(s2, 2, o');
      MaintenanceReleases(s2, 2, o');
      var s3 := RunRex(s2, 2).value;
      ClosedNonNegative(s3, owner, o');
      AccountExactly(s3, owner, 0);
      SameReleased(s3, UpdateRexAccount(s3, owner, 0));
      if RexOwners.Idle(s, owner) {
        RexOwners.MaintenanceUntouches(s2, 2, owner);
      }
    }
  }

  // ----- selling and renting -----

  /** sellrex sells at the price that maintenance leaves. */
  lemma SellRexExactly(s: State, from: Name, rex: int, q: int, o: Claims)
    requires Inv(s, o) && s.pool.Some? && 0 < rex <= Sellable(Maintained(s), from)
    requires Maintained(s).pool.Some? ==> IsWorth(Maintained(s).pool.value, rex, q)
    ensures Maintained(s).pool.Some?
    ensures var m, r := Maintained(s), SellRex(s, from, rex);
            var open, fits := InSellOrder(m, from), Affordable(m.pool.value, q);
            && (r.Some? <==> open + rex <= Sellable(m, from) && (if fits then q != 0 else from != B1))
            && (r.Some? && fits ==> Collectable(r.value, from) == Collectable(m, from) + q && InSellOrder(r.value, from) == open)
            && (r.Some? && !fits ==> Collectable(r.value, from) == Collectable(m, from) && InSellOrder(r.value, from) == open + rex)
  {
    hide InvExcept, RunRex, SellMatured, IsWorth, Affordable, Sellable;
    MaintainedKeeps(s, o);
    SellsExactly(Maintained(s), from, rex, q, o);
  }

  /** rentcpu and rentnet rent at the price that maintenance leaves. */
  lemma RentExactly(s: State, kind: Kind, from: Name, receiver: Name, payment: int, fund: int, r: int, o: Claims)
    requires Inv(s, o) && 0 < payment
    requires Maintained(s).pool.Some? ==> RexLoans.IsRent(Maintained(s).pool.value, payment, r)
    ensures var m, g := Maintained(s), Rent(s, kind, from, receiver, payment, fund);
            && (g.Some? <==>
                  && m.pool.Some? && 0 < m.pool.value.rex && (forall n | n in m.orders :: !m.orders[n].isOpen)
                  && 0 <= fund && from in m.funds && payment + fund <= m.funds[from] && payment < r)
            && (g.Some? ==>
                  var n := m.pool.value.loanNum + 1;
                  g.value.Loans(kind) == m.Loans(kind)[n := Loan(from, receiver, payment, fund, r, s.now + 30 * 86_400 * 1_000_000)])
  {
    hide InvExcept, RunRex, GrantLoan, RexLoans.IsRent, RexLoans.Given;
    MaintainedKeeps(s, o);
    if s.pool.Some? {
      RexLoans.GrantsExactly(Maintained(s), kind, from, receiver, payment, fund, r, o);
    }
  }

  // ----- balances -----

  /** The REX that is neither in savings nor promised to the open sell order. */
  ghost function Free(s: State, owner: Name): int {
    if owner in s.balances
    then s.balances[owner].rex - RexBalances.SavingsOf(s.balances[owner]) - InSellOrder(s, owner) else 0
  }

  /** mvtosavings succeeds exactly if the amount is positive and free, and moves just that into savings. */
  lemma ToSavingsExactly(s: State, owner: Name, rex: int, o: Claims)
    requires Inv(s, o)
    ensures var m, r := Maintained(s), MoveToSavings(s, owner, rex);
            && (r.Some? <==> s.pool.Some? && owner in m.balances && 0 < rex <= Free(m, owner))
            && (r.Some? ==>
                  && owner in r.value.balances && r.value.balances[owner].rex == m.balances[owner].rex
                  && RexBalances.SavingsOf(r.value.balances[owner]) == RexBalances.SavingsOf(m.balances[owner]) + rex)
  {
    hide InvExcept, Surplus, RunRex, UpdateRexAccount, RexBalances.MoveToSavings, RexBalances.Valid, RexBalances.SavingsOf, InSellOrder;
    MaintainedKeeps(s, o);
    var m := Maintained(s);
    if s.pool.Some? && owner in m.balances {
      UpdateRexAccountKeeps(m, owner, 0, o, {});
      RexActions.UpdateRexAccountFrame(m, owner, 0);
      var s2 := UpdateRexAccount(m, owner, 0);
      if 0 < rex <= Free(m, owner) {
        RexActions.InSellOrderCovered(s2, owner, o);
        RexActions.OwnerValid(s2, owner, o);
        RexBalances.MoveToSavingsSucceeds(s2.balances[owner], rex, InSellOrder(s2, owner), s.Seconds());
      }
    }
  }

  /** mvfrsavings succeeds exactly if savings cover a positive amount, and takes just that out of them. */
  lemma FromSavingsExactly(s: State, owner: Name, rex: int, o: Claims)
    requires Inv(s, o)
    ensures var m, r := Maintained(s), MoveFromSavings(s, owner, rex);
            && (r.Some? <==> s.pool.Some? && owner in m.balances && 0 < rex <= RexBalances.SavingsOf(m.balances[owner]))
            && (r.Some? ==>
                  && owner in r.value.balances && r.value.balances[owner].rex == m.balances[owner].rex
                  && RexBalances.SavingsOf(r.value.balances[owner]) == RexBalances.SavingsOf(m.balances[owner]) - rex)
  {
    hide InvExcept, Surplus, RunRex, UpdateRexAccount, RexBalances.MoveFromSavings, RexBalances.Valid, RexBalances.SavingsOf;
    MaintainedKeeps(s, o);
    var m := Maintained(s);
    if s.pool.Some? && owner in m.balances && 0 < rex <= RexBalances.SavingsOf(m.balances[owner]) {
      RexActions.OwnerValid(m, owner, o);
      RexBalances.MoveFromSavingsValid(m.balances[owner], rex, s.Seconds());
      RexActions.UpdateRexAccountFrame(m.(balances := m.balances[owner := RexBalances.MoveFromSavings(m.balances[owner], rex, s.Seconds())]),
                                       owner, 0);
    }
  }

  /** updaterex and consolidate need only a balance; updaterex matures exactly what is due. */
  lemma UpdatesExactly(s: State, owner: Name, o: Claims)
    requires Inv(s, o)
    ensures var m, r := Maintained(s), UpdateRex(s, owner);
            && (r.Some? <==> s.pool.Some? && owner in m.balances)
            && (Consolidate(s, owner).Some? <==> s.pool.Some? && owner in m.balances)
            && (r.Some? ==>
                  && owner in r.value.balances && r.value.balances[owner].matured == Sellable(m, owner)
                  && Collectable(r.value, owner) == Collectable(m, owner) && ClosedProceeds(r.value, owner) == 0)
  {
    hide InvExcept, Surplus, RunRex, UpdateRexAccount, RexBalances.ProcessMaturities, RexBalances.Consolidate, Sellable;
    MaintainedKeeps(s, o);
    var m := Maintained(s);
    if s.pool.Some? && owner in m.balances {
      OwnerMatures(m, owner, o);
      ClosedNonNegative(m, owner, o);
      AccountExactly(m, owner, 0);
    }
  }

  /** closerex succeeds exactly if no REX is left; it erases the balance, and the fund if, and only if, that is empty and no loan is open. */
  lemma ClosesRexExactly(s: State, owner: Name, o: Claims)
    requires Inv(s, o)
    ensures var m, r := Maintained(s), CloseRex(s, owner);
            && (r.Some? <==> (owner in m.balances ==> m.balances[owner].rex == 0))
            && (r.Some? ==>
                  && owner !in r.value.balances && Collectable(r.value, owner) == Collectable(m, owner)
                  && ClosedProceeds(r.value, owner) == 0
                  && (owner in r.value.funds ==>
                        r.value.funds[owner] != 0 || HasLoans(r.value.cpu, owner) || HasLoans(r.value.net, owner))
                  && (owner in m.funds && (HasLoans(m.cpu, owner) || HasLoans(m.net, owner)) ==> owner in r.value.funds))
  {
    hide InvExcept, Surplus, RunRex, UpdateRexAccount, HasLoans;
    MaintainedKeeps(s, o);
    var m := Maintained(s);
    ClosedNonNegative(m, owner, o);
    AccountExactly(m, owner, 0);
  }

  /** setrex needs a pool and a positive amount, and sets the rent alone: loans become dearer the larger it is. */
  lemma SetsRentExactly(s: State, balance: int)
    ensures var r := SetRex(s, balance);
            && (r.Some? <==> s.pool.Some? && 0 < balance)
            && (r.Some? ==> s == r.value.(pool := s.pool) && r.value.pool == Some(s.pool.value.(rent := balance)))
  {
  }
}
