/** The price of a loan, and what granting, renewing, closing, funding and defunding a loan changes, exactly. */
module RexLoans {
  import opened Tables
  import opened Resources
  import opened Rex
  import opened RexInvariants
  import RexActions
  import Bancor
  import RexBalances
  import RexReturns

  /** `r` tokens are what a payment rents: the most that does not lower the product of rent and unlent tokens. */
  predicate IsRent(p: Pool, payment: int, r: int) {
    Bancor.IsOutput(p.rent, p.unlent, payment, r)
  }

  /** Likewise `x` is the rent that goes when rented tokens come back. */
  predicate IsRentBack(p: Pool, staked: int, x: int) {
    Bancor.IsOutput(p.unlent, p.rent, staked, x)
  }

  lemma RentedExactly(p: Pool, payment: int, r: int)
    requires ValidPool(p) && 0 < payment
    ensures IsRent(p, payment, r) <==> Rented(p, payment) == r
  {
    Bancor.OutputExactly(p.rent, p.unlent, payment, r);
  }

  /** The pool once the loan's tokens are back. */
  function Returned(p: Pool, staked: int, x: int): Pool {
    p.(rent := p.rent - x, unlent := p.unlent + staked, lent := p.lent - staked)
  }

  lemma ReturnedExactly(p: Pool, staked: int, x: int)
    requires ValidPool(p) && 0 < staked <= p.lent && IsRentBack(p, staked, x)
    ensures RemoveLoanFromPool(p, staked) == Returned(p, staked, x)
  {
    Bancor.OutputExactly(p.unlent, p.rent, staked, x);
  }

  // ----- granting -----

  /** With maintenance done, a loan is granted exactly if REX exists, no sell order waits, the fund covers payment and reserve,
      and the payment rents more than itself. It is a new row of the next number for thirty days; the payment joins the rent and
      the return pool, and the receiver gets the rented tokens as NET or CPU. */
  lemma GrantsExactly(s: State, kind: Kind, from: Name, receiver: Name, payment: int, fund: int, r: int, o: Claims)
    requires Inv(s, o) && s.pool.Some? && 0 < payment && IsRent(s.pool.value, payment, r)
    ensures var g, p := GrantLoan(s, kind, from, receiver, payment, fund), s.pool.value;
            && (g.Some? <==>
                  && 0 < p.rex && (forall n | n in s.orders :: !s.orders[n].isOpen)
                  && 0 <= fund && from in s.funds && payment + fund <= s.funds[from] && payment < r)
            && (g.Some? ==>
                  var s', n := g.value, p.loanNum + 1;
                  && n !in s.Loans(kind)
                  && s'.Loans(kind) == s.Loans(kind)[n := Loan(from, receiver, payment, fund, r, s.now + 30 * 86_400 * 1_000_000)]
                  && s'.Loans(Other(kind)) == s.Loans(Other(kind))
                  && s'.funds == s.funds[from := s.funds[from] - payment - fund]
                  && s'.pool == Some(p.(rent := p.rent + payment, lent := p.lent + r, unlent := p.unlent + PaidNow(s) - r,
                                        lendable := p.lendable + PaidNow(s), loanNum := n))
                  && ReturnProceeds(s') == ReturnProceeds(s) - PaidNow(s) + payment
                  && Given(s.resources, s'.resources, receiver, kind, r))
  {
    hide InvExcept, ValidReturns, ValidPool, Ledger, AdjustLoan, AddLoanToPool, Rented, IsRent, Given, PaidNow;
    GrantFacts(s, kind, o);
    RentedExactly(s.pool.value, payment, r);
    if from in s.funds {
      var s2 := s.(funds := s.funds[from := s.funds[from] - payment - fund]);
      SamePaid(s, s2);
      AddLoanExactly(s2, payment, r);
      var n := s.pool.value.loanNum + 1;
      if 0 < r {
        NewLoanLedger(s, kind, n, Loan(from, receiver, payment, fund, r, s.now + THIRTY_DAYS), o);
        LoanGives(s.resources, receiver, kind, r);
      }
    }
  }

  /** What a loan can take for granted. */
  lemma GrantFacts(s: State, kind: Kind, o: Claims)
    requires Inv(s, o) && s.pool.Some?
    ensures ValidReturns(s) && ValidPool(s.pool.value) && s.pool.value.lendable == s.pool.value.unlent + s.pool.value.lent
    ensures s.pool.value.loanNum + 1 !in s.Loans(kind)
    ensures NonNegativeStakes(s.cpu) && NonNegativeStakes(s.net) && Ledger(s.resources, s.cpu, s.net, o)
  {
    hide RexReturns.Valid, RexBalances.Valid, Ledger, ValidBalances, ValidOrders, ExpireInTime;
  }

  lemma AddLoanExactly(s: State, payment: int, r: int)
    requires ValidReturns(s) && s.pool.Some? && 0 < payment && s.pool.value.lendable == s.pool.value.unlent + s.pool.value.lent
    ensures var s', p := AddLoanToPool(s, payment, r, true), s.pool.value;
            && s' == s.(pool := s'.pool, retpool := s'.retpool)
            && s'.pool == Some(p.(rent := p.rent + payment, lent := p.lent + r, unlent := p.unlent + PaidNow(s) - r,
                                  lendable := p.lendable + PaidNow(s), loanNum := p.loanNum + 1))
            && ReturnProceeds(s') == ReturnProceeds(s) - PaidNow(s) + payment
  {
    hide RexReturns.Valid, AddToReturnPool;
    AddToReturnPoolMoves(s, payment);
  }

  function Other(kind: Kind): Kind {
    if kind == Cpu then Net else Cpu
  }

  /** Only the account's NET or CPU has changed, by `delta`. */
  ghost predicate Given(res: ResourceTable, res': ResourceTable, account: Name, kind: Kind, delta: int) {
    forall a: Name ::
      && NetOf(res', a) == NetOf(res, a) + (if a == account && kind == Net then delta else 0)
      && CpuOf(res', a) == CpuOf(res, a) + (if a == account && kind == Cpu then delta else 0)
      && RamOf(res', a) == RamOf(res, a)
  }

  lemma LoanGives(res: ResourceTable, account: Name, kind: Kind, delta: int)
    ensures var r := AdjustLoan(res, account, kind, delta); r.Some? ==> Given(res, r.value, account, kind, delta)
  {
    AdjustMeaning(res, account, ResourceDelta(kind, delta).0, ResourceDelta(kind, delta).1);
  }

  // ----- expired loans -----

  /** An expired loan first gives its tokens, and the rent they stand for, back to the pool. It is renewed for thirty days more
      exactly if its balance covers the payment, the payment still rents more than itself, and no sell order waits; otherwise it
      is closed and its balance goes to the borrower's fund. The receiver's resources follow. */
  lemma ProcessesExactly(s: State, kind: Kind, n: nat, x: int, r: int, o: Claims)
    requires Inv(s, o) && s.pool.Some? && n in s.Loans(kind) && s.Loans(kind)[n].expiration <= s.now
    requires IsRentBack(s.pool.value, s.Loans(kind)[n].staked, x)
    requires IsRent(Returned(s.pool.value, s.Loans(kind)[n].staked, x), s.Loans(kind)[n].payment, r)
    ensures var done, loan := ProcessExpiredLoan(s, kind, n), s.Loans(kind)[n];
            var p := Returned(s.pool.value, loan.staked, x);
            && done.Some?
            && if loan.payment <= loan.balance && loan.payment < r && 0 < p.rex && (forall m | m in s.orders :: !s.orders[m].isOpen) then
                 && done.value.Loans(kind) == s.Loans(kind)[n := Loan(loan.from, loan.receiver, loan.payment,
                      loan.balance - loan.payment, r, loan.expiration + 30 * 86_400 * 1_000_000)]
                 && done.value.funds == s.funds
                 && done.value.pool == Some(p.(rent := p.rent + loan.payment, lent := p.lent + r,
                      unlent := p.unlent + PaidNow(s) - r, lendable := p.lendable + PaidNow(s)))
                 && Given(s.resources, done.value.resources, loan.receiver, kind, r - loan.staked)
               else
                 && done.value.Loans(kind) == s.Loans(kind) - {n}
                 && done.value.funds == (if 0 < loan.balance
                      then s.funds[loan.from := (if loan.from in s.funds then s.funds[loan.from] else 0) + loan.balance] else s.funds)
                 && done.value.pool == Some(p)
                 && Given(s.resources, done.value.resources, loan.receiver, kind, -loan.staked)
  {
    hide InvExcept, ValidReturns, ValidPool, AdjustLoan, Rented, IsRent, IsRentBack, Given, RenewLoan, CloseLoan,
         RemoveLoanFromPool, PaidNow, Renews, Surplus;
    var loan := s.Loans(kind)[n];
    GrantFacts(s, kind, o);
    StakedInLoans(s, kind, n, o, {});
    PaymentPositive(s, kind, n, o);
    ReturnedExactly(s.pool.value, loan.staked, x);
    var s1 := s.(pool := Some(Returned(s.pool.value, loan.staked, x)));
    LoanRemovedHolds(s, s1, kind, n, o);
    RentedExactly(s1.pool.value, loan.payment, r);
    ProcessExpiredLoanKeeps(s, kind, n, o);
    SamePaid(s, s1);
    RenewsExactly(s1, loan, r);
    if Renews(s1, loan) {
      RenewLoanIs(s1, kind, n);
      LoanGives(s1.resources, loan.receiver, kind, r - loan.staked);
    } else {
      ClosesExactly(s1, kind, n);
      LoanGives(s1.resources, loan.receiver, kind, -loan.staked);
    }
  }

  lemma PaymentPositive(s: State, kind: Kind, n: nat, o: Claims)
    requires Inv(s, o) && s.pool.Some? && n in s.Loans(kind)
    ensures 0 < s.Loans(kind)[n].payment
  {
    hide RexReturns.Valid, RexBalances.Valid, Ledger, ValidBalances, ValidOrders, ExpireInTime, ValidPool;
  }

  lemma RenewsExactly(s: State, loan: Loan, r: int)
    requires s.pool.Some? && Rented(s.pool.value, loan.payment) == r
    ensures Renews(s, loan) <==>
            loan.payment <= loan.balance && loan.payment < r && 0 < s.pool.value.rex && forall m | m in s.orders :: !s.orders[m].isOpen
  {
  }

  lemma SamePaid(s: State, s1: State)
    requires s1.retpool == s.retpool && s1.now == s.now && ValidReturns(s)
    ensures 0 <= PaidNow(s) == PaidNow(s1) && ValidReturns(s1)
  {
    if s.retpool.Some? {
      RexReturns.ReleasedNonNegative(s.retpool.value, s.Seconds(), s.Seconds());
    }
    hide RexReturns.Valid, RexReturns.Released;
  }

  lemma ClosesExactly(s: State, kind: Kind, n: nat)
    requires n in s.Loans(kind)
    ensures var r, loan := CloseLoan(s, kind, n), s.Loans(kind)[n];
            var res := AdjustLoan(s.resources, loan.receiver, kind, -loan.staked);
            && (r.Some? <==> res.Some?)
            && (r.Some? ==>
                 r.value == s.WithLoans(kind, s.Loans(kind) - {n}).(resources := res.value,
                   funds := if 0 < loan.balance
                     then s.funds[loan.from := (if loan.from in s.funds then s.funds[loan.from] else 0) + loan.balance] else s.funds))
  {
    hide AdjustLoan;
  }

  // ----- the reserve of a loan -----

  ghost predicate OpenLoan(s: State, kind: Kind, from: Name, n: nat) {
    n in s.Loans(kind) && s.Loans(kind)[n].from == from && s.now < s.Loans(kind)[n].expiration
  }

  /** Only the borrower may fund a loan, and only before it expires; the tokens move from the fund to the loan. */
  lemma FundsExactly(s: State, kind: Kind, from: Name, n: nat, payment: int)
    ensures var r := FundLoan(s, kind, from, n, payment);
            && (r.Some? <==> OpenLoan(s, kind, from, n) && from in s.funds && 0 < payment <= s.funds[from])
            && (r.Some? ==>
                  && r.value.funds == s.funds[from := s.funds[from] - payment]
                  && r.value.Loans(kind) == s.Loans(kind)[n := s.Loans(kind)[n].(balance := s.Loans(kind)[n].balance + payment)]
                  && r.value.Loans(Other(kind)) == s.Loans(Other(kind)) && r.value.tokens == s.tokens && r.value.pool == s.pool)
  {
  }

  /** What is funded can be taken back, and then nothing has changed. */
  lemma DefundUndoes(s: State, kind: Kind, from: Name, n: nat, payment: int, o: Claims)
    requires Inv(s, o) && FundLoan(s, kind, from, n, payment).Some?
    ensures DefundLoan(FundLoan(s, kind, from, n, payment).value, kind, from, n, payment) == Some(s)
  {
    RexActions.LoanBalanceNonNegative(s, kind, n, o);
    hide InvExcept;
    assert s.funds[from := s.funds[from] - payment][from := s.funds[from]] == s.funds;
    var loans := s.Loans(kind);
    assert loans[n := loans[n].(balance := loans[n].balance + payment)][n := loans[n]] == loans;
    assert loans[n].(balance := loans[n].balance + payment).(balance := loans[n].balance) == loans[n];
  }

  /** Only the borrower may take tokens back, only before the loan expires, and no more than there are. */
  lemma DefundsExactly(s: State, kind: Kind, from: Name, n: nat, amount: int)
    ensures var r := DefundLoan(s, kind, from, n, amount);
            && (r.Some? <==> OpenLoan(s, kind, from, n) && 0 < amount <= s.Loans(kind)[n].balance)
            && (r.Some? ==>
                  && r.value.funds == s.funds[from := (if from in s.funds then s.funds[from] else 0) + amount]
                  && r.value.Loans(kind) == s.Loans(kind)[n := s.Loans(kind)[n].(balance := s.Loans(kind)[n].balance - amount)]
                  && r.value.Loans(Other(kind)) == s.Loans(Other(kind)) && r.value.tokens == s.tokens && r.value.pool == s.pool)
  {
  }

  // ----- how much maintenance does -----

  ghost function Changed<V(!new)>(m: map<nat, V>, m': map<nat, V>): set<nat> {
    set n | n in m && (n !in m' || m'[n] != m[n])
  }

  lemma OneMoreChanged<V(!new)>(a: map<nat, V>, b: map<nat, V>, c: map<nat, V>, n: nat, max: nat)
    requires n in a && (b == a - {n} || (n in b && b == a[n := b[n]])) && |Changed(b, c)| <= max
    ensures |Changed(a, c)| <= max + 1
  {
    assert Changed(a, c) <= Changed(b, c) + {n};
    SubsetSize(Changed(a, c), Changed(b, c) + {n});
  }

  lemma {:induction false} SubsetSize<T>(a: set<T>, b: set<T>)
    requires a <= b
    ensures |a| <= |b|
    decreases a
  {
    if a != {} {
      var x :| x in a;
      SubsetSize(a - {x}, b - {x});
    }
  }

  /** A run of maintenance renews or closes at most `max` loans of a kind, whether more have expired or not. */
  lemma {:induction false} AtMostMaxLoans(s: State, kind: Kind, max: nat, o: Claims)
    requires Inv(s, o) && s.pool.Some?
    ensures RunLoans(s, kind, max).Some?
    ensures |Changed(s.Loans(kind), RunLoans(s, kind, max).value.Loans(kind))| <= max
    decreases max
  {
    hide InvExcept, ProcessExpiredLoan, Surplus, Changed;
    if 0 < max && HasExpired(s, kind) {
      var n := FirstLoan(s.Loans(kind));
      ProcessExpiredLoanKeeps(s, kind, n, o);
      var s1 := ProcessExpiredLoan(s, kind, n).value;
      OnlyThatLoan(s, kind, n);
      AtMostMaxLoans(s1, kind, max - 1, o);
      OneMoreChanged(s.Loans(kind), s1.Loans(kind), RunLoans(s, kind, max).value.Loans(kind), n, max - 1);
    } else {
      NothingChanged(s.Loans(kind));
    }
  }

  lemma NothingChanged<V(!new)>(m: map<nat, V>)
    ensures |Changed(m, m)| == 0
  {
    assert Changed(m, m) == {};
  }

  lemma OnlyThatLoan(s: State, kind: Kind, n: nat)
    requires s.pool.Some? && n in s.Loans(kind) && ProcessExpiredLoan(s, kind, n).Some?
    ensures var loans := ProcessExpiredLoan(s, kind, n).value.Loans(kind);
            loans == s.Loans(kind) - {n} || (n in loans && loans == s.Loans(kind)[n := loans[n]])
  {
    hide RemoveLoanFromPool, Renews, AdjustLoan, Rented, AddLoanToPool;
  }

  /** At most `max` orders are filled. */
  lemma {:induction false} AtMostMaxOrders(s: State, todo: set<Name>, max: nat)
    requires s.pool.Some? && todo <= s.orders.Keys && FillOrders(s, todo, max).Some?
    ensures |Changed(s.orders, FillOrders(s, todo, max).value.orders)| <= max
    decreases max
  {
    hide FillRexOrder, Changed;
    if 0 < max && todo != {} {
      var n := FirstOrder(s.orders, todo);
      var s1 := FillQueued(s, n).value;
      OnlyThatOrder(s, n);
      AtMostMaxOrders(s1, todo - {n}, max - 1);
      OneMoreChanged(s.orders, s1.orders, FillOrders(s, todo, max).value.orders, n, max - 1);
    } else {
      NothingChanged(s.orders);
    }
  }

  lemma OnlyThatOrder(s: State, n: Name)
    requires s.pool.Some? && n in s.orders && FillQueued(s, n).Some?
    ensures var orders := FillQueued(s, n).value.orders; n in orders && orders == s.orders[n := orders[n]]
  {
  }

  /** The waiting proceeds of name bids are collected once: with REX they enter the return pool with their tokens. */
  lemma NamebidsGo(s: State, o: Claims)
    requires Inv(s, o) && s.pool.Some?
    ensures var s', bids := CollectNamebids(s), s.pool.value.namebid;
            && s'.pool.Some? && s'.pool.value.namebid == 0
            && s'.tokens == s.tokens + (if 0 < s.pool.value.rex then bids else 0)
            && Lendable(s') + ReturnProceeds(s') == Lendable(s) + ReturnProceeds(s) + (if 0 < s.pool.value.rex then bids else 0)
  {
    GrantFacts(s, Cpu, o);
    hide InvExcept, RexReturns.Valid, AddToReturnPool, UpdateRexPool;
    AddToReturnPoolMoves(s, s.pool.value.namebid);
  }
}
