/** What holds of the REX tables between actions. */
module RexInvariants {
  import opened Tables
  import opened Resources
  import opened Rex
  import Bancor
  import RexReturns
  import RexBalances

  // ----- totals over the tables -----

  ghost function FundOf(): (Name, int) -> int { (n: Name, balance: int) => balance }

  ghost function LoanBalanceOf(): (nat, Loan) -> int { (n: nat, l: Loan) => l.balance }

  ghost function StakedOf(): (nat, Loan) -> int { (n: nat, l: Loan) => l.staked }

  ghost function StakedTo(account: Name): (nat, Loan) -> int {
    (n: nat, l: Loan) => if l.receiver == account then l.staked else 0
  }

  ghost function RexOf(): (Name, RexBalances.Balance) -> int { (n: Name, b: RexBalances.Balance) => b.rex }

  /** Proceeds of a filled order wait for the owner to collect them. */
  ghost function UncollectedOf(): (Name, Order) -> int {
    (n: Name, o: Order) => if o.isOpen then 0 else o.proceeds
  }

  ghost function Lendable(s: State): int {
    if s.pool.Some? then s.pool.value.lendable else 0
  }

  ghost function ReturnProceeds(s: State): int {
    if s.retpool.Some? then s.retpool.value.proceeds else 0
  }

  /** Everything eosio.rex owes. */
  ghost function Liabilities(s: State): int {
    Sum(s.funds, FundOf()) + Sum(s.cpu, LoanBalanceOf()) + Sum(s.net, LoanBalanceOf())
    + Sum(s.orders, UncollectedOf()) + Lendable(s) + ReturnProceeds(s)
  }

  ghost function Surplus(s: State): int {
    s.tokens - Liabilities(s)
  }

  ghost function Staked(s: State): int {
    Sum(s.cpu, StakedOf()) + Sum(s.net, StakedOf())
  }

  // ----- invariants, table by table -----

  ghost predicate ValidPool(p: Pool) {
    && p.lendable == p.unlent + p.lent
    && 0 <= p.unlent && 0 <= p.lent && 0 <= p.rent && 0 <= p.rex && 0 <= p.namebid
    && (0 < p.rex ==> 0 < p.lendable)
    && (p.rex == 0 ==> p.lent == 0)
  }

  ghost predicate ValidLoan(l: Loan, now: int) {
    0 < l.payment && 0 <= l.balance && 0 < l.staked && l.expiration <= now + THIRTY_DAYS
  }

  ghost predicate ValidLoans(loans: LoanTable, loanNum: nat, now: int) {
    forall n | n in loans :: ValidLoan(loans[n], now) && n <= loanNum
  }

  ghost predicate ValidBalances(balances: map<Name, RexBalances.Balance>, seconds: int) {
    forall n | n in balances :: RexBalances.Valid(balances[n], seconds)
  }

  /** An open order asks for REX that its owner holds matured. */
  ghost predicate Backed(o: Order, n: Name, balances: map<Name, RexBalances.Balance>) {
    0 < o.requested && n in balances && o.requested <= balances[n].matured
  }

  ghost predicate ValidOrders(orders: map<Name, Order>, balances: map<Name, RexBalances.Balance>, now: int, skip: set<Name>) {
    forall n | n in orders ::
      && 0 <= orders[n].proceeds && orders[n].time <= now
      && (orders[n].isOpen && n !in skip ==> Backed(orders[n], n, balances))
  }

  /** Every loan expires within 30 days of every waiting sell order. */
  ghost predicate ExpireInTime(loans: LoanTable, orders: map<Name, Order>) {
    forall n, m | n in loans && m in orders && orders[m].isOpen ::
      loans[n].expiration <= orders[m].time + THIRTY_DAYS
  }

  /** Each account's NET and CPU are its loans plus what others granted. */
  ghost predicate Ledger(res: ResourceTable, cpu: LoanTable, net: LoanTable, o: Claims) {
    forall a: Name ::
      && NetOf(res, a) == Sum(net, StakedTo(a)) + o.net(a) && 0 <= o.net(a)
      && CpuOf(res, a) == Sum(cpu, StakedTo(a)) + o.cpu(a) && 0 <= o.cpu(a)
      && RamOf(res, a) == o.ram(a)
  }

  ghost predicate Empty(s: State) {
    s.balances == map[] && s.orders == map[] && s.cpu == map[] && s.net == map[] && s.retpool == None
  }

  ghost predicate ValidFunds(funds: map<Name, int>) {
    forall n | n in funds :: 0 <= funds[n]
  }

  ghost predicate ValidReturns(s: State) {
    && RexReturns.ValidTime(s.Seconds())
    && (s.retpool.Some? ==> RexReturns.Valid(s.retpool.value, s.Seconds()))
  }

  /** The pool agrees with the tables it summarises. */
  ghost predicate Summarises(p: Pool, s: State) {
    && ValidPool(p)
    && p.lent == Staked(s)
    && p.rex == Sum(s.balances, RexOf())
    && ValidLoans(s.cpu, p.loanNum, s.now)
    && ValidLoans(s.net, p.loanNum, s.now)
  }

  /** The invariant; orders of the owners in `skip` may be out of step within an action. */
  ghost predicate InvExcept(s: State, o: Claims, skip: set<Name>) {
    && ValidFunds(s.funds)
    && ValidReturns(s)
    && (if s.pool.Some? then Summarises(s.pool.value, s) else Empty(s))
    && ValidBalances(s.balances, s.Seconds())
    && ValidOrders(s.orders, s.balances, s.now, skip)
    && ExpireInTime(s.cpu, s.orders) && ExpireInTime(s.net, s.orders)
    && Ledger(s.resources, s.cpu, s.net, o)
  }

  ghost predicate Inv(s: State, o: Claims) {
    InvExcept(s, o, {})
  }

  // ----- fees -----

  /** What collecting a fee does: the return pool takes the fee and pays what is due to the REX pool. */
  ghost function PaidNow(s: State): int {
    if s.retpool.Some? then RexReturns.Released(s.retpool.value, s.Seconds()) else 0
  }

  lemma UpdateRexPoolMoves(s: State)
    requires ValidReturns(s) && s.pool.Some?
    ensures var s' := UpdateRexPool(s);
            && s' == s.(pool := Some(AddReturns(s.pool.value, PaidNow(s))), retpool := s'.retpool)
            && ValidReturns(s') && 0 <= PaidNow(s) && (s.retpool.Some? <==> s'.retpool.Some?)
            && ReturnProceeds(s') == ReturnProceeds(s) - PaidNow(s)
  {
    if s.retpool.Some? {
      RexReturns.DistributeValid(s.retpool.value, s.Seconds(), s.Seconds());
      RexReturns.ReleasedNonNegative(s.retpool.value, s.Seconds(), s.Seconds());
    }
  }

  /** Lazy equals eager: updating at t1 and at t2 leaves the same tables, return pool and REX pool, as updating at t2 only. */
  lemma LazyEqualsEager(s: State, t1: int, t2: int)
    requires ValidReturns(s) && s.pool.Some? && s.pool.value.lendable == s.pool.value.unlent + s.pool.value.lent
    requires s.now <= t1 <= t2 && RexReturns.ValidTime(t2 / 1_000_000)
    ensures var s1 := UpdateRexPool(s.(now := t1));
            s1.pool.Some? && UpdateRexPool(s1.(now := t2)) == UpdateRexPool(s.(now := t2))
  {
    hide RexReturns.Distribute, RexReturns.Released, RexReturns.Valid;
    if s.retpool.Some? {
      var rp, sec, sec1, sec2 := s.retpool.value, s.Seconds(), t1 / 1_000_000, t2 / 1_000_000;
      RexReturns.LazyEqualsEager(rp, sec, sec1, sec2);
      RexReturns.DistributeValid(rp, sec, sec1);
      RexReturns.ReleasedNonNegative(rp, sec, sec1);
      RexReturns.ReleasedNonNegative(rp, sec, sec2);
      RexReturns.ReleasedNonNegative(RexReturns.Distribute(rp, sec1), sec1, sec2);
    }
  }

  lemma AddToReturnPoolMoves(s: State, fee: int)
    requires ValidReturns(s) && s.pool.Some?
    ensures var s' := AddToReturnPool(s, fee);
            && s' == s.(pool := Some(AddReturns(s.pool.value, PaidNow(s))), retpool := s'.retpool)
            && ValidReturns(s') && 0 <= PaidNow(s)
            && ReturnProceeds(s') == ReturnProceeds(s) - PaidNow(s) + Max(0, fee)
  {
    UpdateRexPoolMoves(s);
    if 0 < fee {
      var s1 := UpdateRexPool(s);
      if s1.retpool.None? {
        RexReturns.FirstFeeValid(fee, s.Seconds());
      } else {
        RexReturns.CollectValid(s1.retpool.value, fee, s.Seconds());
      }
    }
  }

  /** A fee opens at the next noon or midnight. */
  lemma FeeOpens(s: State, fee: int)
    requires ValidReturns(s) && s.pool.Some?
    ensures var s' := AddToReturnPool(s, fee);
            0 < fee ==> s'.retpool.Some? && RexReturns.OpensNext(s'.retpool.value, s.Seconds()) && fee <= s'.retpool.value.pendingProceeds
  {
    hide RexReturns.Valid, RexReturns.Distribute;
    if 0 < fee {
      if s.retpool.Some? {
        var sec := s.Seconds();
        RexReturns.FeeJoinsNextBucket(s.retpool.value, fee, sec);
        RexReturns.DistributeValid(s.retpool.value, sec, sec);
        RexReturns.PendingNonNegative(RexReturns.Distribute(s.retpool.value, sec), sec);
      } else {
        RexReturns.FirstFeeValid(fee, s.Seconds());
      }
    }
  }

  lemma UpdateRexPoolKeeps(s: State, o: Claims, skip: set<Name>)
    requires InvExcept(s, o, skip) && s.pool.Some?
    ensures InvExcept(UpdateRexPool(s), o, skip) && UpdateRexPool(s).pool.Some?
    ensures Surplus(UpdateRexPool(s)) == Surplus(s)
  {
    hide RexReturns.Valid, RexBalances.Valid, UpdateRexPool;
    UpdateRexPoolMoves(s);
  }

  lemma AddToReturnPoolKeeps(s: State, fee: int, o: Claims, skip: set<Name>)
    requires InvExcept(s, o, skip) && s.pool.Some?
    ensures InvExcept(AddToReturnPool(s, fee), o, skip)
    ensures Surplus(AddToReturnPool(s, fee)) == Surplus(s) - Max(0, fee)
  {
    hide RexReturns.Valid, RexBalances.Valid, AddToReturnPool;
    AddToReturnPoolMoves(s, fee);
  }

  lemma CollectNamebidsKeeps(s: State, o: Claims, skip: set<Name>)
    requires InvExcept(s, o, skip) && s.pool.Some?
    ensures InvExcept(CollectNamebids(s), o, skip) && CollectNamebids(s).pool.Some?
    ensures Surplus(CollectNamebids(s)) == Surplus(s)
  {
    hide RexReturns.Valid, RexBalances.Valid, AddToReturnPool;
    if 0 < s.pool.value.namebid && s.Available() {
      AddToReturnPoolMoves(s, s.pool.value.namebid);
    }
  }

  // ----- funds -----

  lemma FromFundKeeps(s: State, owner: Name, amount: int, o: Claims, skip: set<Name>)
    requires InvExcept(s, o, skip) && TransferFromFund(s, owner, amount).Some?
    ensures var s' := TransferFromFund(s, owner, amount).value;
            InvExcept(s', o, skip) && Surplus(s') == Surplus(s) + amount
  {
    SumPut<Name, int>(s.funds, owner, s.funds[owner] - amount, FundOf());
  }

  lemma ToFundKeeps(s: State, owner: Name, amount: int, o: Claims, skip: set<Name>)
    requires InvExcept(s, o, skip) && 0 < amount
    ensures var s' := TransferToFund(s, owner, amount).value;
            InvExcept(s', o, skip) && Surplus(s') == Surplus(s) - amount
  {
    SumPut<Name, int>(s.funds, owner, (if owner in s.funds then s.funds[owner] else 0) + amount, FundOf());
  }

  lemma EraseClosedKeeps(s: State, owner: Name, o: Claims, skip: set<Name>)
    requires InvExcept(s, o, skip)
    requires owner in s.orders && !s.orders[owner].isOpen
    ensures InvExcept(s.(orders := s.orders - {owner}), o, skip)
    ensures Surplus(s.(orders := s.orders - {owner})) == Surplus(s) + s.orders[owner].proceeds
    ensures 0 <= s.orders[owner].proceeds
  {
    hide RexReturns.Valid, RexBalances.Valid, Ledger, ValidPool, ValidLoans;
    SumRemove<Name, Order>(s.orders, owner, UncollectedOf());
  }

  /** Collecting a filled order's proceeds moves them from the order to the fund. */
  lemma UpdateRexAccountKeeps(s: State, owner: Name, proceeds: int, o: Claims, skip: set<Name>)
    requires InvExcept(s, o, skip) && 0 <= proceeds
    ensures var s' := UpdateRexAccount(s, owner, proceeds);
            && InvExcept(s', o, skip) && Surplus(s') == Surplus(s) - proceeds
            && InSellOrder(s', owner) == InSellOrder(s, owner)
            && (owner in s'.orders ==> s'.orders[owner].isOpen)
  {
    hide InvExcept, Liabilities;
    var s1 := if owner in s.orders && !s.orders[owner].isOpen then s.(orders := s.orders - {owner}) else s;
    if owner in s.orders && !s.orders[owner].isOpen {
      EraseClosedKeeps(s, owner, o, skip);
    }
    var toFund := proceeds + ClosedProceeds(s, owner);
    if 0 < toFund {
      ToFundKeeps(s1, owner, toFund, o, skip);
    }
  }

  // ----- loans -----

  lemma RemoveLoanValid(p: Pool, staked: int)
    requires ValidPool(p) && 0 < staked <= p.lent
    ensures var p' := RemoveLoanFromPool(p, staked);
            ValidPool(p') && p' == p.(rent := p'.rent, unlent := p.unlent + staked, lent := p.lent - staked)
  {
    Bancor.OutputBounds(p.unlent, p.rent, staked);
  }

  /** The pool once a loan is granted: it never lends more than it has. */
  function Granted(p: Pool, payment: int, rented: int, loanNum: nat): Pool {
    p.(rent := p.rent + payment, unlent := p.unlent - rented, lent := p.lent + rented, loanNum := loanNum)
  }

  lemma GrantedValid(p: Pool, paid: int, payment: int, loanNum: nat)
    requires ValidPool(p) && 0 < p.rex && 0 < payment && 0 <= paid
    ensures 0 <= Rented(p, payment)
    ensures ValidPool(Granted(AddReturns(p, paid), payment, Rented(p, payment), loanNum))
    ensures Granted(AddReturns(p, paid), payment, Rented(p, payment), loanNum).lendable == p.lendable + paid
  {
    Bancor.OutputBounds(p.rent, p.unlent, payment);
  }

  lemma StakedInLoans(s: State, kind: Kind, n: nat, o: Claims, skip: set<Name>)
    requires InvExcept(s, o, skip) && s.pool.Some? && n in s.Loans(kind)
    ensures 0 < s.Loans(kind)[n].staked <= s.pool.value.lent
  {
    SumAtLeast<nat, Loan>(s.Loans(kind), n, StakedOf());
    SumNonNegative<nat, Loan>(s.cpu, StakedOf());
    SumNonNegative<nat, Loan>(s.net, StakedOf());
  }

  ghost predicate NonNegativeStakes(loans: LoanTable) {
    forall n | n in loans :: 0 <= loans[n].staked
  }

  /** Rewriting or erasing a loan together with its receiver's resources keeps the ledger, and never aborts:
      the checks on the receiver's totals cannot block it. */
  lemma LedgerFollowsLoan(s: State, kind: Kind, n: nat, loans': LoanTable, before: Loan, after: int, o: Claims)
    requires Ledger(s.resources, s.cpu, s.net, o)
    requires n in s.Loans(kind) && before == s.Loans(kind)[n] && 0 <= after
    requires NonNegativeStakes(s.cpu) && NonNegativeStakes(s.net)
    requires (loans' == s.Loans(kind) - {n} && after == 0) ||
             (n in loans' && loans' == s.Loans(kind)[n := loans'[n]]
              && loans'[n].receiver == before.receiver && loans'[n].staked == after)
    ensures var r := AdjustLoan(s.resources, before.receiver, kind, after - before.staked);
            var s' := s.WithLoans(kind, loans');
            r.Some? && Ledger(r.value, s'.cpu, s'.net, o)
  {
    var d := after - before.staked;
    AdjustMeaning(s.resources, before.receiver, ResourceDelta(kind, d).0, ResourceDelta(kind, d).1);
    var loans := s.Loans(kind);
    forall a: Name
      ensures Sum(loans', StakedTo(a)) == Sum(loans, StakedTo(a)) + (if a == before.receiver then d else 0)
    {
      if n in loans' { SumPut<nat, Loan>(loans, n, loans'[n], StakedTo(a)); } else { SumRemove<nat, Loan>(loans, n, StakedTo(a)); }
    }
    SumAtLeast<nat, Loan>(loans, n, StakedTo(before.receiver));
    assert StakedTo(before.receiver)(n, before) == before.staked;
    SumNonNegative<nat, Loan>(s.cpu, StakedTo(before.receiver));
    SumNonNegative<nat, Loan>(s.net, StakedTo(before.receiver));
  }

  lemma NewLoanLedger(s: State, kind: Kind, n: nat, loan: Loan, o: Claims)
    requires Ledger(s.resources, s.cpu, s.net, o)
    requires n !in s.Loans(kind) && 0 < loan.staked
    requires NonNegativeStakes(s.cpu) && NonNegativeStakes(s.net)
    ensures var r := AdjustLoan(s.resources, loan.receiver, kind, loan.staked);
            var s' := s.WithLoans(kind, s.Loans(kind)[n := loan]);
            r.Some? && Ledger(r.value, s'.cpu, s'.net, o)
  {
    AdjustMeaning(s.resources, loan.receiver, ResourceDelta(kind, loan.staked).0, ResourceDelta(kind, loan.staked).1);
    var loans := s.Loans(kind);
    forall a: Name
      ensures Sum(loans[n := loan], StakedTo(a)) == Sum(loans, StakedTo(a)) + (if a == loan.receiver then loan.staked else 0)
    {
      SumPut<nat, Loan>(loans, n, loan, StakedTo(a));
    }
    SumNonNegative<nat, Loan>(s.cpu, StakedTo(loan.receiver));
    SumNonNegative<nat, Loan>(s.net, StakedTo(loan.receiver));
  }

  /** An expired loan is renewed or closed; either way nothing is lost, and nothing can block it. */
  lemma ProcessExpiredLoanKeeps(s: State, kind: Kind, n: nat, o: Claims)
    requires Inv(s, o) && s.pool.Some? && n in s.Loans(kind) && s.Loans(kind)[n].expiration <= s.now
    ensures var r := ProcessExpiredLoan(s, kind, n);
            r.Some? && Inv(r.value, o) && Surplus(r.value) == Surplus(s)
  {
    hide InvExcept, Surplus, RenewLoan, CloseLoan, Renews;
    var loan := s.Loans(kind)[n];
    var s1 := s.(pool := Some(RemoveLoanFromPool(s.pool.value, loan.staked)));
    LoanRemovedHolds(s, s1, kind, n, o);
    if Renews(s1, loan) {
      RenewLoanKeeps(s, s1, kind, n, o);
    } else {
      CloseLoanKeeps(s, s1, kind, n, o);
    }
  }

  /** Replacing a loan row, and the pool accordingly, keeps everything that does not concern funds. */
  lemma ReplaceLoanKeeps(s: State, kind: Kind, n: nat, loans': LoanTable, staked: int, s': State, o: Claims)
    requires Inv(s, o) && s.pool.Some? && n in s.Loans(kind)
    requires (loans' == s.Loans(kind) - {n} && staked == 0) ||
             (n in loans' && loans' == s.Loans(kind)[n := loans'[n]] && ValidLoan(loans'[n], s.now)
              && loans'[n].receiver == s.Loans(kind)[n].receiver && loans'[n].staked == staked)
    requires forall m | m in s.orders && s.orders[m].isOpen && n in loans' :: loans'[n].expiration <= s.orders[m].time + THIRTY_DAYS
    requires s' == s.WithLoans(kind, loans').(pool := s'.pool, retpool := s'.retpool, funds := s'.funds, resources := s'.resources)
    requires Some(s'.resources) == AdjustLoan(s.resources, s.Loans(kind)[n].receiver, kind, staked - s.Loans(kind)[n].staked)
    requires s'.pool.Some? && ValidPool(s'.pool.value) && ValidReturns(s') && ValidFunds(s'.funds)
    requires s'.pool.value.rex == s.pool.value.rex && s'.pool.value.loanNum == s.pool.value.loanNum
    requires s'.pool.value.lent == s.pool.value.lent - s.Loans(kind)[n].staked + staked
    ensures Inv(s', o)
    ensures Sum(s'.cpu, LoanBalanceOf()) + Sum(s'.net, LoanBalanceOf())
         == Sum(s.cpu, LoanBalanceOf()) + Sum(s.net, LoanBalanceOf())
            - s.Loans(kind)[n].balance + (if n in loans' then loans'[n].balance else 0)
  {
    hide RexReturns.Valid, RexBalances.Valid, Ledger, AdjustLoan, ValidOrders, ValidBalances, ValidPool, ValidFunds;
    var loans := s.Loans(kind);
    assert NonNegativeStakes(s.cpu) && NonNegativeStakes(s.net);
    if n in loans' {
      SumPut<nat, Loan>(loans, n, loans'[n], StakedOf());
      SumPut<nat, Loan>(loans, n, loans'[n], LoanBalanceOf());
    } else {
      SumRemove<nat, Loan>(loans, n, StakedOf());
      SumRemove<nat, Loan>(loans, n, LoanBalanceOf());
    }
    LedgerFollowsLoan(s, kind, n, loans', loans[n], staked, o);
  }

  ghost predicate LoanRemoved(s: State, s1: State, kind: Kind, n: nat)
    requires s.pool.Some? && n in s.Loans(kind)
  {
    && s1 == s.(pool := s1.pool) && s1.pool.Some? && ValidPool(s1.pool.value)
    && s1.pool.value == s.pool.value.(rent := s1.pool.value.rent,
                                      unlent := s.pool.value.unlent + s.Loans(kind)[n].staked,
                                      lent := s.pool.value.lent - s.Loans(kind)[n].staked)
  }

  lemma LoanRemovedHolds(s: State, s1: State, kind: Kind, n: nat, o: Claims)
    requires Inv(s, o) && s.pool.Some? && n in s.Loans(kind)
    requires s1 == s.(pool := Some(RemoveLoanFromPool(s.pool.value, s.Loans(kind)[n].staked)))
    ensures LoanRemoved(s, s1, kind, n)
  {
    hide RexReturns.Valid, RexBalances.Valid, Ledger, RemoveLoanFromPool;
    StakedInLoans(s, kind, n, o, {});
    RemoveLoanValid(s.pool.value, s.Loans(kind)[n].staked);
  }

  lemma RenewLoanIs(s1: State, kind: Kind, n: nat)
    requires s1.pool.Some? && n in s1.Loans(kind) && ValidReturns(s1)
    requires ValidPool(s1.pool.value) && 0 < s1.Loans(kind)[n].payment && 0 < s1.pool.value.rex
    ensures var loan := s1.Loans(kind)[n];
            var rented := Rented(s1.pool.value, loan.payment);
            var loan' := loan.(staked := rented, expiration := loan.expiration + THIRTY_DAYS,
                               balance := loan.balance - loan.payment);
            var res := AdjustLoan(s1.resources, loan.receiver, kind, rented - loan.staked);
            var r := RenewLoan(s1, kind, n);
            && (r.Some? <==> res.Some?)
            && (r.Some? ==>
                 && r.value == s1.WithLoans(kind, s1.Loans(kind)[n := loan']).(
                      pool := r.value.pool, retpool := r.value.retpool, resources := res.value)
                 && r.value.pool == Some(Granted(AddReturns(s1.pool.value, PaidNow(s1)), loan.payment, rented, s1.pool.value.loanNum))
                 && ValidPool(r.value.pool.value) && ValidReturns(r.value)
                 && Lendable(r.value) + ReturnProceeds(r.value) == Lendable(s1) + ReturnProceeds(s1) + loan.payment)
  {
    hide RexReturns.Valid, AddToReturnPool, Rented, AdjustLoan, ValidPool;
    var loan := s1.Loans(kind)[n];
    AddToReturnPoolMoves(s1, loan.payment);
    GrantedValid(s1.pool.value, PaidNow(s1), loan.payment, s1.pool.value.loanNum);
  }

  lemma RenewLoanKeeps(s: State, s1: State, kind: Kind, n: nat, o: Claims)
    requires Inv(s, o) && s.pool.Some? && n in s.Loans(kind) && s.Loans(kind)[n].expiration <= s.now
    requires LoanRemoved(s, s1, kind, n) && Renews(s1, s.Loans(kind)[n])
    ensures var r := RenewLoan(s1, kind, n);
            r.Some? && Inv(r.value, o) && Surplus(r.value) == Surplus(s)
  {
    hide RexReturns.Valid, RexBalances.Valid, Ledger, Rented, AdjustLoan, RenewLoan, ValidPool;
    var loan, loans := s.Loans(kind)[n], s.Loans(kind);
    RenewLoanIs(s1, kind, n);
    var rented := Rented(s1.pool.value, loan.payment);
    var loan' := loan.(staked := rented, expiration := loan.expiration + THIRTY_DAYS, balance := loan.balance - loan.payment);
    LedgerFollowsLoan(s, kind, n, loans[n := loan'], loan, rented, o);
    ReplaceLoanKeeps(s, kind, n, loans[n := loan'], rented, RenewLoan(s1, kind, n).value, o);
  }

  lemma RefundMoves(funds: map<Name, int>, owner: Name, amount: int)
    requires ValidFunds(funds) && 0 <= amount
    ensures var before := if owner in funds then funds[owner] else 0;
            var funds' := if 0 < amount then funds[owner := before + amount] else funds;
            ValidFunds(funds') && Sum(funds', FundOf()) == Sum(funds, FundOf()) + amount
  {
    SumPut<Name, int>(funds, owner, (if owner in funds then funds[owner] else 0) + amount, FundOf());
  }

  lemma CloseLoanIs(s1: State, kind: Kind, n: nat)
    requires n in s1.Loans(kind) && ValidFunds(s1.funds) && 0 <= s1.Loans(kind)[n].balance
    ensures var loan := s1.Loans(kind)[n];
            var res := AdjustLoan(s1.resources, loan.receiver, kind, 0 - loan.staked);
            var r := CloseLoan(s1, kind, n);
            && (r.Some? <==> res.Some?)
            && (r.Some? ==>
                 && r.value == s1.WithLoans(kind, s1.Loans(kind) - {n}).(funds := r.value.funds, resources := res.value)
                 && ValidFunds(r.value.funds) && Sum(r.value.funds, FundOf()) == Sum(s1.funds, FundOf()) + loan.balance)
  {
    hide AdjustLoan;
    var loan := s1.Loans(kind)[n];
    RefundMoves(s1.funds, loan.from, loan.balance);
  }

  lemma CloseLoanKeeps(s: State, s1: State, kind: Kind, n: nat, o: Claims)
    requires Inv(s, o) && s.pool.Some? && n in s.Loans(kind)
    requires LoanRemoved(s, s1, kind, n)
    ensures var r := CloseLoan(s1, kind, n);
            r.Some? && Inv(r.value, o) && Surplus(r.value) == Surplus(s)
  {
    hide RexReturns.Valid, RexBalances.Valid, Ledger, AdjustLoan, CloseLoan, ValidPool, ValidBalances, ValidOrders, ExpireInTime;
    var loan, loans := s.Loans(kind)[n], s.Loans(kind);
    assert NonNegativeStakes(s.cpu) && NonNegativeStakes(s.net) && 0 <= loan.balance;
    LedgerFollowsLoan(s, kind, n, loans - {n}, loan, 0, o);
    CloseLoanIs(s1, kind, n);
    ReplaceLoanKeeps(s, kind, n, loans - {n}, 0, CloseLoan(s1, kind, n).value, o);
  }

  lemma {:induction false} RunLoansKeeps(s: State, kind: Kind, max: nat, o: Claims)
    requires Inv(s, o) && s.pool.Some?
    ensures var r := RunLoans(s, kind, max);
            r.Some? && Inv(r.value, o) && Surplus(r.value) == Surplus(s)
    decreases max
  {
    hide InvExcept, Surplus, ProcessExpiredLoan;
    if 0 < max && HasExpired(s, kind) {
      var n := FirstLoan(s.Loans(kind));
      ProcessExpiredLoanKeeps(s, kind, n, o);
      RunLoansKeeps(ProcessExpiredLoan(s, kind, n).value, kind, max - 1, o);
    }
  }

  // ----- sell orders -----

  /** A sale the pool can afford leaves a tenth of what is lent unlent, and leaves tokens for every
      remaining unit of REX; selling the last REX is possible only when nothing is lent. */
  lemma SoldValid(p: Pool, rex: int)
    requires ValidPool(p) && 0 < rex <= p.rex
    ensures 0 <= rex * p.lendable / p.rex
    ensures rex * p.lendable / p.rex <= p.unlent - p.lent / 10 ==> ValidPool(SoldTo(p, rex, rex * p.lendable / p.rex))
  {
    Bancor.ShareOf(rex, p.rex, p.lendable);
    if rex == p.rex {
      Bancor.QuotientAtLeast(rex * p.lendable, p.rex, p.lendable);
    }
  }

  lemma FillKeeps(s: State, owner: Name, rex: int, o: Claims, skip: set<Name>)
    requires InvExcept(s, o, skip) && s.pool.Some? && owner in s.balances
    requires 0 < rex <= s.balances[owner].matured
    ensures var r := FillRexOrder(s, owner, rex);
            && r.Some? && 0 <= r.value.proceeds
            && InvExcept(r.value.state, o, skip + {owner})
            && Surplus(r.value.state) == Surplus(s) + r.value.proceeds
            && r.value.state.orders == s.orders && r.value.state.pool.Some? && r.value.state.now == s.now
            && owner in r.value.state.balances
            && (!r.value.success ==> r.value.state == s)
            && (r.value.success ==> r.value.state.balances[owner].matured == s.balances[owner].matured - rex)
  {
    hide RexReturns.Valid, RexBalances.Valid, Ledger, ValidPool;
    var p, b := s.pool.value, s.balances[owner];
    RexAtMostPool(s, owner, o, skip);
    SoldValid(p, rex);
    RexBalances.SellValid(b, rex, s.Seconds());
    SumPut<Name, RexBalances.Balance>(s.balances, owner, RexBalances.Sell(b, rex), RexOf());
  }

  lemma RexAtMostPool(s: State, owner: Name, o: Claims, skip: set<Name>)
    requires InvExcept(s, o, skip) && s.pool.Some? && owner in s.balances
    ensures 0 <= s.balances[owner].matured <= s.balances[owner].rex <= s.pool.value.rex
  {
    hide RexReturns.Valid, RexBalances.Valid, Ledger;
    forall n | n in s.balances ensures 0 <= s.balances[n].matured <= s.balances[n].rex {
      MaturedWithinRex(s.balances[n], s.Seconds());
    }
    SumAtLeast<Name, RexBalances.Balance>(s.balances, owner, RexOf());
  }

  lemma MaturedWithinRex(b: RexBalances.Balance, now: int)
    requires RexBalances.Valid(b, now)
    ensures 0 <= b.matured <= b.rex
  {
    RexBalances.SavingsTotal(b);
    RexBalances.TotalNonNegative(RexBalances.WithoutSavings(b).maturities);
  }

  /** A queued order always finds its owner's balance and never divides by an empty pool. */
  lemma FillQueuedKeeps(s: State, owner: Name, o: Claims)
    requires Inv(s, o) && s.pool.Some? && owner in s.orders && s.orders[owner].isOpen
    ensures var r := FillQueued(s, owner);
            && owner in s.balances
            && r.Some? && Inv(r.value, o) && Surplus(r.value) == Surplus(s)
            && (r.value == s || (r.value.orders == s.orders[owner := r.value.orders[owner]] && !r.value.orders[owner].isOpen))
  {
    hide RexReturns.Valid, RexBalances.Valid, Ledger, FillRexOrder;
    assert Backed(s.orders[owner], owner, s.balances);
    var order := s.orders[owner];
    FillKeeps(s, owner, order.requested, o, {});
    var fill := FillRexOrder(s, owner, order.requested).value;
    if fill.success {
      SumPut<Name, Order>(s.orders, owner, order.(proceeds := fill.proceeds, isOpen := false), UncollectedOf());
    }
  }

  lemma {:induction false} FillOrdersKeeps(s: State, todo: set<Name>, max: nat, o: Claims)
    requires Inv(s, o) && s.pool.Some? && todo <= s.orders.Keys
    requires forall n | n in todo :: s.orders[n].isOpen
    ensures var r := FillOrders(s, todo, max);
            r.Some? && Inv(r.value, o) && Surplus(r.value) == Surplus(s)
    decreases max
  {
    hide InvExcept, Surplus, FillQueued;
    if 0 < max && todo != {} {
      var owner := FirstOrder(s.orders, todo);
      FillQueuedKeeps(s, owner, o);
      FillOrdersKeeps(FillQueued(s, owner).value, todo - {owner}, max - 1, o);
    }
  }

  /** Maintenance never aborts once the pool exists, and loses nothing. */
  lemma RunRexKeeps(s: State, max: nat, o: Claims)
    requires Inv(s, o) && s.pool.Some?
    ensures var r := RunRex(s, max);
            r.Some? && Inv(r.value, o) && Surplus(r.value) == Surplus(s)
  {
    hide InvExcept, Surplus, UpdateRexPool, CollectNamebids, RunLoans, FillOrders;
    UpdateRexPoolKeeps(s, o, {});
    CollectNamebidsKeeps(UpdateRexPool(s), o, {});
    var s1 := CollectNamebids(UpdateRexPool(s));
    RunLoansKeeps(s1, Cpu, max, o);
    var s2 := RunLoans(s1, Cpu, max).value;
    RunLoansKeeps(s2, Net, max, o);
    var s3 := RunLoans(s2, Net, max).value;
    FillOrdersKeeps(s3, OpenOrders(s3.orders), max, o);
  }
}
