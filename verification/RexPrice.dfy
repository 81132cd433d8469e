/** The price of REX, total_lendable / total_rex, never falls. */
module RexPrice {
  import opened Tables
  import opened Resources
  import opened Rex
  import opened RexInvariants
  import opened RexActions
  import Bancor
  import RexReturns
  import RexBalances

  /** No REX is created, and each unit left is worth at least what it was. */
  ghost predicate KeepsPrice(p: Pool, p': Pool) {
    p'.rex <= p.rex && (0 < p'.rex ==> p.lendable * p'.rex <= p'.lendable * p.rex)
  }

  lemma CrossMultiply(la: int, ra: int, lb: int, rb: int, lc: int, rc: int)
    requires 0 < rb && 0 <= ra && 0 <= rc
    requires la * rb <= lb * ra && lb * rc <= lc * rb
    ensures la * rc <= lc * ra
  {
    Bancor.Scaled(la * rb, lb * ra, rc);
    Bancor.Scaled(lb * rc, lc * rb, ra);
    assert la * rb * rc == rb * (la * rc);
    assert lb * ra * rc == lb * rc * ra;
    assert lc * rb * ra == rb * (lc * ra);
    CancelFactor(la * rc, lc * ra, rb);
  }

  lemma CancelFactor(x: int, y: int, c: int)
    requires 0 < c && c * x <= c * y
    ensures x <= y
  {
    Bancor.Scaled(y + 1, x, c);
  }

  lemma KeepsTransitive(a: Pool, b: Pool, c: Pool)
    requires ValidPool(a) && ValidPool(b) && ValidPool(c) && KeepsPrice(a, b) && KeepsPrice(b, c)
    ensures KeepsPrice(a, c)
  {
    if 0 < c.rex {
      CrossMultiply(a.lendable, a.rex, b.lendable, b.rex, c.lendable, c.rex);
    }
  }

  /** A pool that keeps its REX and does not lose tokens keeps the price. */
  lemma MoreTokens(p: Pool, p': Pool)
    requires p'.rex == p.rex && p.lendable <= p'.lendable && 0 <= p.rex
    ensures KeepsPrice(p, p')
  {
    Bancor.Scaled(p.lendable, p'.lendable, p.rex);
  }

  /** Selling rounds the proceeds down, in favour of those who stay. */
  lemma SaleKeepsPrice(p: Pool, rex: int)
    requires ValidPool(p) && 0 < rex <= p.rex
    ensures KeepsPrice(p, SoldTo(p, rex, rex * p.lendable / p.rex))
  {
    var proceeds := rex * p.lendable / p.rex;
    Bancor.DivBounds(rex * p.lendable, p.rex);
    assert p.lendable * (p.rex - rex) == p.lendable * p.rex - rex * p.lendable;
    assert (p.lendable - proceeds) * p.rex == p.lendable * p.rex - proceeds * p.rex;
  }

  /** Buying rounds the REX received down. */
  lemma PurchaseKeepsPrice(p: Pool, payment: int)
    requires ValidPool(p) && 0 < p.rex && 0 < payment
    ensures var p' := AddToRexPool(Some(p), payment).value.pool;
            p.rex <= p'.rex && p.lendable * p'.rex <= p'.lendable * p.rex
  {
    BoughtValid(Some(p), payment);
    var total := (p.lendable + payment) * p.rex;
    Bancor.DivBounds(total, p.lendable);
    Bancor.Commutes(p.lendable, total / p.lendable);
  }

  /** Buying and at once selling what was received never returns more than was paid. */
  lemma RoundTripNeverGains(p: Pool, payment: int)
    requires ValidPool(p) && 0 < p.rex && 0 < payment
    ensures var b := AddToRexPool(Some(p), payment).value;
            b.received * b.pool.lendable / b.pool.rex <= payment
  {
    var b := AddToRexPool(Some(p), payment).value;
    PurchaseKeepsPrice(p, payment);
    var L, R, l, r := b.pool.lendable, b.pool.rex, p.lendable, p.rex;
    assert l * R <= L * r;
    assert (R - r) * L == R * L - r * L;
    assert payment * R == L * R - l * R by {
      assert payment == L - l;
    }
    Bancor.Commutes(R, L);
    Bancor.Commutes(r, L);
    Bancor.QuotientAtMost(b.received * L, R, payment);
  }

  // ----- maintenance -----

  ghost predicate Keeps(s: State, s': State) {
    s.pool.Some? && s'.pool.Some? && KeepsPrice(s.pool.value, s'.pool.value)
  }

  lemma Chain(a: State, b: State, c: State, o: Claims)
    requires Inv(a, o) && Inv(b, o) && Inv(c, o) && Keeps(a, b) && Keeps(b, c)
    ensures Keeps(a, c)
  {
    hide KeepsPrice, ValidPool, RexReturns.Valid, RexBalances.Valid, Ledger, ValidOrders, ValidLoans, ValidBalances, ExpireInTime;
    KeepsTransitive(a.pool.value, b.pool.value, c.pool.value);
  }

  lemma FeesKeepPrice(s: State, fee: int, o: Claims)
    requires Inv(s, o) && s.pool.Some?
    ensures Keeps(s, UpdateRexPool(s)) && Keeps(s, AddToReturnPool(s, fee))
  {
    hide KeepsPrice, RexReturns.Valid, RexBalances.Valid, Ledger, ValidOrders, ValidLoans, ValidBalances, ExpireInTime,
         UpdateRexPool, AddToReturnPool;
    UpdateRexPoolMoves(s);
    AddToReturnPoolMoves(s, fee);
    MoreTokens(s.pool.value, AddReturns(s.pool.value, PaidNow(s)));
  }

  lemma CollectNamebidsPrice(s: State, o: Claims)
    requires Inv(s, o) && s.pool.Some?
    ensures Keeps(s, CollectNamebids(s))
  {
    hide AddToReturnPool, InvExcept;
    FeesKeepPrice(s, s.pool.value.namebid, o);
    NamebidsNonNegative(s, o);
    PoolRexNonNegative(s, o);
    MoreTokens(s.pool.value, s.pool.value.(namebid := 0));
    AddToReturnPoolFrame(s, s.pool.value.namebid);
  }

  lemma PoolRexNonNegative(s: State, o: Claims)
    requires Inv(s, o) && s.pool.Some?
    ensures ValidPool(s.pool.value)
  {
    hide RexReturns.Valid, RexBalances.Valid, Ledger, ValidOrders, ValidLoans, ValidBalances, ExpireInTime, ValidPool;
  }

  /** Closing or renewing a loan moves tokens between lent and unlent, and may release fees. */
  lemma ProcessLoanPrice(s: State, kind: Kind, n: nat, o: Claims)
    requires Inv(s, o) && s.pool.Some? && n in s.Loans(kind) && s.Loans(kind)[n].expiration <= s.now
    ensures var r := ProcessExpiredLoan(s, kind, n); r.Some? && Keeps(s, r.value)
  {
    hide InvExcept, KeepsPrice, RenewLoan, CloseLoan, Renews;
    ProcessExpiredLoanKeeps(s, kind, n, o);
    PoolRexNonNegative(s, o);
    var loan := s.Loans(kind)[n];
    var s1 := s.(pool := Some(RemoveLoanFromPool(s.pool.value, loan.staked)));
    LoanRemovedHolds(s, s1, kind, n, o);
    if Renews(s1, loan) {
      RenewNeedsRex(s1, loan);
      LoanPaymentPositive(s, kind, n, o);
      ReturnsStayValid(s, s1, o);
      RenewLoanIs(s1, kind, n);
      MoreTokens(s.pool.value, RenewLoan(s1, kind, n).value.pool.value);
    } else {
      CloseLoanPool(s1, kind, n);
      MoreTokens(s.pool.value, CloseLoan(s1, kind, n).value.pool.value);
    }
  }

  lemma RenewNeedsRex(s: State, loan: Loan)
    requires s.pool.Some? && Renews(s, loan)
    ensures 0 < s.pool.value.rex
  {
  }

  lemma LoanPaymentPositive(s: State, kind: Kind, n: nat, o: Claims)
    requires Inv(s, o) && s.pool.Some? && n in s.Loans(kind)
    ensures 0 < s.Loans(kind)[n].payment
  {
    hide RexReturns.Valid, RexBalances.Valid, Ledger, ValidOrders, ValidBalances, ExpireInTime, ValidPool;
  }

  lemma ReturnsStayValid(s: State, s1: State, o: Claims)
    requires Inv(s, o) && s1 == s.(pool := s1.pool)
    ensures ValidReturns(s1)
  {
    hide RexReturns.Valid, RexBalances.Valid, Ledger, ValidOrders, ValidLoans, ValidBalances, ExpireInTime, ValidPool;
  }

  lemma CloseLoanPool(s: State, kind: Kind, n: nat)
    requires n in s.Loans(kind)
    ensures var r := CloseLoan(s, kind, n); r.Some? ==> r.value.pool == s.pool
  {
    hide AdjustLoan;
  }

  lemma {:induction false} RunLoansPrice(s: State, kind: Kind, max: nat, o: Claims)
    requires Inv(s, o) && s.pool.Some?
    ensures var r := RunLoans(s, kind, max); r.Some? && Keeps(s, r.value)
    decreases max
  {
    hide InvExcept, KeepsPrice, ProcessExpiredLoan;
    RunLoansKeeps(s, kind, max, o);
    if 0 < max && HasExpired(s, kind) {
      var n := FirstLoan(s.Loans(kind));
      ProcessExpiredLoanKeeps(s, kind, n, o);
      ProcessLoanPrice(s, kind, n, o);
      var s1 := ProcessExpiredLoan(s, kind, n).value;
      RunLoansKeeps(s1, kind, max - 1, o);
      RunLoansPrice(s1, kind, max - 1, o);
      Chain(s, s1, RunLoans(s1, kind, max - 1).value, o);
    } else {
      PoolRexNonNegative(s, o);
      MoreTokens(s.pool.value, s.pool.value);
    }
  }

  lemma FillPrice(s: State, owner: Name, rex: int, o: Claims)
    requires Inv(s, o) && s.pool.Some? && owner in s.balances && 0 < rex <= s.balances[owner].matured
    ensures var r := FillRexOrder(s, owner, rex);
            r.Some? && Keeps(s, r.value.state) && (0 < r.value.state.pool.value.rex ==> 0 < s.pool.value.rex)
  {
    hide InvExcept, KeepsPrice, RexBalances.Sell;
    PoolRexNonNegative(s, o);
    RexAtMostPool(s, owner, o, {});
    SaleKeepsPrice(s.pool.value, rex);
    MoreTokens(s.pool.value, s.pool.value);
  }

  lemma QueuedIsBacked(s: State, owner: Name, o: Claims)
    requires Inv(s, o) && owner in s.orders && s.orders[owner].isOpen
    ensures Backed(s.orders[owner], owner, s.balances)
  {
    hide RexReturns.Valid, RexBalances.Valid, Ledger, ValidLoans, ValidBalances, ExpireInTime, ValidPool, Backed;
  }

  lemma FillQueuedPrice(s: State, owner: Name, o: Claims)
    requires Inv(s, o) && s.pool.Some? && owner in s.orders && s.orders[owner].isOpen
    ensures var r := FillQueued(s, owner); r.Some? && Keeps(s, r.value)
  {
    hide InvExcept, KeepsPrice, FillRexOrder;
    PoolRexNonNegative(s, o);
    MoreTokens(s.pool.value, s.pool.value);
    QueuedIsBacked(s, owner, o);
    FillPrice(s, owner, s.orders[owner].requested, o);
  }

  lemma {:induction false} FillOrdersPrice(s: State, todo: set<Name>, max: nat, o: Claims)
    requires Inv(s, o) && s.pool.Some? && todo <= s.orders.Keys
    requires forall n | n in todo :: s.orders[n].isOpen
    ensures var r := FillOrders(s, todo, max); r.Some? && Keeps(s, r.value)
    decreases max
  {
    hide InvExcept, KeepsPrice, FillQueued, Surplus;
    PoolRexNonNegative(s, o);
    MoreTokens(s.pool.value, s.pool.value);
    if 0 < max && todo != {} {
      var owner := FirstOrder(s.orders, todo);
      FillQueuedKeeps(s, owner, o);
      FillQueuedPrice(s, owner, o);
      var s1 := FillQueued(s, owner).value;
      FillOrdersKeeps(s1, todo - {owner}, max - 1, o);
      FillOrdersPrice(s1, todo - {owner}, max - 1, o);
      Chain(s, s1, FillOrders(s1, todo - {owner}, max - 1).value, o);
    }
  }

  lemma RunRexPrice(s: State, max: nat, o: Claims)
    requires Inv(s, o) && s.pool.Some?
    ensures var r := RunRex(s, max); r.Some? && Keeps(s, r.value)
  {
    hide InvExcept, KeepsPrice, RunLoans, FillOrders, UpdateRexPool, CollectNamebids, Surplus;
    RunRexKeeps(s, max, o);
    FeesKeepPrice(s, 0, o);
    UpdateRexPoolKeeps(s, o, {});
    var s0 := UpdateRexPool(s);
    CollectNamebidsPrice(s0, o);
    CollectNamebidsKeeps(s0, o, {});
    var s1 := CollectNamebids(s0);
    Chain(s, s0, s1, o);
    RunLoansKeeps(s1, Cpu, max, o);
    RunLoansPrice(s1, Cpu, max, o);
    var s2 := RunLoans(s1, Cpu, max).value;
    Chain(s, s1, s2, o);
    RunLoansKeeps(s2, Net, max, o);
    RunLoansPrice(s2, Net, max, o);
    var s3 := RunLoans(s2, Net, max).value;
    Chain(s, s2, s3, o);
    FillOrdersPrice(s3, OpenOrders(s3.orders), max, o);
    Chain(s, s3, RunRex(s, max).value, o);
  }

  // ----- every action -----

  /** Actions that leave the pool's tokens and REX as maintenance left them. */
  lemma SameTotals(s: State, s': State, o: Claims)
    requires Inv(s, o) && s.pool.Some? && s'.pool.Some?
    requires s'.pool.value.rex == s.pool.value.rex && s.pool.value.lendable <= s'.pool.value.lendable
    ensures Keeps(s, s')
  {
    hide InvExcept, KeepsPrice;
    PoolRexNonNegative(s, o);
    MoreTokens(s.pool.value, s'.pool.value);
  }

  /** Each unit of REX is worth at least as much as before. */
  ghost predicate PriceUp(s: State, s': State) {
    s.pool.Some? && s'.pool.Some? && s.pool.value.lendable * s'.pool.value.rex <= s'.pool.value.lendable * s.pool.value.rex
  }

  ghost predicate HasRex(s: State) {
    s.pool.Some? && 0 < s.pool.value.rex
  }

  lemma BuyPrice(s: State, s1: State, owner: Name, payment: int, max: nat, o: Claims)
    requires Inv(s1, o) && HasRex(s) && s1.pool == s.pool && 0 < payment
    ensures var r := Purchase(s1, owner, payment);
            && r.Some? && RunRex(r.value, max).Some?
            && (HasRex(RunRex(r.value, max).value) ==> PriceUp(s, RunRex(r.value, max).value))
  {
    hide InvExcept, RunRex, Surplus;
    PoolRexNonNegative(s1, o);
    PurchaseKeeps(s1, owner, payment, o);
    PurchaseKeepsPrice(s.pool.value, payment);
    var s2 := Purchase(s1, owner, payment).value;
    RunRexPrice(s2, max, o);
    var p, p2, p3 := s.pool.value, s2.pool.value, RunRex(s2, max).value.pool.value;
    if 0 < p3.rex {
      CrossMultiply(p.lendable, p.rex, p2.lendable, p2.rex, p3.lendable, p3.rex);
    }
  }

  /** The pool after an action is the pool after its maintenance, up to fees, unless the action trades REX. */
  lemma AccountKeepsPool(s: State, owner: Name, proceeds: int)
    ensures UpdateRexAccount(s, owner, proceeds).pool == s.pool
  {
  }

  lemma KeepsIsUp(s: State, s': State)
    requires Keeps(s, s') && HasRex(s')
    ensures PriceUp(s, s')
  {
  }

  lemma SellPrice(s: State, from: Name, rex: int, o: Claims)
    requires Inv(s, o) && s.pool.Some? && SellRex(s, from, rex).Some?
    ensures Keeps(s, SellRex(s, from, rex).value)
  {
    hide InvExcept, KeepsPrice, RunRex, FillRexOrder, UpdateRexAccount, Enqueue, Surplus;
    RunRexKeeps(s, 2, o);
    RunRexPrice(s, 2, o);
    var s1 := RunRex(s, 2).value;
    ProcessOwnerKeeps(s1, from, o);
    var s2 := s1.(balances := s1.balances[from := RexBalances.ProcessMaturities(s1.balances[from], s1.Seconds())]);
    FillPrice(s2, from, rex, o);
    var fill := FillRexOrder(s2, from, rex).value;
    AccountKeepsPool(fill.state, from, fill.proceeds);
    PoolRexNonNegative(s, o);
    PoolRexNonNegative(s2, o);
    FillKeeps(s2, from, rex, o, {});
    PoolAfterFill(fill.state, o, {} + {from});
    KeepsTransitive(s.pool.value, s2.pool.value, fill.state.pool.value);
  }

  lemma PoolAfterFill(s: State, o: Claims, skip: set<Name>)
    requires InvExcept(s, o, skip) && s.pool.Some?
    ensures ValidPool(s.pool.value)
  {
    hide RexReturns.Valid, RexBalances.Valid, Ledger, ValidOrders, ValidLoans, ValidBalances, ExpireInTime, ValidPool;
  }

  lemma RentPrice(s: State, kind: Kind, from: Name, receiver: Name, payment: int, fund: int, o: Claims)
    requires Inv(s, o) && s.pool.Some? && Rent(s, kind, from, receiver, payment, fund).Some?
    ensures Keeps(s, Rent(s, kind, from, receiver, payment, fund).value)
  {
    hide InvExcept, KeepsPrice, RunRex, AdjustLoan, Rented, AddToReturnPool, Surplus, TransferFromFund;
    RunRexKeeps(s, 2, o);
    RunRexPrice(s, 2, o);
    var s1 := RunRex(s, 2).value;
    FromFundKeeps(s1, from, payment + fund, o, {});
    FromFundFrame(s1, from, payment + fund);
    var s2 := TransferFromFund(s1, from, payment + fund).value;
    FeesKeepPrice(s2, payment, o);
    AddToReturnPoolKeeps(s2, payment, o, {});
    var s3 := AddToReturnPool(s2, payment);
    PoolRexNonNegative(s, o);
    PoolRexNonNegative(s2, o);
    AddToReturnPoolFrame(s2, payment);
    PoolRexNonNegative(s3, o);
    KeepsTransitive(s.pool.value, s2.pool.value, s3.pool.value);
    var p, p' := s.pool.value, Rent(s, kind, from, receiver, payment, fund).value.pool.value;
    SameShare(p, s3.pool.value, p');
  }

  lemma SameShare(p: Pool, q: Pool, p': Pool)
    requires KeepsPrice(p, q) && p'.rex == q.rex && p'.lendable == q.lendable
    ensures KeepsPrice(p, p')
  {
  }

  /** Actions that run maintenance and then only rearrange an owner's account. */
  lemma AfterMaintenance(s: State, s': State, max: nat, o: Claims)
    requires Inv(s, o) && s.pool.Some? && RunRex(s, max).Some? && s'.pool == RunRex(s, max).value.pool
    ensures Keeps(s, s')
  {
    hide InvExcept, KeepsPrice, RunRex;
    RunRexPrice(s, max, o);
  }

  /** While REX is outstanding, no action lowers its price. */
  lemma PriceNeverFalls(s: State, a: Action, o: Claims)
    requires Inv(s, o) && Step(s, a).Some? && HasRex(s) && HasRex(Step(s, a).value)
    ensures PriceUp(s, Step(s, a).value)
  {
    hide InvExcept, KeepsPrice, RunRex, UpdateRexAccount, Purchase, TransferToFund, TransferFromFund, SellRex, Rent, Surplus,
         AddToReturnPool, HasLoans, PriceUp, RexBalances.MoveToSavings, RexBalances.MoveFromSavings, RexBalances.Consolidate;
    var s' := Step(s, a).value;
    match a
    case BuyRexCall(owner, amount, votes) => BuyRexPrice(s, owner, amount, votes, o);
    case SellRexCall(owner, rex) => SellPrice(s, owner, rex, o); KeepsIsUp(s, s');
    case RentCall(kind, owner, receiver, payment, fund) =>
      RentPrice(s, kind, owner, receiver, payment, fund, o); KeepsIsUp(s, s');
    case ChannelFeeCall(amount) => FeesKeepPrice(s, amount, o); SameFee(s, amount, o); KeepsIsUp(s, s');
    case _ => QuietPrice(s, a, o); KeepsIsUp(s, s');
  }

  lemma SameFee(s: State, amount: int, o: Claims)
    requires Inv(s, o) && HasRex(s) && ChannelToRex(s, amount).Some?
    ensures Keeps(s, ChannelToRex(s, amount).value)
  {
    hide InvExcept, KeepsPrice, AddToReturnPool;
    FeesKeepPrice(s, amount, o);
  }

  lemma BuyRexPrice(s: State, owner: Name, amount: int, votes: bool, o: Claims)
    requires Inv(s, o) && HasRex(s) && BuyRex(s, owner, amount, votes).Some?
    ensures var s' := BuyRex(s, owner, amount, votes).value; HasRex(s') ==> PriceUp(s, s')
  {
    hide InvExcept, KeepsPrice, RunRex, UpdateRexAccount, Purchase, TransferFromFund, Surplus;
    FromFundKeeps(s, owner, amount, o, {});
    FromFundFrame(s, owner, amount);
    var s1 := TransferFromFund(s, owner, amount).value;
    BuyPrice(s, s1, owner, amount, 2, o);
    AccountKeepsPool(RunRex(Purchase(s1, owner, amount).value, 2).value, owner, 0);
  }

  /** Buying with staked tokens keeps the price too. */
  lemma BuyWithStakePrice(s: State, owner: Name, receiver: Name, net: int, cpu: int, votes: bool, o: Claims, o': Claims)
    requires Inv(s, o) && Lowered(o, o', receiver, net, cpu) && HasRex(s)
    requires BuyWithStake(s, owner, receiver, net, cpu, votes).Some?
    ensures var s' := BuyWithStake(s, owner, receiver, net, cpu, votes).value; HasRex(s') ==> PriceUp(s, s')
  {
    hide InvExcept, KeepsPrice, RunRex, UpdateRexAccount, Purchase, Adjust, Lowered, Surplus;
    LowerClaims(s, receiver, net, cpu, o, o');
    var s0 := s.(resources := Adjust(s.resources, receiver, -net, -cpu).value);
    TokensKeep(s0, s0.tokens + net + cpu, o');
    var s1 := s0.(tokens := s.tokens + net + cpu);
    BuyPrice(s, s1, owner, net + cpu, 2, o');
    AccountKeepsPool(RunRex(Purchase(s1, owner, net + cpu).value, 2).value, owner, 0);
  }

  /** Every other action leaves the pool's REX and tokens as maintenance leaves them. */
  lemma QuietPrice(s: State, a: Action, o: Claims)
    requires Inv(s, o) && Step(s, a).Some? && HasRex(s)
    requires !a.BuyRexCall? && !a.SellRexCall? && !a.RentCall? && !a.ChannelFeeCall?
    ensures Keeps(s, Step(s, a).value)
  {
    hide InvExcept, KeepsPrice, RunRex, UpdateRexAccount, TransferToFund, TransferFromFund, Surplus, HasLoans,
         RexBalances.MoveToSavings, RexBalances.MoveFromSavings, RexBalances.Consolidate, BuyRex, SellRex, Rent, ChannelToRex;
    var s' := Step(s, a).value;
    match a
    case UpdateRexCall(owner) => AccountKeepsPool(RunRex(s, 2).value, owner, 0); AfterMaintenance(s, s', 2, o);
    case RexExecCall(max) => AfterMaintenance(s, s', max, o);
    case ConsolidateCall(owner) => AccountKeepsPool(RunRex(s, 2).value, owner, 0); AfterMaintenance(s, s', 2, o);
    case MoveToSavingsCall(owner, rex) => AccountKeepsPool(RunRex(s, 2).value, owner, 0); AfterMaintenance(s, s', 2, o);
    case MoveFromSavingsCall(owner, rex) => MoveFromPool(s, owner, rex); AfterMaintenance(s, s', 2, o);
    case CloseRexCall(owner) => AccountKeepsPool(RunRex(s, 2).value, owner, 0); AfterMaintenance(s, s', 2, o);
    case _ => QuietPool(s, a); SameTotals(s, s', o);
  }

  lemma MoveFromPool(s: State, owner: Name, rex: int)
    ensures var r := MoveFromSavings(s, owner, rex); r.Some? ==> r.value.pool == RunRex(s, 2).value.pool
  {
    hide RunRex, RexBalances.MoveFromSavings;
  }

  lemma QuietPool(s: State, a: Action)
    requires Step(s, a).Some? && s.pool.Some?
    requires a.DepositCall? || a.WithdrawCall? || a.CancelOrderCall? || a.FundLoanCall? || a.DefundLoanCall?
             || a.SetRexCall? || a.ChannelNamebidCall? || a.Donate? || a.Advance?
    ensures var s' := Step(s, a).value;
            s'.pool.Some? && s'.pool.value.rex == s.pool.value.rex && s'.pool.value.lendable == s.pool.value.lendable
  {
    hide UpdateRexAccount, TransferToFund, TransferFromFund, BuyRex, SellRex, Rent, RunRex, UpdateRex, Consolidate,
         MoveToSavings, MoveFromSavings, CloseRex, ChannelToRex;
    match a
    case DepositCall(owner, amount) => ToFundFrame(s, owner, amount);
    case WithdrawCall(owner, amount) =>
      AccountKeepsPool(s, owner, 0);
      FromFundFrame(UpdateRexAccount(s, owner, 0), owner, amount);
    case FundLoanCall(kind, owner, n, payment) => FromFundFrame(s, owner, payment);
    case DefundLoanCall(kind, owner, n, amount) =>
      var loans := s.Loans(kind);
      ToFundFrame(s.WithLoans(kind, loans[n := loans[n].(balance := loans[n].balance - amount)]), owner, amount);
    case _ =>
  }
}
