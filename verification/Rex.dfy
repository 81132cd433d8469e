/** The REX lending pool: what every action does to its tables. A failed check aborts the whole action
    and is None. Times are microseconds (time_point) unless a name says seconds. */
module Rex {
  import opened Tables
  import opened Resources
  import Bancor
  import RexReturns
  import RexBalances

  const REX_RATIO := 10000
  const INIT_TOTAL_RENT := 20_000_0000
  const THIRTY_DAYS := 30 * 86400 * 1_000_000

  datatype Pool = Pool(lent: int, unlent: int, rent: int, lendable: int, rex: int, namebid: int, loanNum: nat)

  datatype Loan = Loan(from: Name, receiver: Name, payment: int, balance: int, staked: int, expiration: int)

  datatype Order = Order(requested: int, proceeds: int, time: int, isOpen: bool)

  datatype Kind = Cpu | Net

  type LoanTable = map<nat, Loan>

  /** `tokens` is the balance of eosio.rex. */
  datatype State = State(
    now: int,
    pool: Option<Pool>,
    retpool: Option<RexReturns.ReturnPool>,
    funds: map<Name, int>,
    balances: map<Name, RexBalances.Balance>,
    cpu: LoanTable,
    net: LoanTable,
    orders: map<Name, Order>,
    resources: ResourceTable,
    tokens: int)
  {
    function Loans(kind: Kind): LoanTable {
      if kind == Cpu then cpu else net
    }

    function WithLoans(kind: Kind, loans: LoanTable): State {
      if kind == Cpu then this.(cpu := loans) else this.(net := loans)
    }

    function Seconds(): int {
      now / 1_000_000
    }

    predicate Available() {
      pool.Some? && pool.value.rex > 0
    }

    /** No loan is granted while a sell order waits. */
    predicate LoansAvailable() {
      Available() && forall n | n in orders :: !orders[n].isOpen
    }
  }

  // ----- fees and the return pool -----

  function AddReturns(p: Pool, paid: int): Pool {
    if paid > 0 then p.(unlent := p.unlent + paid, lendable := p.unlent + paid + p.lent) else p
  }

  ghost function UpdateRexPool(s: State): State
    requires s.pool.Some?
  {
    if s.retpool.None? then s else
    var paid := RexReturns.Released(s.retpool.value, s.Seconds());
    s.(retpool := Some(RexReturns.Distribute(s.retpool.value, s.Seconds())),
       pool := Some(AddReturns(s.pool.value, paid)))
  }

  ghost function AddToReturnPool(s: State, fee: int): State
    requires s.pool.Some?
  {
    var s1 := UpdateRexPool(s);
    if fee <= 0 then s1
    else if s1.retpool.None? then s1.(retpool := Some(RexReturns.FirstFee(fee, s.Seconds())))
    else s1.(retpool := Some(RexReturns.Collect(s1.retpool.value, fee, s.Seconds())))
  }

  /** A fee sent to eosio.rex; without REX holders the fee stays where it is. */
  ghost function ChannelToRex(s: State, amount: int): Option<State> {
    if !s.Available() then Some(s) else
    var _ :- Need(0 < amount);
    var s1 := AddToReturnPool(s, amount);
    Some(s1.(tokens := s1.tokens + amount))
  }

  function ChannelNamebid(s: State, bid: int): Option<State> {
    var _ :- Need(0 < bid);
    if !s.Available() then Some(s)
    else Some(s.(pool := Some(s.pool.value.(namebid := s.pool.value.namebid + bid))))
  }

  ghost function CollectNamebids(s: State): State
    requires s.pool.Some?
  {
    var bids := s.pool.value.namebid;
    if bids <= 0 then s else
    var s1 := if s.Available() then AddToReturnPool(s, bids) else s;
    s1.(tokens := if s.Available() then s1.tokens + bids else s1.tokens,
        pool := Some(s1.pool.value.(namebid := 0)))
  }

  // ----- funds and orders of an owner -----

  function TransferFromFund(s: State, owner: Name, amount: int): Option<State> {
    var _ :- Need(0 < amount);
    var _ :- Need(owner in s.funds && amount <= s.funds[owner]);
    Some(s.(funds := s.funds[owner := s.funds[owner] - amount]))
  }

  function TransferToFund(s: State, owner: Name, amount: int): Option<State> {
    var _ :- Need(0 < amount);
    var before := if owner in s.funds then s.funds[owner] else 0;
    Some(s.(funds := s.funds[owner := before + amount]))
  }

  /** REX promised to the owner's open sell order. */
  function InSellOrder(s: State, owner: Name): int {
    if owner in s.orders && s.orders[owner].isOpen then s.orders[owner].requested else 0
  }

  function ClosedProceeds(s: State, owner: Name): int {
    if owner in s.orders && !s.orders[owner].isOpen then s.orders[owner].proceeds else 0
  }

  /** Pays a filled order's proceeds, and any further proceeds, into the owner's fund. */
  function UpdateRexAccount(s: State, owner: Name, proceeds: int): State {
    var toFund := proceeds + ClosedProceeds(s, owner);
    var s1 := if owner in s.orders && !s.orders[owner].isOpen then s.(orders := s.orders - {owner}) else s;
    if toFund > 0 then TransferToFund(s1, owner, toFund).value else s1
  }

  // ----- the pool and its loans -----

  function RemoveLoanFromPool(p: Pool, staked: int): Pool {
    var unlent := p.unlent + staked;
    var lent := p.lent - staked;
    p.(rent := p.rent - Bancor.Output(p.unlent, p.rent, staked),
       unlent := unlent, lent := lent, lendable := unlent + lent)
  }

  ghost function AddLoanToPool(s: State, payment: int, rented: int, isNew: bool): State
    requires s.pool.Some?
  {
    var s1 := AddToReturnPool(s, payment);
    var p := s1.pool.value;
    s1.(pool := Some(p.(rent := p.rent + payment, unlent := p.unlent - rented, lent := p.lent + rented,
                        loanNum := if isNew then p.loanNum + 1 else p.loanNum)))
  }

  function Rented(p: Pool, payment: int): int {
    Bancor.Output(p.rent, p.unlent, payment)
  }

  /** The first loan of the byexpr index. */
  function FirstLoan(loans: LoanTable): (n: nat)
    requires loans != map[]
    ensures n in loans && forall m | m in loans :: loans[n].expiration <= loans[m].expiration
  {
    var index: map<int, int> := map m | m in loans :: loans[m].expiration;
    assert index != map[] by {
      var some :| some in loans;
      assert some in index;
    }
    assert forall m | m in loans :: m in index;
    First(index)
  }

  function ResourceDelta(kind: Kind, delta: int): (r: (int, int)) {
    if kind == Net then (delta, 0) else (0, delta)
  }

  function AdjustLoan(res: ResourceTable, receiver: Name, kind: Kind, delta: int): Option<ResourceTable> {
    Adjust(res, receiver, ResourceDelta(kind, delta).0, ResourceDelta(kind, delta).1)
  }

  predicate Renews(s: State, loan: Loan)
    requires s.pool.Some?
  {
    && loan.payment <= loan.balance
    && loan.payment < Rented(s.pool.value, loan.payment)
    && s.LoansAvailable()
  }

  ghost function RenewLoan(s: State, kind: Kind, n: nat): Option<State>
    requires s.pool.Some? && n in s.Loans(kind)
  {
    var loan := s.Loans(kind)[n];
    var rented := Rented(s.pool.value, loan.payment);
    var s1 := AddLoanToPool(s, loan.payment, rented, false);
    var loan' := loan.(staked := rented, expiration := loan.expiration + THIRTY_DAYS,
                       balance := loan.balance - loan.payment);
    var res :- AdjustLoan(s.resources, loan.receiver, kind, rented - loan.staked);
    Some(s1.WithLoans(kind, s.Loans(kind)[n := loan']).(resources := res))
  }

  /** Closing refunds what is left of the loan's balance. */
  function CloseLoan(s: State, kind: Kind, n: nat): Option<State>
    requires n in s.Loans(kind)
  {
    var loan := s.Loans(kind)[n];
    var s1 := if loan.balance > 0 then TransferToFund(s, loan.from, loan.balance).value else s;
    var res :- AdjustLoan(s.resources, loan.receiver, kind, -loan.staked);
    Some(s1.WithLoans(kind, s.Loans(kind) - {n}).(resources := res))
  }

  /** The loan's tokens return to the pool; then the loan is renewed at the current price or closed. */
  ghost function ProcessExpiredLoan(s: State, kind: Kind, n: nat): Option<State>
    requires s.pool.Some? && n in s.Loans(kind)
    ensures var r := ProcessExpiredLoan(s, kind, n); r.Some? ==> r.value.pool.Some?
  {
    var loan := s.Loans(kind)[n];
    var s1 := s.(pool := Some(RemoveLoanFromPool(s.pool.value, loan.staked)));
    if Renews(s1, loan) then RenewLoan(s1, kind, n) else CloseLoan(s1, kind, n)
  }

  predicate HasExpired(s: State, kind: Kind) {
    var loans := s.Loans(kind);
    loans != map[] && loans[FirstLoan(loans)].expiration <= s.now
  }

  ghost function RunLoans(s: State, kind: Kind, max: nat): Option<State>
    requires s.pool.Some?
    ensures var r := RunLoans(s, kind, max); r.Some? ==> r.value.pool.Some?
    decreases max
  {
    if max == 0 || !HasExpired(s, kind) then Some(s) else
    var s1 :- ProcessExpiredLoan(s, kind, FirstLoan(s.Loans(kind)));
    RunLoans(s1, kind, max - 1)
  }

  // ----- sell orders -----

  datatype Fill = Fill(state: State, success: bool, proceeds: int)

  function SoldTo(p: Pool, rex: int, proceeds: int): Pool {
    p.(rex := p.rex - rex, lendable := p.lendable - proceeds, unlent := p.lendable - proceeds - p.lent)
  }

  /** Sells REX at the pool price if enough tokens are neither lent nor held back; dividing by an empty
      pool aborts. */
  function FillRexOrder(s: State, owner: Name, rex: int): Option<Fill>
    requires s.pool.Some? && owner in s.balances
  {
    var p := s.pool.value;
    var _ :- Need(p.rex != 0);
    var proceeds := rex * p.lendable / p.rex;
    if proceeds <= p.unlent - p.lent / 10 then
      Some(Fill(s.(pool := Some(SoldTo(p, rex, proceeds)),
                   balances := s.balances[owner := RexBalances.Sell(s.balances[owner], rex)]),
                true, proceeds))
    else Some(Fill(s, false, 0))
  }

  /** The first of these orders in the bytime index. */
  function FirstOrder(orders: map<Name, Order>, todo: set<Name>): (n: Name)
    requires todo != {} && todo <= orders.Keys
    ensures n in todo && forall m | m in todo :: orders[n].time <= orders[m].time
  {
    var index: map<int, int> := map m | m in todo :: orders[m].time;
    assert index != map[] by {
      var some :| some in todo;
      assert some in index;
    }
    assert forall m | m in todo :: m in index;
    First(index)
  }

  function OpenOrders(orders: map<Name, Order>): set<Name> {
    set n | n in orders && orders[n].isOpen
  }

  /** Tries one queued order; its proceeds wait in the closed order. */
  function FillQueued(s: State, owner: Name): Option<State>
    requires s.pool.Some? && owner in s.orders
    ensures var r := FillQueued(s, owner);
            r.Some? ==> r.value.pool.Some? && r.value.orders.Keys == s.orders.Keys
  {
    if owner !in s.balances then Some(s) else
    var fill :- FillRexOrder(s, owner, s.orders[owner].requested);
    if fill.success
    then Some(fill.state.(orders := s.orders[owner := s.orders[owner].(proceeds := fill.proceeds, isOpen := false)]))
    else Some(s)
  }

  function FillOrders(s: State, todo: set<Name>, max: nat): Option<State>
    requires s.pool.Some? && todo <= s.orders.Keys
    ensures var r := FillOrders(s, todo, max); r.Some? ==> r.value.pool.Some?
    decreases max
  {
    if max == 0 || todo == {} then Some(s) else
    var owner := FirstOrder(s.orders, todo);
    var s1 :- FillQueued(s, owner);
    FillOrders(s1, todo - {owner}, max - 1)
  }

  // ----- maintenance -----

  ghost function RunRex(s: State, max: nat): Option<State>
    ensures var r := RunRex(s, max); r.Some? ==> s.pool.Some? && r.value.pool.Some?
  {
    var _ :- Need(s.pool.Some?);
    var s1 := CollectNamebids(UpdateRexPool(s));
    var s2 :- RunLoans(s1, Cpu, max);
    var s3 :- RunLoans(s2, Net, max);
    FillOrders(s3, OpenOrders(s3.orders), max)
  }

  // ----- buying -----

  datatype Bought = Bought(pool: Pool, received: int)

  function AddToRexPool(pool: Option<Pool>, payment: int): Option<Bought> {
    if pool.None? then
      Some(Bought(Pool(0, payment, INIT_TOTAL_RENT, payment, payment * REX_RATIO, 0, 0), payment * REX_RATIO))
    else if pool.value.rex <= 0 then
      Some(Bought(pool.value.(lendable := payment, lent := 0, unlent := payment, rent := INIT_TOTAL_RENT,
                              rex := payment * REX_RATIO), payment * REX_RATIO))
    else
      var p := pool.value;
      var _ :- Need(p.lendable > 0);
      var lendable := p.lendable + payment;
      var rex := lendable * p.rex / p.lendable;
      var _ :- Need(lendable - p.lent >= 0);
      Some(Bought(p.(lendable := lendable, rex := rex, unlent := lendable - p.lent), rex - p.rex))
  }

  function BalanceOrNew(balances: map<Name, RexBalances.Balance>, owner: Name): RexBalances.Balance {
    if owner in balances then balances[owner] else RexBalances.Balance(0, 0, [])
  }

  /** The payment enters the pool and the REX enters the owner's balance. */
  function Purchase(s: State, owner: Name, payment: int): Option<State> {
    var bought :- AddToRexPool(s.pool, payment);
    Some(s.(pool := Some(bought.pool),
            balances := s.balances[owner := RexBalances.Buy(BalanceOrNew(s.balances, owner), bought.received, s.Seconds())]))
  }

  // ----- actions -----

  function Deposit(s: State, owner: Name, amount: int): Option<State> {
    var s1 :- TransferToFund(s, owner, amount);
    Some(s1.(tokens := s1.tokens + amount))
  }

  function Withdraw(s: State, owner: Name, amount: int): Option<State> {
    var _ :- Need(0 < amount);
    var s1 :- TransferFromFund(UpdateRexAccount(s, owner, 0), owner, amount);
    var _ :- Need(amount <= s1.tokens);
    Some(s1.(tokens := s1.tokens - amount))
  }

  /** `votes` is the voting requirement for buying REX. */
  ghost function BuyRex(s: State, from: Name, amount: int, votes: bool): Option<State> {
    var _ :- Need(0 < amount && votes);
    var s1 :- TransferFromFund(s, from, amount);
    var s2 :- Purchase(s1, from, amount);
    var s3 :- RunRex(s2, 2);
    Some(UpdateRexAccount(s3, from, 0))
  }

  /** unstaketorex once the delegation has been lowered: staked tokens move from eosio.stake to the pool. */
  ghost function BuyWithStake(s: State, owner: Name, receiver: Name, net: int, cpu: int, votes: bool): Option<State> {
    var _ :- Need(0 <= net && 0 <= cpu && 0 < net + cpu && votes);
    var res :- Adjust(s.resources, receiver, -net, -cpu);
    var s1 := s.(resources := res, tokens := s.tokens + net + cpu);
    var s2 :- Purchase(s1, owner, net + cpu);
    var s3 :- RunRex(s2, 2);
    Some(UpdateRexAccount(s3, owner, 0))
  }

  /** Queues REX that could not be sold, on top of what the owner already queued. */
  function Enqueue(orders: map<Name, Order>, owner: Name, rex: int, now: int): map<Name, Order> {
    if owner in orders then orders[owner := orders[owner].(requested := orders[owner].requested + rex)]
    else orders[owner := Order(rex, 0, now, true)]
  }

  function SellMatured(s1: State, from: Name, rex: int): Option<State>
    requires s1.pool.Some?
  {
    var _ :- Need(from in s1.balances && rex > 0);
    var s2 := s1.(balances := s1.balances[from := RexBalances.ProcessMaturities(s1.balances[from], s1.Seconds())]);
    var _ :- Need(rex <= s2.balances[from].matured);
    var fill :- FillRexOrder(s2, from, rex);
    var _ :- Need(fill.success ==> fill.proceeds != 0);
    var s3 := UpdateRexAccount(fill.state, from, fill.proceeds);
    var _ :- Need(fill.success || from != B1);
    var s4 := if fill.success then s3 else s3.(orders := Enqueue(s3.orders, from, rex, s1.now));
    var _ :- Need(InSellOrder(s4, from) <= s4.balances[from].matured);
    Some(s4)
  }

  ghost function SellRex(s: State, from: Name, rex: int): Option<State> {
    var s1 :- RunRex(s, 2);
    SellMatured(s1, from, rex)
  }

  function CancelOrder(s: State, owner: Name): Option<State> {
    var _ :- Need(owner in s.orders && s.orders[owner].isOpen);
    Some(s.(orders := s.orders - {owner}))
  }

  ghost function GrantLoan(s1: State, kind: Kind, from: Name, receiver: Name, payment: int, fund: int): Option<State>
    requires s1.pool.Some?
  {
    var _ :- Need(s1.LoansAvailable() && 0 < payment && 0 <= fund);
    var s2 :- TransferFromFund(s1, from, payment + fund);
    var rented := Rented(s2.pool.value, payment);
    var _ :- Need(payment < rented);
    var s3 := AddLoanToPool(s2, payment, rented, true);
    var n := s3.pool.value.loanNum;
    var _ :- Need(n !in s3.Loans(kind));
    var loan := Loan(from, receiver, payment, fund, rented, s1.now + THIRTY_DAYS);
    var res :- AdjustLoan(s3.resources, receiver, kind, rented);
    Some(s3.WithLoans(kind, s3.Loans(kind)[n := loan]).(resources := res))
  }

  ghost function Rent(s: State, kind: Kind, from: Name, receiver: Name, payment: int, fund: int): Option<State> {
    var s1 :- RunRex(s, 2);
    GrantLoan(s1, kind, from, receiver, payment, fund)
  }

  function FundLoan(s: State, kind: Kind, from: Name, n: nat, payment: int): Option<State> {
    var s1 :- TransferFromFund(s, from, payment);
    var loans := s1.Loans(kind);
    var _ :- Need(n in loans && loans[n].from == from && loans[n].expiration > s.now);
    Some(s1.WithLoans(kind, loans[n := loans[n].(balance := loans[n].balance + payment)]))
  }

  function DefundLoan(s: State, kind: Kind, from: Name, n: nat, amount: int): Option<State> {
    var loans := s.Loans(kind);
    var _ :- Need(n in loans && loans[n].from == from && loans[n].expiration > s.now);
    var _ :- Need(loans[n].balance >= amount);
    TransferToFund(s.WithLoans(kind, loans[n := loans[n].(balance := loans[n].balance - amount)]), from, amount)
  }

  ghost function UpdateRex(s: State, owner: Name): Option<State> {
    var s1 :- RunRex(s, 2);
    var _ :- Need(owner in s1.balances);
    var s2 := UpdateRexAccount(s1, owner, 0);
    Some(s2.(balances := s2.balances[owner := RexBalances.ProcessMaturities(s2.balances[owner], s.Seconds())]))
  }

  function SetRex(s: State, balance: int): Option<State> {
    var _ :- Need(balance > 0 && s.pool.Some?);
    Some(s.(pool := Some(s.pool.value.(rent := balance))))
  }

  ghost function Consolidate(s: State, owner: Name): Option<State> {
    var s1 :- RunRex(s, 2);
    var _ :- Need(owner in s1.balances);
    var s2 := UpdateRexAccount(s1, owner, 0);
    var b := RexBalances.Consolidate(s2.balances[owner], InSellOrder(s2, owner), s.Seconds());
    Some(s2.(balances := s2.balances[owner := b]))
  }

  ghost function MoveToSavings(s: State, owner: Name, rex: int): Option<State> {
    var s1 :- RunRex(s, 2);
    var _ :- Need(owner in s1.balances && rex > 0);
    var s2 := UpdateRexAccount(s1, owner, 0);
    var b := s2.balances[owner];
    var _ :- Need(rex + InSellOrder(s2, owner) + RexBalances.SavingsOf(b) <= b.rex);
    var b' :- RexBalances.MoveToSavings(b, rex, InSellOrder(s2, owner), s.Seconds());
    Some(s2.(balances := s2.balances[owner := b']))
  }

  ghost function MoveFromSavings(s: State, owner: Name, rex: int): Option<State> {
    var s1 :- RunRex(s, 2);
    var _ :- Need(owner in s1.balances && rex > 0);
    var b := s1.balances[owner];
    var _ :- Need(rex <= RexBalances.SavingsOf(b));
    var s2 := s1.(balances := s1.balances[owner := RexBalances.MoveFromSavings(b, rex, s.Seconds())]);
    Some(UpdateRexAccount(s2, owner, 0))
  }

  predicate HasLoans(loans: LoanTable, owner: Name) {
    exists n | n in loans :: loans[n].from == owner
  }

  ghost function CloseRex(s: State, owner: Name): Option<State> {
    var s1 :- if s.pool.Some? then RunRex(s, 2) else Some(s);
    var s2 := UpdateRexAccount(s1, owner, 0);
    var s3 :=
      if !HasLoans(s2.cpu, owner) && !HasLoans(s2.net, owner) && owner in s2.funds && s2.funds[owner] == 0
      then s2.(funds := s2.funds - {owner}) else s2;
    var _ :- Need(owner in s3.balances ==> s3.balances[owner].rex == 0);
    Some(s3.(balances := s3.balances - {owner}))
  }

  datatype Action =
    | DepositCall(owner: Name, amount: int)
    | WithdrawCall(owner: Name, amount: int)
    | BuyRexCall(owner: Name, amount: int, votes: bool)
    | SellRexCall(owner: Name, rex: int)
    | CancelOrderCall(owner: Name)
    | RentCall(kind: Kind, owner: Name, receiver: Name, payment: int, fund: int)
    | FundLoanCall(kind: Kind, owner: Name, loan: nat, payment: int)
    | DefundLoanCall(kind: Kind, owner: Name, loan: nat, payment: int)
    | UpdateRexCall(owner: Name)
    | SetRexCall(balance: int)
    | RexExecCall(max: nat)
    | ConsolidateCall(owner: Name)
    | MoveToSavingsCall(owner: Name, rex: int)
    | MoveFromSavingsCall(owner: Name, rex: int)
    | CloseRexCall(owner: Name)
    | ChannelFeeCall(amount: int)
    | ChannelNamebidCall(bid: int)
    | Donate(amount: int)
    | Advance(time: int)

  /** One action; `Advance` is the passing of time and `Donate` a plain transfer to eosio.rex. */
  ghost function Step(s: State, a: Action): Option<State> {
    match a
    case DepositCall(owner, amount) => Deposit(s, owner, amount)
    case WithdrawCall(owner, amount) => Withdraw(s, owner, amount)
    case BuyRexCall(owner, amount, votes) => BuyRex(s, owner, amount, votes)
    case SellRexCall(owner, rex) => SellRex(s, owner, rex)
    case CancelOrderCall(owner) => CancelOrder(s, owner)
    case RentCall(kind, owner, receiver, payment, fund) => Rent(s, kind, owner, receiver, payment, fund)
    case FundLoanCall(kind, owner, n, payment) => FundLoan(s, kind, owner, n, payment)
    case DefundLoanCall(kind, owner, n, payment) => DefundLoan(s, kind, owner, n, payment)
    case UpdateRexCall(owner) => UpdateRex(s, owner)
    case SetRexCall(balance) => SetRex(s, balance)
    case RexExecCall(max) => RunRex(s, max)
    case ConsolidateCall(owner) => Consolidate(s, owner)
    case MoveToSavingsCall(owner, rex) => MoveToSavings(s, owner, rex)
    case MoveFromSavingsCall(owner, rex) => MoveFromSavings(s, owner, rex)
    case CloseRexCall(owner) => CloseRex(s, owner)
    case ChannelFeeCall(amount) => ChannelToRex(s, amount)
    case ChannelNamebidCall(bid) => ChannelNamebid(s, bid)
    case Donate(amount) => if 0 < amount then Some(s.(tokens := s.tokens + amount)) else None
    case Advance(time) => if s.now <= time && RexReturns.ValidTime(time / 1_000_000) then Some(s.(now := time)) else None
  }
}
