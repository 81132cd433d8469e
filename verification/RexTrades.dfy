/** The price of REX: what a purchase yields, when a sale is filled and for how much, and what is queued otherwise. */
module RexTrades {
  import opened Tables
  import opened Resources
  import opened Rex
  import opened RexInvariants
  import RexActions
  import Bancor
  import RexBalances
  import RexMaturities
  import RexReturns

  /** `rex` are worth `q` tokens at the pool's price, rounded down. */
  predicate IsWorth(p: Pool, rex: int, q: int) {
    q * p.rex <= rex * p.lendable < (q + 1) * p.rex
  }

  /** Paying `q` tokens leaves a tenth of what is lent unlent. */
  predicate Affordable(p: Pool, q: int) {
    p.lent < 10 * (p.unlent - q + 1)
  }

  lemma WorthExists(p: Pool, rex: int)
    requires 0 < p.rex
    ensures IsWorth(p, rex, rex * p.lendable / p.rex)
  {
    Bancor.DivBounds(rex * p.lendable, p.rex);
  }

  lemma WorthIsUnique(p: Pool, rex: int, q: int)
    requires 0 < p.rex && IsWorth(p, rex, q)
    ensures rex * p.lendable / p.rex == q
  {
    Bancor.QuotientIs(rex * p.lendable, p.rex, q);
  }

  // ----- buying -----

  /** The first REX, and the first after the pool ran empty, costs a token per ten thousand units. Later a purchase yields the
      most REX that leaves the holders' price where it is. */
  lemma BoughtExactly(pool: Option<Pool>, payment: int)
    requires (pool.Some? ==> ValidPool(pool.value)) && 0 < payment
    ensures var r := AddToRexPool(pool, payment);
            && r.Some?
            && var p, x := r.value.pool, r.value.received;
               if pool.Some? && 0 < pool.value.rex then
                 && (pool.value.rex + x) * pool.value.lendable <= (pool.value.lendable + payment) * pool.value.rex
                      < (pool.value.rex + x + 1) * pool.value.lendable
                 && p == pool.value.(lendable := pool.value.lendable + payment, unlent := pool.value.unlent + payment,
                                     rex := pool.value.rex + x)
               else
                 x == 10_000 * payment && p.rex == x && p.rent == 20_000_0000
                 && p.lendable == payment && p.unlent == payment && p.lent == 0
  {
    RexActions.BoughtValid(pool, payment);
    if pool.Some? && 0 < pool.value.rex {
      Bancor.DivBounds((pool.value.lendable + payment) * pool.value.rex, pool.value.lendable);
    }
  }

  // ----- filling -----

  /** A sale is filled exactly if a tenth of what is lent stays unlent; then the seller's matured REX goes, and the pool pays
      what the REX is worth. */
  lemma FillsExactly(s: State, owner: Name, rex: int, q: int, o: Claims, skip: set<Name>)
    requires InvExcept(s, o, skip) && s.pool.Some? && owner in s.balances
    requires 0 < rex <= s.balances[owner].matured && IsWorth(s.pool.value, rex, q)
    ensures var r, p, b := FillRexOrder(s, owner, rex), s.pool.value, s.balances[owner];
            && r.Some? && r.value.state.pool.Some?
            && r.value.success == Affordable(p, q)
            && (r.value.success ==>
                  && r.value.proceeds == q
                  && r.value.state == s.(pool := Some(p.(rex := p.rex - rex, lendable := p.lendable - q, unlent := p.unlent - q)),
                                         balances := s.balances[owner := b.(rex := b.rex - rex, matured := b.matured - rex)]))
            && (!r.value.success ==> r.value.state == s && r.value.proceeds == 0)
  {
    hide RexReturns.Valid, RexBalances.Valid, Ledger;
    RexAtMostPool(s, owner, o, skip);
    WorthIsUnique(s.pool.value, rex, q);
  }

  /** A queued order is closed, with its proceeds, exactly if it can be filled; otherwise nothing changes. */
  lemma QueuedFillsExactly(s: State, owner: Name, q: int, o: Claims)
    requires Inv(s, o) && s.pool.Some? && owner in s.orders && s.orders[owner].isOpen
    requires IsWorth(s.pool.value, s.orders[owner].requested, q)
    ensures var r, p := FillQueued(s, owner), s.pool.value;
            && r.Some?
            && if Affordable(p, q) then
                 && r.value.orders == s.orders[owner := s.orders[owner].(proceeds := q, isOpen := false)]
                 && r.value.pool == Some(p.(rex := p.rex - s.orders[owner].requested, lendable := p.lendable - q, unlent := p.unlent - q))
               else r.value == s
  {
    QueuedHasBalance(s, owner, o);
    FillsExactly(s, owner, s.orders[owner].requested, q, o, {});
    hide FillRexOrder, InvExcept, Affordable, IsWorth;
  }

  lemma QueuedHasBalance(s: State, owner: Name, o: Claims)
    requires Inv(s, o) && owner in s.orders && s.orders[owner].isOpen
    ensures owner in s.balances && 0 < s.orders[owner].requested <= s.balances[owner].matured
  {
    hide RexReturns.Valid, RexBalances.Valid, Ledger, ValidPool, ValidLoans, ExpireInTime;
    assert Backed(s.orders[owner], owner, s.balances);
  }

  /** Maintenance that reaches the queue tries the oldest order first: if that one can be filled, it is. */
  lemma OldestFirst(s: State, owner: Name, q: int, max: nat, o: Claims)
    requires Inv(s, o) && s.pool.Some? && owner in OpenOrders(s.orders) && 0 < max
    requires forall m | m in OpenOrders(s.orders) && m != owner :: s.orders[owner].time < s.orders[m].time
    requires IsWorth(s.pool.value, s.orders[owner].requested, q) && Affordable(s.pool.value, q)
    ensures var r := FillOrders(s, OpenOrders(s.orders), max);
            && r.Some? && owner in r.value.orders
            && r.value.orders[owner] == s.orders[owner].(proceeds := q, isOpen := false)
  {
    hide InvExcept, FillQueued, Surplus, IsWorth, Affordable;
    var todo := OpenOrders(s.orders);
    assert FirstOrder(s.orders, todo) == owner;
    QueuedFillsExactly(s, owner, q, o);
    FillQueuedKeeps(s, owner, o);
    var s1 := FillQueued(s, owner).value;
    FillOrdersKeeps(s1, todo - {owner}, max - 1, o);
    OthersStay(s1, todo - {owner}, max - 1, owner);
  }

  lemma {:induction false} OthersStay(s: State, todo: set<Name>, max: nat, owner: Name)
    requires s.pool.Some? && todo <= s.orders.Keys && owner !in todo && owner in s.orders
    requires FillOrders(s, todo, max).Some?
    ensures var r := FillOrders(s, todo, max).value; owner in r.orders && r.orders[owner] == s.orders[owner]
    decreases max
  {
    hide FillRexOrder;
    if 0 < max && todo != {} {
      var n := FirstOrder(s.orders, todo);
      FillFrame(s, n);
      OthersStay(FillQueued(s, n).value, todo - {n}, max - 1, owner);
    }
  }

  lemma FillFrame(s: State, n: Name)
    requires s.pool.Some? && n in s.orders && FillQueued(s, n).Some?
    ensures var r := FillQueued(s, n).value; forall m | m in s.orders && m != n :: m in r.orders && r.orders[m] == s.orders[m]
  {
  }

  // ----- selling -----

  /** REX an owner will have matured by `t` without doing anything. */
  function MaturedIn(balances: map<Name, RexBalances.Balance>, n: Name, t: int): int {
    if n in balances then RexMaturities.MaturedBy(balances[n], t) else 0
  }

  /** REX the owner could sell now, and what the owner has in the fund or can collect. */
  function Sellable(s: State, owner: Name): int {
    MaturedIn(s.balances, owner, s.Seconds())
  }

  function Collectable(s: State, owner: Name): int {
    (if owner in s.funds then s.funds[owner] else 0) + ClosedProceeds(s, owner)
  }

  /** Selling, with maintenance done: a sale the pool can afford is paid into the fund at once, and refused only if it is worth
      nothing or takes REX that the open order needs; any other sale is added to the open order, which keeps its place in the
      queue, or queued anew; b1 may not queue. */
  lemma SellsExactly(s: State, from: Name, rex: int, q: int, o: Claims)
    requires Inv(s, o) && s.pool.Some? && 0 < rex <= Sellable(s, from) && IsWorth(s.pool.value, rex, q)
    ensures var r := SellMatured(s, from, rex);
            var open, fits := InSellOrder(s, from), Affordable(s.pool.value, q);
            && (r.Some? <==> open + rex <= Sellable(s, from) && (if fits then q != 0 else from != B1))
            && (r.Some? && fits ==>
                  && Collectable(r.value, from) == Collectable(s, from) + q
                  && r.value.pool.Some? && r.value.pool.value.rex == s.pool.value.rex - rex
                  && r.value.pool.value.lendable == s.pool.value.lendable - q
                  && InSellOrder(r.value, from) == open)
            && (r.Some? && !fits ==>
                  && Collectable(r.value, from) == Collectable(s, from) && r.value.pool == s.pool
                  && from in r.value.orders && r.value.orders[from].isOpen && r.value.orders[from].requested == open + rex
                  && r.value.orders[from].time == if open == 0 then s.now else s.orders[from].time)
  {
    hide InvExcept, UpdateRexAccount, FillRexOrder, Enqueue, Affordable, IsWorth, Surplus;
    assert from in s.balances;
    var b := RexBalances.ProcessMaturities(s.balances[from], s.Seconds());
    var s2 := s.(balances := s.balances[from := b]);
    OwnerMatures(s, from, o);
    RexActions.ProcessOwnerKeeps(s, from, o);
    if rex <= b.matured {
      FillsExactly(s2, from, rex, q, o, {});
      var fill := FillRexOrder(s2, from, rex).value;
      FillIsQuiet(s2, from, rex);
      FillKeeps(s2, from, rex, o, {});
      ClosedNonNegative(s, from, o);
      AccountExactly(fill.state, from, fill.proceeds);
      RexActions.OpenRequestPositive(s, from, o);
      EnqueueExactly(UpdateRexAccount(fill.state, from, fill.proceeds), from, rex);
    }
  }

  /** Selling with an amount out of range is refused. */
  lemma SellsOnlyMatured(s: State, from: Name, rex: int, o: Claims)
    requires Inv(s, o) && s.pool.Some? && !(0 < rex <= Sellable(s, from))
    ensures SellMatured(s, from, rex).None?
  {
    hide InvExcept;
    if from in s.balances {
      OwnerMatures(s, from, o);
    }
  }

  lemma OwnerMatures(s: State, owner: Name, o: Claims)
    requires Inv(s, o) && owner in s.balances
    ensures RexBalances.ProcessMaturities(s.balances[owner], s.Seconds()).matured == Sellable(s, owner)
  {
    hide RexReturns.Valid, RexBalances.Valid, Ledger, ValidPool, ValidLoans, ExpireInTime;
    RexMaturities.ProcessMaturesDue(s.balances[owner], s.Seconds());
  }

  lemma FillIsQuiet(s: State, owner: Name, rex: int)
    requires s.pool.Some? && owner in s.balances && FillRexOrder(s, owner, rex).Some?
    ensures var f := FillRexOrder(s, owner, rex).value.state;
            f == s.(pool := f.pool, balances := f.balances) && f.pool.Some? && f.balances.Keys == s.balances.Keys
  {
  }

  /** Collecting pays what waits, and any further proceeds, into the owner's fund; nobody else's. */
  lemma AccountExactly(s: State, owner: Name, proceeds: int)
    requires 0 <= proceeds && 0 <= ClosedProceeds(s, owner)
    ensures var s' := UpdateRexAccount(s, owner, proceeds);
            && s' == s.(orders := s'.orders, funds := s'.funds)
            && Collectable(s', owner) == Collectable(s, owner) + proceeds && ClosedProceeds(s', owner) == 0
            && InSellOrder(s', owner) == InSellOrder(s, owner)
            && (owner in s'.orders <==> owner in s.orders && s.orders[owner].isOpen)
            && (owner in s'.orders ==> s'.orders[owner] == s.orders[owner])
            && (owner in s.funds ==> owner in s'.funds)
  {
    hide TransferToFund;
    PaidInto(if owner in s.orders && !s.orders[owner].isOpen then s.(orders := s.orders - {owner}) else s,
             owner, proceeds + ClosedProceeds(s, owner));
  }

  lemma PaidInto(s: State, owner: Name, amount: int)
    ensures TransferToFund(s, owner, amount).Some? <==> 0 < amount
    ensures 0 < amount ==>
              var s' := TransferToFund(s, owner, amount).value;
              && s' == s.(funds := s'.funds) && Collectable(s', owner) == Collectable(s, owner) + amount && owner in s'.funds
              && forall n: Name | n != owner :: Collectable(s', n) == Collectable(s, n)
  {
  }

  lemma OthersCollect(s: State, owner: Name, proceeds: int, n: Name)
    requires n != owner
    ensures Collectable(UpdateRexAccount(s, owner, proceeds), n) == Collectable(s, n)
  {
    hide TransferToFund;
    PaidInto(if owner in s.orders && !s.orders[owner].isOpen then s.(orders := s.orders - {owner}) else s,
             owner, proceeds + ClosedProceeds(s, owner));
  }

  lemma ClosedNonNegative(s: State, owner: Name, o: Claims)
    requires Inv(s, o)
    ensures 0 <= ClosedProceeds(s, owner)
  {
    hide RexReturns.Valid, RexBalances.Valid, Ledger, ValidPool, ValidLoans, ExpireInTime;
  }

  lemma EnqueueExactly(s: State, owner: Name, rex: int)
    requires 0 < rex && (owner in s.orders ==> s.orders[owner].isOpen)
    ensures var s' := s.(orders := Enqueue(s.orders, owner, rex, s.now));
            && owner in s'.orders && s'.orders[owner].isOpen
            && InSellOrder(s', owner) == s'.orders[owner].requested == InSellOrder(s, owner) + rex
            && s'.orders[owner].time == (if owner in s.orders then s.orders[owner].time else s.now)
            && (forall n: Name :: Collectable(s', n) == Collectable(s, n))
  {
  }

  /** Cancelling a freshly queued order takes it back without a trace. */
  lemma CancelUndoes(s: State, owner: Name, rex: int)
    requires owner !in s.orders
    ensures CancelOrder(s.(orders := Enqueue(s.orders, owner, rex, s.now)), owner) == Some(s)
  {
    assert Enqueue(s.orders, owner, rex, s.now) - {owner} == s.orders;
  }

  /** Only an open order can be cancelled; its REX is free again, and nothing else changes. */
  lemma CancelExactly(s: State, owner: Name, o: Claims)
    requires Inv(s, o)
    ensures var r := CancelOrder(s, owner);
            && (r.Some? <==> 0 < InSellOrder(s, owner))
            && (r.Some? ==>
                  && InSellOrder(r.value, owner) == 0 && owner !in r.value.orders
                  && s == r.value.(orders := r.value.orders[owner := s.orders[owner]]))
  {
    RexActions.OpenRequestPositive(s, owner, o);
    hide InvExcept;
    if owner in s.orders {
      assert (s.orders - {owner})[owner := s.orders[owner]] == s.orders;
    }
  }
}
