/** The REX tables as the contract holds them, and its methods as the contract runs them, row by row and loop by
    loop. Each method is proved to do what the specification in module Rex says. A method that returns false
    has failed a check: the chain then discards everything the action wrote. */
module RexContract {
  import opened Tables
  import opened Resources
  import opened Rex
  import opened RexInvariants
  import opened RexActions
  import opened RexTrades
  import Bancor
  import R = RexReturns
  import B = RexBalances

  /** Erases the buckets whose 30 days are over, oldest first, and adds up their rates and what they
      were credited beyond their 30 days. */
  method ExpireBuckets(all: map<int, int>, time: int) returns (buckets: map<int, int>, expiredRate: int, surplus: int)
    requires ValidRates(all)
    requires time % R.DIST_INTERVAL == 0
    ensures buckets == R.LiveBuckets(all, time)
    ensures R.TotalRate(all) == R.TotalRate(buckets) + expiredRate && 0 <= expiredRate
    ensures R.TotalUnpaid(all, time) == R.TotalUnpaid(buckets, time) - surplus && 0 <= surplus
  {
    var threshold := time - R.PAYOUT_TIME;
    buckets, expiredRate, surplus := all, 0, 0;
    while buckets != map[] && Least(buckets.Keys) <= threshold
      invariant buckets.Keys <= all.Keys && forall k | k in buckets :: buckets[k] == all[k]
      invariant forall k | k in all :: R.Live(k, time) ==> k in buckets
      invariant R.TotalRate(all) == R.TotalRate(buckets) + expiredRate && 0 <= expiredRate
      invariant R.TotalUnpaid(all, time) == R.TotalUnpaid(buckets, time) - surplus && 0 <= surplus
      decreases |buckets|
    {
      var first := Least(buckets.Keys);
      var overtime := R.Elapsed(time, first + R.PAYOUT_TIME);
      Overtime(buckets, first, time);
      surplus := surplus + buckets[first] * overtime;
      expiredRate := expiredRate + buckets[first];
      buckets := buckets - {first};
    }
  }

  lemma Overtime(buckets: map<int, int>, first: int, time: int)
    requires first in buckets && first % R.BUCKET_INTERVAL == 0 && time % R.DIST_INTERVAL == 0
    requires 0 <= buckets[first] && first <= time - R.PAYOUT_TIME
    ensures var overtime := R.Elapsed(time, first + R.PAYOUT_TIME);
            && R.TotalUnpaid(buckets, time) == R.TotalUnpaid(buckets - {first}, time) - buckets[first] * overtime
            && 0 <= buckets[first] * overtime
    ensures R.TotalRate(buckets) == R.TotalRate(buckets - {first}) + buckets[first]
  {
    SumRemove(buckets, first, R.UnpaidOf(time));
    SumRemove(buckets, first, R.RateOf());
    ElapsedOvertime(first, time);
    hide R.Elapsed;
    PaidTooMuch(buckets[first], R.Elapsed(time, first + R.PAYOUT_TIME));
  }

  lemma ElapsedOvertime(first: int, time: int)
    requires first <= time - R.PAYOUT_TIME
    ensures R.Elapsed(time, first) == R.Elapsed(time, first + R.PAYOUT_TIME) + R.TOTAL_INTERVALS
    ensures 0 <= R.Elapsed(time, first + R.PAYOUT_TIME)
  {
  }

  lemma PaidTooMuch(rate: int, overtime: int)
    requires 0 <= rate && 0 <= overtime
    ensures rate * (R.TOTAL_INTERVALS - (overtime + R.TOTAL_INTERVALS)) == -(rate * overtime) && 0 <= rate * overtime
  {
  }

  ghost predicate ValidRates(buckets: map<int, int>) {
    forall k | k in buckets :: k % R.BUCKET_INTERVAL == 0 && 0 <= buckets[k]
  }

  lemma RatesValid(rp: R.ReturnPool, now: int, time: int)
    requires R.Valid(rp, now) && time < R.TIME_MAX
    ensures ValidRates(R.WithPending(rp, time)) && ValidRates(rp.buckets)
    ensures rp.lastDist % R.DIST_INTERVAL == 0
    ensures rp.rate == R.TotalRate(rp.buckets)
    ensures rp.proceeds == rp.pendingProceeds + R.TotalUnpaid(rp.buckets, rp.lastDist)
  {
  }

  /** The aggregates just after the pending bucket has been opened, before expired buckets are erased. */
  lemma Credited(rp: R.ReturnPool, now: int, time: int)
    requires R.Valid(rp, now) && R.ValidTime(now) && time == R.Effective(now)
    ensures var due := rp.pendingTime <= time;
            var all := R.WithPending(rp, time);
            var rate := rp.pendingProceeds / R.TOTAL_INTERVALS;
            var change := rp.rate * R.Elapsed(time, rp.lastDist)
                          + (if due then rp.pendingProceeds % R.TOTAL_INTERVALS + rate * R.Elapsed(time, rp.pendingTime) else 0);
            && R.TotalRate(all) == rp.rate + (if due then rate else 0)
            && rp.proceeds - change == (if due then 0 else rp.pendingProceeds) + R.TotalUnpaid(all, time)
  {
    R.TimeFacts(now);
    RatesValid(rp, now, time);
    R.PendingIsFresh(rp, now);
    hide R.Valid, R.TotalUnpaid, R.TotalRate;
    R.UnpaidShift(rp.buckets, rp.lastDist, time);
    Bancor.Commutes(rp.rate, R.Elapsed(time, rp.lastDist));
    if rp.pendingTime <= time {
      PendingCredited(rp, time);
    }
  }

  lemma PendingCredited(rp: R.ReturnPool, time: int)
    requires rp.pendingTime !in rp.buckets && rp.pendingTime <= time
    ensures var k, rate, all := rp.pendingTime, rp.pendingProceeds / R.TOTAL_INTERVALS, R.WithPending(rp, time);
            && R.TotalRate(all) == R.TotalRate(rp.buckets) + rate
            && R.TotalUnpaid(all, time) == R.TotalUnpaid(rp.buckets, time) + rp.pendingProceeds
                                           - rp.pendingProceeds % R.TOTAL_INTERVALS - rate * R.Elapsed(time, k)
  {
    var k, rate := rp.pendingTime, rp.pendingProceeds / R.TOTAL_INTERVALS;
    SumPut(rp.buckets, k, rate, R.UnpaidOf(time));
    SumPut(rp.buckets, k, rate, R.RateOf());
    hide R.Elapsed;
    OpenedProduct(rp.pendingProceeds, R.Elapsed(time, k));
  }

  lemma OpenedProduct(proceeds: int, e: int)
    ensures var rate := proceeds / R.TOTAL_INTERVALS;
            rate * (R.TOTAL_INTERVALS - e) == proceeds - proceeds % R.TOTAL_INTERVALS - rate * e
  {
    var rate := proceeds / R.TOTAL_INTERVALS;
    assert rate * (R.TOTAL_INTERVALS - e) == rate * R.TOTAL_INTERVALS - rate * e;
  }

  /** Opens the pending bucket if it is due, and credits what accrued since the last distribution. */
  method OpenPendingBucket(rp0: R.ReturnPool, now: int, time: int) returns (rp: R.ReturnPool, change: int)
    requires R.Valid(rp0, now) && R.ValidTime(now) && time == R.Effective(now) && rp0.lastDist < time
    ensures var all := R.WithPending(rp0, time);
            && rp == R.ReturnPool(time, if rp0.pendingTime <= time then R.TIME_MAX else rp0.pendingTime, rp.oldest,
                                  if rp0.pendingTime <= time then 0 else rp0.pendingProceeds, R.TotalRate(all), rp.proceeds, all)
            && rp.proceeds == rp.pendingProceeds + R.TotalUnpaid(all, time)
            && change == rp0.proceeds - rp.proceeds
    ensures ValidRates(rp.buckets)
    ensures time - R.PAYOUT_TIME < rp.oldest ==> R.LiveBuckets(rp.buckets, time) == rp.buckets && rp.oldest == R.Oldest(rp.buckets)
  {
    Credited(rp0, now, time);
    RatesValid(rp0, now, time);
    if time - R.PAYOUT_TIME < rp0.oldest {
      OldestIsCached(rp0, now, time);
    } else {
      NewerThanOldest(rp0, now, time);
    }
    hide R.Valid, R.TotalRate, R.TotalUnpaid, R.LiveBuckets, R.Oldest;
    rp := rp0;
    change := rp.rate * R.Elapsed(time, rp.lastDist);
    if rp.pendingTime <= time {
      var remainder := rp.pendingProceeds % R.TOTAL_INTERVALS;
      var rate := (rp.pendingProceeds - remainder) / R.TOTAL_INTERVALS;
      change := change + remainder + rate * R.Elapsed(time, rp.pendingTime);
      var oldest := if rp.pendingTime < rp.oldest then rp.pendingTime else rp.oldest;
      rp := rp.(rate := rp.rate + rate, pendingProceeds := 0, pendingTime := R.TIME_MAX, oldest := oldest,
                buckets := rp.buckets[rp.pendingTime := rate]);
    }
    rp := rp.(proceeds := rp.proceeds - change, lastDist := time);
  }

  /** The cached oldest bucket time never hides an expired bucket. */
  lemma OldestIsCached(rp: R.ReturnPool, now: int, time: int)
    requires R.Valid(rp, now) && R.ValidTime(now) && time == R.Effective(now) && rp.lastDist < time
    requires time - R.PAYOUT_TIME < rp.oldest
    ensures var all := R.WithPending(rp, time); R.LiveBuckets(all, time) == all && rp.oldest == R.Oldest(all)
    ensures rp.oldest <= rp.pendingTime
  {
    R.TimeFacts(now);
    assert rp.buckets != map[];
    var all := R.WithPending(rp, time);
    assert rp.oldest in all;
    assert forall k | k in all :: k in rp.buckets || k == rp.pendingTime;
  }

  lemma NewerThanOldest(rp: R.ReturnPool, now: int, time: int)
    requires R.Valid(rp, now) && R.ValidTime(now) && time == R.Effective(now)
    ensures rp.oldest <= rp.pendingTime
  {
  }

  /** One distribution: opens the pending bucket, erases expired ones, and keeps the aggregates in step. */
  method DistributeNow(rp0: R.ReturnPool, now: int, time: int) returns (rp: R.ReturnPool, change: int)
    requires R.Valid(rp0, now) && R.ValidTime(now) && time == R.Effective(now) && rp0.lastDist < time
    ensures rp == R.Distribute(rp0, now) && change == R.Released(rp0, now)
  {
    R.TimeFacts(now);
    R.DistributeValid(rp0, now, now);
    R.ProceedsNonNegative(R.Distribute(rp0, now), now);
    hide R.Valid;
    rp, change := OpenPendingBucket(rp0, now, time);
    if rp.oldest <= time - R.PAYOUT_TIME {
      var buckets, expiredRate, surplus := ExpireBuckets(rp.buckets, time);
      rp := rp.(buckets := buckets, oldest := if buckets != map[] then Least(buckets.Keys) else R.TIME_MIN);
      if expiredRate > 0 {
        rp := rp.(rate := rp.rate - expiredRate);
      }
      if surplus > 0 {
        change := change - surplus;
        rp := rp.(proceeds := rp.proceeds + surplus);
      }
    }
    assert rp == R.Distribute(rp0, now);
    assert !(change > 0 && rp.proceeds < 0);
    if change > 0 && rp.proceeds < 0 {
      change := change + rp.proceeds;
      rp := rp.(proceeds := 0);
    }
  }

  // ----- the bytime index of sell orders -----

  /** Closed orders sort last. */
  function ByTime(o: Order): int {
    if o.isOpen then o.time else 0xFFFF_FFFF_FFFF_FFFF
  }

  predicate Before(orders: map<Name, Order>, n: Name, m: Name)
    requires n in orders && m in orders
  {
    ByTime(orders[n]) < ByTime(orders[m]) || (ByTime(orders[n]) == ByTime(orders[m]) && n < m)
  }

  /** The first of some orders in the index. */
  function Head(orders: map<Name, Order>, among: set<Name>): (r: Option<Name>)
    requires among <= orders.Keys
    ensures r.None? <==> among == {}
    ensures r.Some? ==> r.value in among && forall m | m in among && m != r.value :: Before(orders, r.value, m)
  {
    if among == {} then None else
    var index: map<int, int> := map m | m in among :: ByTime(orders[m]);
    assert index != map[] by {
      var some :| some in among;
      assert some in index;
    }
    assert forall m | m in among :: m in index;
    Some(First(index))
  }

  function NextByTime(orders: map<Name, Order>, n: Name): Option<Name>
    requires n in orders
  {
    Head(orders, set m | m in orders && Before(orders, n, m))
  }

  ghost predicate TimesFit(orders: map<Name, Order>) {
    forall n | n in orders :: orders[n].time < 0xFFFF_FFFF_FFFF_FFFF
  }

  /** No order waits exactly when the head of the index is closed or missing. */
  lemma HeadTells(orders: map<Name, Order>)
    requires TimesFit(orders)
    ensures var head := Head(orders, orders.Keys);
            (head.None? || !orders[head.value].isOpen) <==> (forall n | n in orders :: !orders[n].isOpen)
  {
    var head := Head(orders, orders.Keys);
    if head.None? {
      assert orders.Keys == {};
    }
  }

  /** The orders still to be visited when the iterator stands at `oitr`. */
  ghost predicate Remaining(orders: map<Name, Order>, oitr: Option<Name>, todo: set<Name>) {
    && todo <= OpenOrders(orders)
    && (oitr.None? ==> todo == {})
    && (oitr.Some? ==> oitr.value in orders && forall m | m in orders ::
          (m in todo <==> orders[m].isOpen && (m == oitr.value || Before(orders, oitr.value, m))))
  }

  lemma RemainingAtBegin(orders: map<Name, Order>)
    ensures Remaining(orders, Head(orders, orders.Keys), OpenOrders(orders)) && OpenOrders(orders) <= orders.Keys
    ensures var head := Head(orders, orders.Keys); head.Some? ==> head.value in orders
  {
  }

  /** Ties in the index go to the lower account name. */
  lemma FirstOrderTies(orders: map<Name, Order>, todo: set<Name>, m: Name)
    requires todo != {} && todo <= orders.Keys && m in todo
    ensures var n := FirstOrder(orders, todo); orders[m].time == orders[n].time ==> n <= m
  {
    var index: map<int, int> := map m | m in todo :: orders[m].time;
    assert m in index;
  }

  /** Stepping the iterator before the order is closed visits exactly the other open orders. */
  lemma RemainingAfter(orders: map<Name, Order>, owner: Name, todo: set<Name>, orders': map<Name, Order>)
    requires Remaining(orders, Some(owner), todo) && TimesFit(orders) && orders[owner].isOpen
    requires orders' == orders || (owner in orders' && orders' == orders[owner := orders'[owner]] && !orders'[owner].isOpen)
    ensures owner in todo && FirstOrder(orders, todo) == owner
    ensures Remaining(orders', NextByTime(orders, owner), todo - {owner}) && todo - {owner} <= orders'.Keys
    ensures var next := NextByTime(orders, owner); next.Some? ==> next.value in orders'
  {
    FirstOrderTies(orders, todo, owner);
    var next := NextByTime(orders, owner);
    var later := set m | m in orders && Before(orders, owner, m);
    forall m | m in orders && m in todo && m != owner ensures m in later && next.Some? {
    }
    if next.Some? {
      var x := next.value;
      assert x in later;
      forall m | m in orders' && m != x && m != owner
        ensures Before(orders', x, m) && orders'[m].isOpen ==> m in todo
        ensures m in todo ==> Before(orders', x, m)
      {
      }
    }
  }

  class RexContract {
    var now: int
    var pool: Option<Pool>
    var retpool: Option<R.ReturnPool>
    var funds: map<Name, int>
    var balances: map<Name, B.Balance>
    var cpu: LoanTable
    var net: LoanTable
    var orders: map<Name, Order>
    var resources: ResourceTable
    var tokens: int
    /** What staking, powerup and the RAM market have granted to each account. */
    ghost var others: Claims

    ghost function S(): State
      reads this
    {
      State(now, pool, retpool, funds, balances, cpu, net, orders, resources, tokens)
    }

    ghost predicate Valid()
      reads this
    {
      Inv(S(), others)
    }

    function Seconds(): int
      reads this
    {
      now / 1_000_000
    }

    /** The tables before the first purchase of REX, over the resources granted elsewhere. */
    constructor (time: int, granted: ResourceTable, ghost claims: Claims)
      requires R.ValidTime(time / 1_000_000) && Resources.Granted(granted, claims)
      ensures Valid() && others == claims && S().pool.None? && tokens == 0 && Surplus(S()) == 0
    {
      now, pool, retpool, tokens := time, None, None, 0;
      funds, balances, cpu, net, orders := map[], map[], map[], map[], map[];
      resources := granted;
      others := claims;
    }

    // ----- the return pool -----

    method UpdateRexPool()
      requires pool.Some? && ValidReturns(S())
      modifies `pool, `retpool
      ensures S() == Rex.UpdateRexPool(old(S()))
    {
      var time := Seconds() - Seconds() % R.DIST_INTERVAL;
      if retpool.None? || time <= retpool.value.lastDist {
        return;
      }
      var rp, change := DistributeNow(retpool.value, Seconds(), time);
      retpool := Some(rp);
      if change > 0 {
        var p := pool.value;
        pool := Some(p.(unlent := p.unlent + change, lendable := p.unlent + change + p.lent));
      }
    }

    method AddToRexReturnPool(fee: int)
      requires pool.Some? && ValidReturns(S())
      modifies `pool, `retpool
      ensures S() == Rex.AddToReturnPool(old(S()), fee)
      ensures 0 < fee ==> retpool.Some? && R.OpensNext(retpool.value, Seconds())
    {
      hide R.Distribute, R.Released, R.OpensNext, R.Valid;
      FeeOpens(S(), fee);
      UpdateRexPool();
      if fee <= 0 {
        return;
      }
      var time := Seconds() - Seconds() % R.BUCKET_INTERVAL + R.BUCKET_INTERVAL;
      if retpool.None? {
        retpool := Some(R.ReturnPool(time, time, R.TIME_MIN, fee, 0, fee, map[]));
      } else {
        var rp := retpool.value;
        rp := rp.(pendingProceeds := rp.pendingProceeds + fee, proceeds := rp.proceeds + fee);
        if rp.pendingTime == R.TIME_MAX {
          rp := rp.(pendingTime := time);
        }
        retpool := Some(rp);
      }
    }

    function RexAvailable(): bool
      reads this
    {
      pool.Some? && pool.value.rex > 0
    }

    method ChannelToRex(amount: int) returns (ok: bool)
      requires Valid()
      modifies `pool, `retpool, `tokens
      ensures ok == Rex.ChannelToRex(old(S()), amount).Some?
      ensures ok ==> Rex.ChannelToRex(old(S()), amount) == Some(S())
    {
      if RexAvailable() {
        if !(0 < amount) {
          return false;
        }
        AddToRexReturnPool(amount);
        tokens := tokens + amount;
      }
      return true;
    }

    // ----- funds and orders of an owner -----

    method TransferFromFund(owner: Name, amount: int) returns (ok: bool)
      modifies `funds
      ensures ok == Rex.TransferFromFund(old(S()), owner, amount).Some?
      ensures ok ==> Rex.TransferFromFund(old(S()), owner, amount) == Some(S())
    {
      if !(0 < amount) || owner !in funds || !(amount <= funds[owner]) {
        return false;
      }
      funds := funds[owner := funds[owner] - amount];
      return true;
    }

    method TransferToFund(owner: Name, amount: int) returns (ok: bool)
      modifies `funds
      ensures ok == Rex.TransferToFund(old(S()), owner, amount).Some?
      ensures ok ==> Rex.TransferToFund(old(S()), owner, amount) == Some(S())
    {
      if !(0 < amount) {
        return false;
      }
      if owner !in funds {
        funds := funds[owner := amount];
      } else {
        funds := funds[owner := funds[owner] + amount];
      }
      return true;
    }

    method UpdateRexAccount(owner: Name, proceeds: int) returns (inSellOrder: int)
      modifies `funds, `orders
      ensures S() == Rex.UpdateRexAccount(old(S()), owner, proceeds)
      ensures inSellOrder == InSellOrder(S(), owner)
    {
      var toFund := proceeds;
      inSellOrder := 0;
      if owner in orders {
        if orders[owner].isOpen {
          inSellOrder := orders[owner].requested;
        } else {
          toFund := toFund + orders[owner].proceeds;
          orders := orders - {owner};
        }
      }
      if toFund > 0 {
        var _ := TransferToFund(owner, toFund);
      }
    }

    // ----- resources -----

    method UpdateResourceLimits(receiver: Name, deltaNet: int, deltaCpu: int) returns (ok: bool)
      modifies `resources
      ensures ok == Adjust(old(resources), receiver, deltaNet, deltaCpu).Some?
      ensures ok ==> Adjust(old(resources), receiver, deltaNet, deltaCpu) == Some(resources)
    {
      if deltaCpu == 0 && deltaNet == 0 {
        return true;
      }
      if receiver !in resources {
        if !(0 <= deltaNet && 0 <= deltaCpu) {
          return false;
        }
        resources := resources[receiver := Row(deltaNet, deltaCpu, 0)];
      } else {
        var row := resources[receiver];
        resources := resources[receiver := row.(net := row.net + deltaNet, cpu := row.cpu + deltaCpu)];
      }
      if resources[receiver].net < 0 || resources[receiver].cpu < 0 {
        return false;
      }
      if resources[receiver].IsEmpty() {
        resources := resources - {receiver};
        assert resources == old(resources) - {receiver};
      }
      return true;
    }

    // ----- maturity buckets -----

    method ProcessRexMaturities(owner: Name)
      requires owner in balances
      modifies `balances
      ensures balances == old(balances)[owner := B.ProcessMaturities(old(balances[owner]), Seconds())]
    {
      var rb := balances[owner];
      while rb.maturities != [] && rb.maturities[0].time <= Seconds()
        invariant B.ProcessMaturities(rb, Seconds()) == B.ProcessMaturities(balances[owner], Seconds())
        decreases |rb.maturities|
      {
        rb := rb.(matured := rb.matured + rb.maturities[0].amount, maturities := rb.maturities[1..]);
      }
      balances := balances[owner := rb];
    }

    /** Reads the savings bucket and takes it out, so that the daily buckets can be treated alike. */
    method ReadRexSavings(owner: Name) returns (savings: int)
      requires owner in balances
      modifies `balances
      ensures savings == B.SavingsOf(old(balances[owner]))
      ensures balances == old(balances)[owner := B.WithoutSavings(old(balances[owner]))]
    {
      savings := 0;
      var rb := balances[owner];
      if rb.maturities != [] && rb.maturities[|rb.maturities| - 1].time == R.TIME_MAX {
        savings := rb.maturities[|rb.maturities| - 1].amount;
        balances := balances[owner := rb.(maturities := rb.maturities[..|rb.maturities| - 1])];
      }
      assert balances == old(balances)[owner := balances[owner]];
    }

    method PutRexSavings(owner: Name, rex: int)
      requires owner in balances
      modifies `balances
      ensures balances == old(balances)[owner := B.PutSavings(old(balances[owner]), rex)]
    {
      if rex != 0 {
        PushMaturity(owner, R.TIME_MAX, rex);
      }
      assert balances == old(balances)[owner := balances[owner]];
    }

    method PushMaturity(owner: Name, time: int, amount: int)
      requires owner in balances
      modifies `balances
      ensures balances == old(balances)[owner := B.PushBucket(old(balances[owner]), time, amount)]
    {
      var rb := balances[owner];
      var last := |rb.maturities| - 1;
      if rb.maturities != [] && rb.maturities[last].time == time {
        rb := rb.(maturities := rb.maturities[last := B.Bucket(time, rb.maturities[last].amount + amount)]);
      } else {
        rb := rb.(maturities := rb.maturities + [B.Bucket(time, amount)]);
      }
      balances := balances[owner := rb];
    }

    function Maturity(): int
      reads this
    {
      Seconds() - Seconds() % R.SECONDS_PER_DAY + B.MATURITY_BUCKETS * R.SECONDS_PER_DAY
    }

    method AddToRexBalance(owner: Name, received: int)
      modifies `balances
      ensures balances == old(balances)[owner := B.Buy(BalanceOrNew(old(balances), owner), received, Seconds())]
    {
      hide B.ProcessMaturities, B.PushBucket, B.PutSavings, B.WithoutSavings, B.SavingsOf;
      if owner !in balances {
        balances := balances[owner := B.Balance(received, 0, [])];
      } else {
        balances := balances[owner := balances[owner].(rex := balances[owner].rex + received)];
      }
      var savings := ReadRexSavings(owner);
      ProcessRexMaturities(owner);
      PushMaturity(owner, Maturity(), received);
      PutRexSavings(owner, savings);
      assert balances == old(balances)[owner := balances[owner]];
    }

    method ConsolidateRexBalance(owner: Name, inSellOrder: int)
      requires owner in balances
      modifies `balances
      ensures balances == old(balances)[owner := B.Consolidate(old(balances[owner]), inSellOrder, Seconds())]
    {
      var savings := ReadRexSavings(owner);
      var rb := Gather(balances[owner], inSellOrder, Maturity());
      balances := balances[owner := rb];
      PutRexSavings(owner, savings);
      assert balances == old(balances)[owner := balances[owner]];
    }

    /** Moves REX into savings from the latest bucket backwards, then from matured REX. */
    method MoveIntoSavings(owner: Name, rex: int, inSellOrder: int) returns (ok: bool)
      requires owner in balances && 0 < rex
      requires NonNegative(B.WithoutSavings(balances[owner]).maturities)
      modifies `balances
      ensures var r := B.MoveToSavings(old(balances[owner]), rex, inSellOrder, Seconds());
              && ok == (rex + inSellOrder + B.SavingsOf(old(balances[owner])) <= old(balances[owner]).rex && r.Some?)
              && (ok ==> balances == old(balances)[owner := r.value])
    {
      hide B.ProcessMaturities, B.SavingsOf, B.PutSavings, B.TakeBack;
      var savings := ReadRexSavings(owner);
      if !(rex + inSellOrder + savings <= balances[owner].rex) {
        return false;
      }
      ProcessRexMaturities(owner);
      StillNonNegative(old(B.WithoutSavings(balances[owner])), Seconds());
      var rb, moved := TakeFromBuckets(balances[owner], rex);
      if moved < rex {
        var d := rex - moved;
        rb := rb.(matured := rb.matured - d);
        if !(inSellOrder <= rb.matured) {
          return false;
        }
        moved := moved + d;
      }
      if moved != rex {
        return false;
      }
      balances := balances[owner := rb];
      PutRexSavings(owner, savings + rex);
      assert balances == old(balances)[owner := balances[owner]];
      return true;
    }

    // ----- the pool and its loans -----

    /** The head of the bytime index tells whether any order waits. */
    method RexLoansAvailable() returns (r: bool)
      requires TimesFit(orders)
      ensures r == S().LoansAvailable()
    {
      HeadTells(orders);
      if !RexAvailable() {
        return false;
      }
      var head := Head(orders, orders.Keys);
      return head.None? || !orders[head.value].isOpen;
    }

    method AddLoanToRexPool(payment: int, rented: int, isNew: bool)
      requires pool.Some? && ValidReturns(S())
      modifies `pool, `retpool
      ensures S() == AddLoanToPool(old(S()), payment, rented, isNew)
    {
      AddToRexReturnPool(payment);
      var p := pool.value;
      p := p.(rent := p.rent + payment);
      p := p.(unlent := p.unlent - rented, lent := p.lent + rented);
      if isNew {
        p := p.(loanNum := p.loanNum + 1);
      }
      pool := Some(p);
    }

    method RemoveLoanFromRexPool(staked: int)
      requires pool.Some?
      modifies `pool
      ensures pool == Some(RemoveLoanFromPool(old(pool).value, staked))
    {
      var p := pool.value;
      var delta := Bancor.Output(p.unlent, p.rent, staked);
      p := p.(rent := p.rent - delta, unlent := p.unlent + staked, lent := p.lent - staked);
      pool := Some(p.(lendable := p.unlent + p.lent));
    }

    function Loans(kind: Kind): LoanTable
      reads this
    {
      if kind == Cpu then cpu else net
    }

    method WriteLoans(kind: Kind, loans: LoanTable)
      modifies `cpu, `net
      ensures S() == old(S()).WithLoans(kind, loans)
    {
      if kind == Cpu {
        cpu := loans;
      } else {
        net := loans;
      }
    }

    method UpdateLoanResources(kind: Kind, receiver: Name, delta: int) returns (ok: bool)
      modifies `resources
      ensures ok == AdjustLoan(old(resources), receiver, kind, delta).Some?
      ensures ok ==> AdjustLoan(old(resources), receiver, kind, delta) == Some(resources)
    {
      if kind == Net {
        ok := UpdateResourceLimits(receiver, delta, 0);
      } else {
        ok := UpdateResourceLimits(receiver, 0, delta);
      }
    }

    method RenewLoan(kind: Kind, n: nat, rented: int) returns (ok: bool)
      requires pool.Some? && ValidReturns(S()) && n in Loans(kind)
      requires rented == Rented(pool.value, Loans(kind)[n].payment)
      modifies `pool, `retpool, `cpu, `net, `resources
      ensures ok == Rex.RenewLoan(old(S()), kind, n).Some?
      ensures ok ==> Rex.RenewLoan(old(S()), kind, n) == Some(S()) && pool.Some?
    {
      hide ValidReturns, AdjustLoan, AddToReturnPool;
      AddToReturnPoolFrame(S(), Loans(kind)[n].payment);
      var loan := Loans(kind)[n];
      AddLoanToRexPool(loan.payment, rented, false);
      WriteLoans(kind, Loans(kind)[n := loan.(staked := rented, expiration := loan.expiration + THIRTY_DAYS,
                                              balance := loan.balance - loan.payment)]);
      ok := UpdateLoanResources(kind, loan.receiver, rented - loan.staked);
    }

    method CloseLoan(kind: Kind, n: nat) returns (ok: bool)
      requires n in Loans(kind)
      modifies `funds, `cpu, `net, `resources
      ensures ok == Rex.CloseLoan(old(S()), kind, n).Some?
      ensures ok ==> Rex.CloseLoan(old(S()), kind, n) == Some(S())
    {
      hide AdjustLoan;
      var loan := Loans(kind)[n];
      if loan.balance > 0 {
        var _ := TransferToFund(loan.from, loan.balance);
      }
      ok := UpdateLoanResources(kind, loan.receiver, -loan.staked);
      WriteLoans(kind, Loans(kind) - {n});
    }

    /** Closes or renews an expired loan; the loan's receiver can always give the resources back. */
    method ProcessExpiredLoan(kind: Kind, n: nat)
      requires Valid() && pool.Some? && n in Loans(kind) && Loans(kind)[n].expiration <= now
      modifies `pool, `retpool, `funds, `cpu, `net, `resources
      ensures Rex.ProcessExpiredLoan(old(S()), kind, n) == Some(S()) && Valid() && pool.Some?
    {
      hide InvExcept, ValidReturns, TimesFit, RemoveLoanFromPool, Rex.RenewLoan, Rex.CloseLoan, Surplus, Rented;
      ProcessExpiredLoanKeeps(S(), kind, n, others);
      ghost var s1 := S().(pool := Some(RemoveLoanFromPool(S().pool.value, Loans(kind)[n].staked)));
      StaysInStep(S(), s1, others);
      var loan := Loans(kind)[n];
      RemoveLoanFromRexPool(loan.staked);
      var rented := Rented(pool.value, loan.payment);
      var available := RexLoansAvailable();
      var ok;
      if loan.payment <= loan.balance && loan.payment < rented && available {
        ok := RenewLoan(kind, n, rented);
      } else {
        ok := CloseLoan(kind, n);
      }
      assert ok;
    }

    method ProcessLoans(kind: Kind, max: nat)
      requires Valid() && pool.Some?
      modifies `pool, `retpool, `funds, `cpu, `net, `resources
      ensures RunLoans(old(S()), kind, max) == Some(S()) && Valid() && pool.Some?
    {
      hide InvExcept, Rex.ProcessExpiredLoan;
      var i := 0;
      while i < max
        invariant i <= max && Valid() && pool.Some?
        invariant RunLoans(S(), kind, max - i) == RunLoans(old(S()), kind, max)
      {
        if Loans(kind) == map[] || Loans(kind)[FirstLoan(Loans(kind))].expiration > now {
          return;
        }
        ProcessExpiredLoan(kind, FirstLoan(Loans(kind)));
        i := i + 1;
      }
    }

    // ----- sell orders -----

    method FillRexOrder(owner: Name, rex: int) returns (success: bool, proceeds: int)
      requires pool.Some? && owner in balances && pool.value.rex != 0
      modifies `pool, `balances
      ensures Rex.FillRexOrder(old(S()), owner, rex) == Some(Fill(S(), success, proceeds))
      ensures 0 < old(pool).value.rex ==> forall q | IsWorth(old(pool).value, rex, q) ::
                success == Affordable(old(pool).value, q) && (success ==> proceeds == q)
    {
      var p := pool.value;
      if 0 < p.rex {
        forall q | IsWorth(p, rex, q) ensures rex * p.lendable / p.rex == q {
          WorthIsUnique(p, rex, q);
        }
      }
      var s0, r0 := p.lendable, p.rex;
      proceeds := rex * s0 / r0;
      var r1, s1 := r0 - rex, s0 - proceeds;
      var lowerBound := p.lent / 10;
      var available := p.unlent - lowerBound;
      success := proceeds <= available;
      if success {
        p := p.(rex := r1, lendable := s1);
        p := p.(unlent := p.lendable - p.lent);
        pool := Some(p);
        var rb := balances[owner];
        balances := balances[owner := rb.(rex := rb.rex - rex, matured := rb.matured - rex)];
      } else {
        proceeds := 0;
      }
    }

    method ProcessOrders(max: nat)
      requires Valid() && pool.Some?
      modifies `pool, `balances, `orders
      ensures FillOrders(old(S()), OpenOrders(old(orders)), max) == Some(S()) && Valid() && pool.Some?
    {
      hide InvExcept, Rex.FillQueued, Remaining, Surplus, Before, Head, NextByTime, TimesFit, FirstOrder, OpenOrders;
      var oitr := Head(orders, orders.Keys);
      ghost var todo := OpenOrders(orders);
      RemainingAtBegin(orders);
      var i := 0;
      while i < max
        invariant i <= max && Valid() && pool.Some?
        invariant Remaining(orders, oitr, todo) && (oitr.Some? ==> oitr.value in orders) && todo <= orders.Keys
        invariant FillOrders(S(), todo, max - i) == FillOrders(old(S()), OpenOrders(old(orders)), max)
      {
        OrdersFit(S(), others);
        if oitr.None? || !orders[oitr.value].isOpen {
          NothingRemains(orders, oitr, todo);
          return;
        }
        var next := NextByTime(orders, oitr.value);
        ghost var before := orders;
        FillQueued(oitr.value);
        RemainingAfter(before, oitr.value, todo, orders);
        todo := todo - {oitr.value};
        oitr := next;
        i := i + 1;
      }
    }

    /** One round of the order loop: the owner's balance always exists. */
    method FillQueued(owner: Name)
      requires Valid() && pool.Some? && owner in orders && orders[owner].isOpen
      modifies `pool, `balances, `orders
      ensures Rex.FillQueued(old(S()), owner) == Some(S()) && Valid() && pool.Some?
      ensures orders == old(orders) || (owner in orders && orders == old(orders)[owner := orders[owner]] && !orders[owner].isOpen)
    {
      FillQueuedKeeps(S(), owner, others);
      RexIsThere(S(), owner, others);
      hide InvExcept, Rex.FillRexOrder;
      if owner in balances {
        var success, proceeds := FillRexOrder(owner, orders[owner].requested);
        if success {
          orders := orders[owner := orders[owner].(proceeds := proceeds, isOpen := false)];
        }
      }
    }

    // ----- maintenance -----

    method RunRex(max: nat) returns (ok: bool)
      requires Valid()
      modifies `pool, `retpool, `funds, `balances, `cpu, `net, `orders, `resources, `tokens
      ensures ok == Rex.RunRex(old(S()), max).Some? && (ok <==> old(pool).Some?)
      ensures ok ==> Rex.RunRex(old(S()), max) == Some(S()) && Valid() && Surplus(S()) == old(Surplus(S())) && pool.Some?
    {
      hide InvExcept, Surplus, Rex.UpdateRexPool, RunLoans, FillOrders, CollectNamebids;
      if pool.None? {
        return false;
      }
      RunRexKeeps(S(), max, others);
      UpdateRexPoolKeeps(S(), others, {});
      ReturnsValid(S(), others);
      UpdateRexPool();
      ChannelNamebids();
      ProcessLoans(Cpu, max);
      ProcessLoans(Net, max);
      ProcessOrders(max);
      return true;
    }

    method ChannelNamebids()
      requires Valid() && pool.Some?
      modifies `pool, `retpool, `tokens
      ensures S() == CollectNamebids(old(S())) && Valid() && pool.Some?
    {
      hide InvExcept, Surplus, CollectNamebids, Rex.ChannelToRex;
      CollectNamebidsKeeps(S(), others, {});
      CollectNamebidsIs(S());
      if pool.value.namebid > 0 {
        var _ := ChannelToRex(pool.value.namebid);
        pool := Some(pool.value.(namebid := 0));
      }
    }

    // ----- buying and selling -----

    method AddToRexPool(payment: int) returns (ok: bool, received: int)
      modifies `pool
      ensures ok == Rex.AddToRexPool(old(pool), payment).Some?
      ensures ok ==> pool.Some? && Rex.AddToRexPool(old(pool), payment) == Some(Bought(pool.value, received))
    {
      received := 0;
      if pool.None? {
        received := payment * REX_RATIO;
        pool := Some(Pool(0, payment - 0, INIT_TOTAL_RENT, payment, received, 0, 0));
      } else if !RexAvailable() {
        received := payment * REX_RATIO;
        pool := Some(pool.value.(lendable := payment, lent := 0, unlent := payment - 0, rent := INIT_TOTAL_RENT, rex := received));
      } else {
        var p := pool.value;
        if !(p.lendable > 0) {
          return false, 0;
        }
        var s0, s1, r0 := p.lendable, p.lendable + payment, p.rex;
        var r1 := s1 * r0 / s0;
        received := r1 - r0;
        pool := Some(p.(lendable := s1, rex := r1, unlent := s1 - p.lent));
        if !(pool.value.unlent >= 0) {
          return false, 0;
        }
      }
      return true, received;
    }

    method BuyRex(from: Name, amount: int, votes: bool) returns (ok: bool)
      requires Valid()
      modifies `pool, `retpool, `funds, `balances, `cpu, `net, `orders, `resources, `tokens
      ensures ok == Rex.BuyRex(old(S()), from, amount, votes).Some?
      ensures ok ==> Rex.BuyRex(old(S()), from, amount, votes) == Some(S()) && Valid() && Surplus(S()) == old(Surplus(S())) + Forgotten(old(pool))
    {
      hide InvExcept, Surplus, Rex.RunRex, Rex.UpdateRexAccount;
      BuyRexKeeps(S(), from, amount, votes, others);
      if !(0 < amount) || !votes {
        return false;
      }
      ok := TransferFromFund(from, amount);
      if !ok { return; }
      FromFundKeeps(old(S()), from, amount, others, {});
      ok := BuyFor(from, amount);
      if !ok { return; }
      ok := RunRex(2);
      if !ok { return; }
      var _ := UpdateRexAccount(from, 0);
    }

    /** add_to_rex_pool and add_to_rex_balance: buying never fails on a valid pool. */
    method BuyFor(owner: Name, payment: int) returns (ok: bool)
      requires Valid() && 0 < payment
      modifies `pool, `balances
      ensures ok && Purchase(old(S()), owner, payment) == Some(S()) && Valid() && pool.Some?
    {
      hide InvExcept, Surplus, B.Buy, Rex.AddToRexPool;
      PurchaseKeeps(S(), owner, payment, others);
      var received;
      ok, received := AddToRexPool(payment);
      AddToRexBalance(owner, received);
    }

    method SellRex(from: Name, rex: int) returns (ok: bool)
      requires Valid()
      modifies `pool, `retpool, `funds, `balances, `cpu, `net, `orders, `resources, `tokens
      ensures ok == Rex.SellRex(old(S()), from, rex).Some?
      ensures ok ==> Rex.SellRex(old(S()), from, rex) == Some(S()) && Valid() && Surplus(S()) == old(Surplus(S()))
    {
      hide InvExcept, Surplus, Rex.RunRex, Rex.SellMatured;
      SellRexKeeps(S(), from, rex, others);
      ok := RunRex(2);
      if !ok { return; }
      ok := SellMatured(from, rex);
    }

    /** What sellrex does once maintenance is done. */
    method SellMatured(from: Name, rex: int) returns (ok: bool)
      requires pool.Some?
      modifies `pool, `funds, `balances, `orders
      ensures ok == Rex.SellMatured(old(S()), from, rex).Some?
      ensures ok ==> Rex.SellMatured(old(S()), from, rex) == Some(S())
    {
      hide Rex.UpdateRexAccount, Rex.FillRexOrder, B.ProcessMaturities;
      if from !in balances || !(rex > 0) {
        return false;
      }
      ProcessRexMaturities(from);
      if !(rex <= balances[from].matured) {
        return false;
      }
      if pool.value.rex == 0 {
        DividesByZero(S(), from, rex);
        return false;
      }
      ghost var s2 := S();
      var success, proceeds := FillRexOrder(from, rex);
      FillRexOrderKeepsOwners(s2, from, rex);
      if success && proceeds == 0 {
        return false;
      }
      var pending := UpdateRexAccount(from, proceeds);
      UpdateRexAccountFrame(Rex.FillRexOrder(s2, from, rex).value.state, from, proceeds);
      if !success {
        if from == B1 {
          return false;
        }
        if from !in orders {
          orders := orders[from := Order(rex, 0, now, true)];
        } else {
          orders := orders[from := orders[from].(requested := orders[from].requested + rex)];
        }
        pending := orders[from].requested;
      }
      return pending <= balances[from].matured;
    }

    method CancelOrder(owner: Name) returns (ok: bool)
      requires Valid()
      modifies `orders
      ensures ok == Rex.CancelOrder(old(S()), owner).Some?
      ensures ok ==> Rex.CancelOrder(old(S()), owner) == Some(S()) && Valid() && Surplus(S()) == old(Surplus(S()))
    {
      hide InvExcept, Surplus;
      CancelOrderKeeps(S(), owner, others);
      if owner !in orders || !orders[owner].isOpen {
        return false;
      }
      orders := orders - {owner};
      return true;
    }

    // ----- deposits -----

    method Deposit(owner: Name, amount: int) returns (ok: bool)
      requires Valid()
      modifies `funds, `tokens
      ensures ok == Rex.Deposit(old(S()), owner, amount).Some?
      ensures ok ==> Rex.Deposit(old(S()), owner, amount) == Some(S()) && Valid() && Surplus(S()) == old(Surplus(S()))
    {
      hide InvExcept, Surplus, Rex.TransferToFund;
      DepositKeeps(S(), owner, amount, others);
      if !(0 < amount) {
        PositiveTransfer(S(), owner, amount);
        return false;
      }
      tokens := tokens + amount;
      FundsThenTokens(old(S()), owner, amount);
      ok := TransferToFund(owner, amount);
    }

    method Withdraw(owner: Name, amount: int) returns (ok: bool)
      requires Valid()
      modifies `funds, `orders, `tokens
      ensures ok == Rex.Withdraw(old(S()), owner, amount).Some?
      ensures ok ==> Rex.Withdraw(old(S()), owner, amount) == Some(S()) && Valid() && Surplus(S()) == old(Surplus(S()))
    {
      hide InvExcept, Surplus, Rex.TransferFromFund, Rex.UpdateRexAccount;
      WithdrawKeeps(S(), owner, amount, others);
      if !(0 < amount) {
        return false;
      }
      var _ := UpdateRexAccount(owner, 0);
      ok := TransferFromFund(owner, amount);
      if !ok { return; }
      if !(amount <= tokens) {
        return false;
      }
      tokens := tokens - amount;
    }

    // ----- loans -----

    method Rent(kind: Kind, from: Name, receiver: Name, payment: int, fund: int) returns (ok: bool)
      requires Valid()
      modifies `pool, `retpool, `funds, `balances, `cpu, `net, `orders, `resources, `tokens
      ensures ok == Rex.Rent(old(S()), kind, from, receiver, payment, fund).Some?
      ensures ok ==> Rex.Rent(old(S()), kind, from, receiver, payment, fund) == Some(S()) && Valid() && Surplus(S()) == old(Surplus(S()))
    {
      hide InvExcept, Surplus, Rex.RunRex, Rex.GrantLoan;
      RentKeeps(S(), kind, from, receiver, payment, fund, others);
      ok := RunRex(2);
      if !ok { return; }
      OrdersFit(S(), others);
      ReturnsValid(S(), others);
      ok := GrantLoan(kind, from, receiver, payment, fund);
    }

    /** rent_rex and the change of resource limits, once maintenance is done. */
    method GrantLoan(kind: Kind, from: Name, receiver: Name, payment: int, fund: int) returns (ok: bool)
      requires pool.Some? && TimesFit(orders) && ValidReturns(S())
      modifies `pool, `retpool, `funds, `cpu, `net, `resources
      ensures ok == Rex.GrantLoan(old(S()), kind, from, receiver, payment, fund).Some?
      ensures ok ==> Rex.GrantLoan(old(S()), kind, from, receiver, payment, fund) == Some(S())
    {
      hide Rex.TransferFromFund, AdjustLoan, Rented, AddToReturnPool, ValidReturns, TimesFit;
      ok := RexLoansAvailable();
      if !ok { return; }
      if !(0 < payment && 0 <= fund) {
        return false;
      }
      ok := TransferFromFund(from, payment + fund);
      if !ok { return; }
      FromFundFrame(old(S()), from, payment + fund);
      var rented := Rented(pool.value, payment);
      if !(payment < rented) {
        return false;
      }
      ReturnsFrame(old(S()), S());
      AddToReturnPoolFrame(S(), payment);
      AddLoanToRexPool(payment, rented, true);
      var n := pool.value.loanNum;
      if n in Loans(kind) {
        return false;
      }
      WriteLoans(kind, Loans(kind)[n := Loan(from, receiver, payment, fund, rented, now + THIRTY_DAYS)]);
      ok := UpdateLoanResources(kind, receiver, rented);
    }

    method FundLoan(kind: Kind, from: Name, n: nat, payment: int) returns (ok: bool)
      requires Valid()
      modifies `funds, `cpu, `net
      ensures ok == Rex.FundLoan(old(S()), kind, from, n, payment).Some?
      ensures ok ==> Rex.FundLoan(old(S()), kind, from, n, payment) == Some(S()) && Valid() && Surplus(S()) == old(Surplus(S()))
    {
      hide InvExcept, Surplus, Rex.TransferFromFund;
      FundLoanKeeps(S(), kind, from, n, payment, others);
      ok := TransferFromFund(from, payment);
      if !ok { return; }
      FromFundFrame(old(S()), from, payment);
      var loans := Loans(kind);
      if n !in loans || loans[n].from != from || !(loans[n].expiration > now) {
        return false;
      }
      WriteLoans(kind, loans[n := loans[n].(balance := loans[n].balance + payment)]);
    }

    method DefundLoan(kind: Kind, from: Name, n: nat, amount: int) returns (ok: bool)
      requires Valid()
      modifies `funds, `cpu, `net
      ensures ok == Rex.DefundLoan(old(S()), kind, from, n, amount).Some?
      ensures ok ==> Rex.DefundLoan(old(S()), kind, from, n, amount) == Some(S()) && Valid() && Surplus(S()) == old(Surplus(S()))
    {
      hide InvExcept, Surplus, Rex.TransferToFund;
      DefundLoanKeeps(S(), kind, from, n, amount, others);
      var loans := Loans(kind);
      if n !in loans || loans[n].from != from || !(loans[n].expiration > now) || !(loans[n].balance >= amount) {
        return false;
      }
      WriteLoans(kind, loans[n := loans[n].(balance := loans[n].balance - amount)]);
      ok := TransferToFund(from, amount);
    }

    // ----- an owner's REX -----

    method UpdateRex(owner: Name) returns (ok: bool)
      requires Valid()
      modifies `pool, `retpool, `funds, `balances, `cpu, `net, `orders, `resources, `tokens
      ensures ok == Rex.UpdateRex(old(S()), owner).Some?
      ensures ok ==> Rex.UpdateRex(old(S()), owner) == Some(S()) && Valid() && Surplus(S()) == old(Surplus(S()))
    {
      hide InvExcept, Surplus, Rex.RunRex, Rex.UpdateRexAccount, B.ProcessMaturities;
      UpdateRexKeeps(S(), owner, others);
      RunRexFrame(S(), 2);
      ok := RunRex(2);
      if !ok { return; }
      if owner !in balances {
        return false;
      }
      UpdateRexAccountFrame(S(), owner, 0);
      var _ := UpdateRexAccount(owner, 0);
      ProcessRexMaturities(owner);
    }

    method Consolidate(owner: Name) returns (ok: bool)
      requires Valid()
      modifies `pool, `retpool, `funds, `balances, `cpu, `net, `orders, `resources, `tokens
      ensures ok == Rex.Consolidate(old(S()), owner).Some?
      ensures ok ==> Rex.Consolidate(old(S()), owner) == Some(S()) && Valid() && Surplus(S()) == old(Surplus(S()))
    {
      hide InvExcept, Surplus, Rex.RunRex, Rex.UpdateRexAccount, B.Consolidate;
      ConsolidateKeeps(S(), owner, others);
      RunRexFrame(S(), 2);
      ok := RunRex(2);
      if !ok { return; }
      if owner !in balances {
        return false;
      }
      UpdateRexAccountFrame(S(), owner, 0);
      var inSellOrder := UpdateRexAccount(owner, 0);
      ConsolidateRexBalance(owner, inSellOrder);
    }

    method MoveToSavings(owner: Name, rex: int) returns (ok: bool)
      requires Valid()
      modifies `pool, `retpool, `funds, `balances, `cpu, `net, `orders, `resources, `tokens
      ensures ok == Rex.MoveToSavings(old(S()), owner, rex).Some?
      ensures ok ==> Rex.MoveToSavings(old(S()), owner, rex) == Some(S()) && Valid() && Surplus(S()) == old(Surplus(S()))
    {
      hide InvExcept, Surplus, Rex.RunRex, Rex.UpdateRexAccount, B.MoveToSavings;
      MoveToSavingsKeeps(S(), owner, rex, others);
      RunRexFrame(S(), 2);
      ok := RunRex(2);
      if !ok { return; }
      if owner !in balances || !(rex > 0) {
        return false;
      }
      BucketsNonNegative(S(), owner, others);
      UpdateRexAccountFrame(S(), owner, 0);
      var inSellOrder := UpdateRexAccount(owner, 0);
      ok := MoveIntoSavings(owner, rex, inSellOrder);
    }

    method MoveFromSavings(owner: Name, rex: int) returns (ok: bool)
      requires Valid()
      modifies `pool, `retpool, `funds, `balances, `cpu, `net, `orders, `resources, `tokens
      ensures ok == Rex.MoveFromSavings(old(S()), owner, rex).Some?
      ensures ok ==> Rex.MoveFromSavings(old(S()), owner, rex) == Some(S()) && Valid() && Surplus(S()) == old(Surplus(S()))
    {
      hide InvExcept, Surplus, Rex.RunRex, Rex.UpdateRexAccount, B.ProcessMaturities, B.PushBucket, B.PutSavings;
      MoveFromSavingsKeeps(S(), owner, rex, others);
      RunRexFrame(S(), 2);
      ok := RunRex(2);
      if !ok { return; }
      if owner !in balances || !(rex > 0) {
        return false;
      }
      ghost var s1 := S();
      var savings := ReadRexSavings(owner);
      if !(rex <= savings) {
        return false;
      }
      ProcessRexMaturities(owner);
      PushMaturity(owner, Maturity(), rex);
      PutRexSavings(owner, savings - rex);
      assert balances == s1.balances[owner := B.MoveFromSavings(s1.balances[owner], rex, Seconds())];
      var _ := UpdateRexAccount(owner, 0);
    }

    method CloseRex(owner: Name) returns (ok: bool)
      requires Valid()
      modifies `pool, `retpool, `funds, `balances, `cpu, `net, `orders, `resources, `tokens
      ensures ok == Rex.CloseRex(old(S()), owner).Some?
      ensures ok ==> Rex.CloseRex(old(S()), owner) == Some(S()) && Valid() && Surplus(S()) == old(Surplus(S()))
    {
      hide InvExcept, Surplus, Rex.RunRex, Rex.UpdateRexAccount, HasLoans;
      CloseRexKeeps(S(), owner, others);
      if pool.Some? {
        ok := RunRex(2);
      }
      var _ := UpdateRexAccount(owner, 0);
      if !HasLoans(cpu, owner) && !HasLoans(net, owner) && owner in funds && funds[owner] == 0 {
        funds := funds - {owner};
      }
      if owner in balances {
        if !(balances[owner].rex == 0) {
          return false;
        }
      }
      balances := balances - {owner};
      return true;
    }

    /** unstaketorex once the delegation has been lowered, which lowers what others grant the receiver. */
    method BuyWithStake(owner: Name, receiver: Name, fromNet: int, fromCpu: int, votes: bool, ghost lowered: Claims) returns (ok: bool)
      requires Valid() && Lowered(others, lowered, receiver, fromNet, fromCpu)
      modifies `pool, `retpool, `funds, `balances, `cpu, `net, `orders, `resources, `tokens, `others
      ensures ok == Rex.BuyWithStake(old(S()), owner, receiver, fromNet, fromCpu, votes).Some?
      ensures ok ==> Rex.BuyWithStake(old(S()), owner, receiver, fromNet, fromCpu, votes) == Some(S())
      ensures ok ==> Valid() && others == lowered && Surplus(S()) == old(Surplus(S())) + Forgotten(old(pool))
    {
      hide InvExcept, Surplus, Rex.RunRex, Rex.UpdateRexAccount, Adjust, Purchase;
      BuyWithStakeKeeps(S(), owner, receiver, fromNet, fromCpu, votes, others, lowered);
      if !(0 <= fromNet && 0 <= fromCpu) || !(0 < fromNet || 0 < fromCpu) || !votes {
        return false;
      }
      TakeBackStake(receiver, fromNet, fromCpu, lowered);
      ok := BuyFor(owner, fromNet + fromCpu);
      ok := RunRex(2);
      if !ok { return; }
      var _ := UpdateRexAccount(owner, 0);
    }

    /** The receiver loses the resources and the staked tokens arrive; neither can fail. */
    method TakeBackStake(receiver: Name, fromNet: int, fromCpu: int, ghost lowered: Claims)
      requires Valid() && Lowered(others, lowered, receiver, fromNet, fromCpu)
      modifies `resources, `tokens, `others
      ensures Adjust(old(resources), receiver, -fromNet, -fromCpu) == Some(resources)
      ensures S() == old(S()).(resources := resources, tokens := old(tokens) + fromNet + fromCpu)
      ensures Valid() && others == lowered && Surplus(S()) == old(Surplus(S())) + fromNet + fromCpu
    {
      hide InvExcept, Surplus, Adjust;
      LowerClaims(S(), receiver, fromNet, fromCpu, others, lowered);
      var ok := UpdateResourceLimits(receiver, -fromNet, -fromCpu);
      assert ok;
      others := lowered;
      TokensKeep(S(), tokens + fromNet + fromCpu, others);
      tokens := tokens + fromNet + fromCpu;
    }

    method SetRex(balance: int) returns (ok: bool)
      requires Valid()
      modifies `pool
      ensures ok == Rex.SetRex(old(S()), balance).Some?
      ensures ok ==> Rex.SetRex(old(S()), balance) == Some(S()) && Valid() && Surplus(S()) == old(Surplus(S()))
    {
      if !(balance > 0) || pool.None? {
        return false;
      }
      NamebidsNonNegative(S(), others);
      PoolFieldsKeep(S(), pool.value.(rent := balance), others);
      hide InvExcept, Surplus;
      pool := Some(pool.value.(rent := balance));
      return true;
    }

    method ChannelNamebidToRex(bid: int) returns (ok: bool)
      requires Valid()
      modifies `pool
      ensures ok == Rex.ChannelNamebid(old(S()), bid).Some?
      ensures ok ==> Rex.ChannelNamebid(old(S()), bid) == Some(S()) && Valid() && Surplus(S()) == old(Surplus(S()))
    {
      hide InvExcept, Surplus;
      ChannelNamebidKeeps(S(), bid, others);
      if !(0 < bid) {
        return false;
      }
      if RexAvailable() {
        pool := Some(pool.value.(namebid := pool.value.namebid + bid));
      }
      return true;
    }
  }

  lemma CollectNamebidsIs(s: State)
    requires s.pool.Some?
    ensures var bids, r := s.pool.value.namebid, Rex.ChannelToRex(s, s.pool.value.namebid);
            if bids <= 0 then CollectNamebids(s) == s
            else r.Some? && r.value.pool.Some? && CollectNamebids(s) == r.value.(pool := Some(r.value.pool.value.(namebid := 0)))
  {
    hide AddToReturnPool;
    AddToReturnPoolFrame(s, s.pool.value.namebid);
  }

  lemma ReturnsValid(s: State, o: Claims)
    requires Inv(s, o)
    ensures ValidReturns(s)
  {
    StaysInStep(s, s, o);
  }

  lemma ReturnsFrame(s: State, s1: State)
    requires ValidReturns(s) && s1 == s.(funds := s1.funds)
    ensures ValidReturns(s1)
  {
  }

  lemma DividesByZero(s: State, owner: Name, rex: int)
    requires s.pool.Some? && owner in s.balances && s.pool.value.rex == 0
    ensures Rex.FillRexOrder(s, owner, rex).None?
  {
  }

  lemma FillRexOrderKeepsOwners(s: State, owner: Name, rex: int)
    requires s.pool.Some? && owner in s.balances
    ensures var r := Rex.FillRexOrder(s, owner, rex);
            r.Some? ==> owner in r.value.state.balances && r.value.state.now == s.now
  {
  }

  /** Tokens and funds are different tables, so the order of the two writes does not matter. */
  lemma FundsThenTokens(s: State, owner: Name, amount: int)
    requires 0 < amount
    ensures Rex.TransferToFund(s.(tokens := s.tokens + amount), owner, amount) == Rex.Deposit(s, owner, amount)
  {
  }

  lemma BucketsNonNegative(s: State, owner: Name, o: Claims)
    requires Inv(s, o) && owner in s.balances
    ensures NonNegative(B.WithoutSavings(s.balances[owner]).maturities)
  {
    OwnerValid(s, owner, o);
  }

  /** What stays in step while a loan is taken out of the pool. */
  lemma StaysInStep(s: State, s1: State, o: Claims)
    requires Inv(s, o) && s1 == s.(pool := s1.pool)
    ensures ValidReturns(s1) && TimesFit(s1.orders)
  {
    hide R.Valid, B.Valid, Ledger, ValidLoans, ValidBalances, ExpireInTime, ValidPool;
  }

  lemma OrdersFit(s: State, o: Claims)
    requires Inv(s, o)
    ensures TimesFit(s.orders)
  {
    StaysInStep(s, s, o);
  }

  lemma RexIsThere(s: State, owner: Name, o: Claims)
    requires Inv(s, o) && s.pool.Some? && owner in s.orders && s.orders[owner].isOpen
    ensures 0 < s.pool.value.rex && owner in s.balances
  {
    assert Backed(s.orders[owner], owner, s.balances);
    RexAtMostPool(s, owner, o, {});
  }

  lemma NothingRemains(orders: map<Name, Order>, oitr: Option<Name>, todo: set<Name>)
    requires Remaining(orders, oitr, todo) && TimesFit(orders)
    requires oitr.None? || !orders[oitr.value].isOpen
    ensures todo == {}
  {
    if m :| m in todo {
      assert false;
    }
  }

  /** Empties every daily bucket into one. */
  method Gather(b: B.Balance, inSellOrder: int, maturity: int) returns (rb: B.Balance)
    ensures var free := b.matured - inSellOrder + B.Total(b.maturities);
            rb == B.Balance(b.rex, inSellOrder, if free > 0 then [B.Bucket(maturity, free)] else [])
  {
    rb := b;
    var total := rb.matured - inSellOrder;
    rb := rb.(matured := inSellOrder);
    while rb.maturities != []
      invariant rb == b.(matured := inSellOrder, maturities := rb.maturities)
      invariant total + B.Total(rb.maturities) == b.matured - inSellOrder + B.Total(b.maturities)
      decreases |rb.maturities|
    {
      B.TotalFront(rb.maturities);
      total := total + rb.maturities[0].amount;
      rb := rb.(maturities := rb.maturities[1..]);
    }
    if total > 0 {
      rb := rb.(maturities := rb.maturities + [B.Bucket(maturity, total)]);
    }
  }

  method TakeFromBuckets(b: B.Balance, rex: int) returns (rb: B.Balance, moved: int)
    requires NonNegative(b.maturities) && 0 < rex
    ensures rb == b.(maturities := B.TakeBack(b.maturities, rex))
    ensures moved == B.Total(b.maturities) - B.Total(rb.maturities) && moved <= rex
  {
    rb, moved := b, 0;
    while rb.maturities != [] && moved < rex
      invariant rb == b.(maturities := rb.maturities) && NonNegative(rb.maturities)
      invariant 0 <= moved <= rex
      invariant B.TakeBack(rb.maturities, rex - moved) == B.TakeBack(b.maturities, rex)
      invariant moved == B.Total(b.maturities) - B.Total(rb.maturities)
      decreases |rb.maturities|, rex - moved
    {
      var last := |rb.maturities| - 1;
      var bucket := rb.maturities[last];
      var d := Min(rex - moved, bucket.amount);
      B.TotalSetBack(rb.maturities, B.Bucket(bucket.time, bucket.amount - d));
      TakeBackStep(rb.maturities, rex - moved);
      rb := rb.(maturities := rb.maturities[last := B.Bucket(bucket.time, bucket.amount - d)]);
      moved := moved + d;
      if rb.maturities[last].amount == 0 {
        rb := rb.(maturities := rb.maturities[..last]);
      }
    }
  }

  ghost predicate NonNegative(buckets: seq<B.Bucket>) {
    forall i | 0 <= i < |buckets| :: 0 <= buckets[i].amount
  }

  lemma {:induction false} StillNonNegative(b: B.Balance, now: int)
    requires NonNegative(b.maturities)
    ensures NonNegative(B.ProcessMaturities(b, now).maturities)
    decreases |b.maturities|
  {
    if b.maturities != [] && b.maturities[0].time <= now {
      StillNonNegative(B.Balance(b.rex, b.matured + b.maturities[0].amount, b.maturities[1..]), now);
    }
  }

  /** One round of the loop in mvtosavings is one step of TakeBack. */
  lemma TakeBackStep(buckets: seq<B.Bucket>, want: int)
    requires buckets != [] && 0 < want && 0 <= buckets[|buckets| - 1].amount
    ensures var n, last := |buckets| - 1, buckets[|buckets| - 1];
            var d := Min(want, last.amount);
            var rest := buckets[n := B.Bucket(last.time, last.amount - d)];
            B.TakeBack(if last.amount - d == 0 then rest[..n] else rest, want - d) == B.TakeBack(buckets, want)
  {
    var n, last := |buckets| - 1, buckets[|buckets| - 1];
    var d := Min(want, last.amount);
    var rest := buckets[n := B.Bucket(last.time, last.amount - d)];
    assert rest[..n] == buckets[..n];
  }
}
