/** The powerup market stays consistent: what is sold is what is queued, and the reserve account holds the rest. */
module PowerupInvariants {
  import opened Tables
  import opened Resources
  import opened Powerup
  import Bancor

  ghost function NetSold(): (nat, Order) -> int { (n: nat, o: Order) => o.net }

  ghost function CpuSold(): (nat, Order) -> int { (n: nat, o: Order) => o.cpu }

  ghost function NetFor(account: Name): (nat, Order) -> int {
    (n: nat, o: Order) => if o.owner == account then o.net else 0
  }

  ghost function CpuFor(account: Name): (nat, Order) -> int {
    (n: nat, o: Order) => if o.owner == account then o.cpu else 0
  }

  ghost predicate ValidOrders(orders: Orders) {
    forall n | n in orders :: 0 <= orders[n].net && 0 <= orders[n].cpu
  }

  /** What others granted, with the reserve added for its account. */
  ghost function WithReserve(g: Claims, net: int, cpu: int): Claims {
    Claims((a: Name) => g.net(a) + (if a == RESERV then net else 0),
           (a: Name) => g.cpu(a) + (if a == RESERV then cpu else 0),
           g.ram)
  }

  /** Each account's NET and CPU are its orders plus what is granted. */
  ghost predicate Backed(res: ResourceTable, orders: Orders, g: Claims) {
    forall a: Name ::
      && NetOf(res, a) == Sum(orders, NetFor(a)) + g.net(a) && 0 <= g.net(a)
      && CpuOf(res, a) == Sum(orders, CpuFor(a)) + g.cpu(a) && 0 <= g.cpu(a)
      && RamOf(res, a) == g.ram(a)
  }

  /** The ratio never lags behind its schedule, and the weight follows the ratio. */
  ghost predicate ValidMarket(m: Market, now: int) {
    && 0 <= m.utilization <= m.weight && 0 <= m.adjusted <= m.weight
    && 1 <= m.assumed && 0 < m.targetRatio <= m.initialRatio <= FRAC && m.initialTime <= now
    && m.targetRatio <= m.ratio <= FRAC && RatioAt(m, now) <= m.ratio
    && m.weight == WeightOf(m.assumed, m.ratio)
    && m.utilTime <= now
  }

  ghost predicate ValidMarkets(s: State) {
    if s.configured then ValidMarket(s.net, s.now) && ValidMarket(s.cpu, s.now)
    else s.net == DEFAULT && s.cpu == DEFAULT && s.orders == map[]
  }

  ghost predicate Inv(s: State, g: Claims) {
    && 0 <= s.now && ValidMarkets(s) && ValidOrders(s.orders)
    && s.net.utilization == Sum(s.orders, NetSold()) && s.cpu.utilization == Sum(s.orders, CpuSold())
    && Backed(s.resources, s.orders, WithReserve(g, s.net.weight - s.net.utilization, s.cpu.weight - s.cpu.utilization))
    && NonNegativeClaims(g)
  }

  // ----- one market over time -----

  /** The ratio only shrinks, from the initial to the target ratio, despite truncation. */
  lemma RatioShrinks(m: Market, t0: int, t1: int)
    requires 0 < m.targetRatio <= m.initialRatio && m.initialTime <= t0 <= t1
    ensures m.targetRatio <= RatioAt(m, t1) <= RatioAt(m, t0) <= m.initialRatio
  {
    var d, span := m.initialRatio - m.targetRatio, m.targetTime - m.initialTime;
    Progress(d, t0 - m.initialTime, t1 - m.initialTime, span);
  }

  lemma Progress(d: int, e0: int, e1: int, span: int)
    requires 0 <= d && 0 <= e0 <= e1
    ensures 0 < span && e1 <= span ==> 0 <= d * e0 / span <= d * e1 / span <= d
    ensures 0 < span && e0 <= span ==> 0 <= d * e0 / span <= d
  {
    if 0 < span {
      assert 0 <= d * e0;
      Bancor.DivBounds(d * e0, span);
      if e0 <= span {
        Bancor.Scaled(e0, span, d);
        Bancor.Commutes(d, e0);
        Bancor.Commutes(d, span);
        Bancor.QuotientAtMost(d * e0, span, d);
      }
      if e1 <= span {
        Bancor.Scaled(e0, e1, d);
        Bancor.Scaled(e1, span, d);
        Bancor.Commutes(d, e0);
        Bancor.Commutes(d, e1);
        Bancor.Commutes(d, span);
        Bancor.QuotientAtMost(d * e1, span, d);
        Bancor.QuotientAtLeast(d * e1, span, d * e0 / span);
      }
    }
  }

  /** A smaller ratio never means a smaller weight. */
  lemma WeightGrows(assumed: int, r0: int, r1: int)
    requires 0 <= assumed && 0 < r1 <= r0 <= FRAC
    ensures 0 <= WeightOf(assumed, r0) <= WeightOf(assumed, r1)
  {
    var n := assumed * FRAC;
    Bancor.DivBounds(n, r0);
    Bancor.Scaled(r1, r0, n / r0);
    Bancor.Commutes(r1, n / r0);
    Bancor.Commutes(r0, n / r0);
    Bancor.QuotientAtLeast(n, r1, n / r0);
    Bancor.Scaled(r0, FRAC, assumed);
    Bancor.Commutes(assumed, r0);
    Bancor.Commutes(assumed, FRAC);
    Bancor.QuotientAtLeast(n, r0, assumed);
  }

  /** Between configurations the weight never shrinks. */
  lemma UpdateWeightGrows(m: Market, now: int)
    requires ValidMarket(m, now)
    ensures var m' := UpdateWeight(m, now);
            ValidMarket(m', now) && m.weight <= m'.weight && m' == m.(ratio := m'.ratio, weight := m'.weight)
  {
    RatioShrinks(m, now, now);
    WeightGrows(m.assumed, m.ratio, RatioAt(m, now));
  }

  lemma UtilizationValid(m: Market, now: int, decayed: int)
    requires ValidMarket(m, now)
    ensures var m' := UpdateUtilization(m, now, decayed);
            ValidMarket(m', now) && m' == m.(adjusted := m'.adjusted, utilTime := m'.utilTime)
  {
  }

  lemma MarketLater(m: Market, now: int, later: int)
    requires ValidMarket(m, now) && now <= later
    ensures ValidMarket(m, later)
  {
    RatioShrinks(m, now, later);
  }

  /** The documented postconditions of update_utilization. The first holds exactly if time has passed since the
      last update or nothing was sold above the adjusted level in between. */
  lemma UtilizationPost(m: Market, now: int, decayed: int)
    ensures var m' := UpdateUtilization(m, now, decayed);
            && (m'.utilization <= m'.adjusted <==> m.utilTime < now || m.utilization <= m.adjusted)
            && (m.utilization <= m.adjusted ==> m'.adjusted <= m.adjusted)
            && (m.utilTime < now && m.adjusted <= m.utilization ==> m'.adjusted == m.utilization)
  {
  }

  // ----- the queue -----

  lemma OrderGone(orders: Orders, res: ResourceTable, n: nat, g: Claims)
    requires n in orders && ValidOrders(orders) && Backed(res, orders, g)
    ensures var o := orders[n];
            var r := Adjust(res, o.owner, -o.net, -o.cpu);
            r.Some? && Backed(r.value, orders - {n}, g) && ValidOrders(orders - {n})
    ensures Sum(orders, NetSold()) == Sum(orders - {n}, NetSold()) + orders[n].net
    ensures Sum(orders, CpuSold()) == Sum(orders - {n}, CpuSold()) + orders[n].cpu
  {
    var o := orders[n];
    AdjustMeaning(res, o.owner, -o.net, -o.cpu);
    SumRemove<nat, Order>(orders, n, NetSold());
    SumRemove<nat, Order>(orders, n, CpuSold());
    forall a: Name
      ensures Sum(orders, NetFor(a)) == Sum(orders - {n}, NetFor(a)) + (if a == o.owner then o.net else 0)
      ensures Sum(orders, CpuFor(a)) == Sum(orders - {n}, CpuFor(a)) + (if a == o.owner then o.cpu else 0)
    {
      SumRemove<nat, Order>(orders, n, NetFor(a));
      SumRemove<nat, Order>(orders, n, CpuFor(a));
    }
    SumNonNegative<nat, Order>(orders - {n}, NetFor(o.owner));
    SumNonNegative<nat, Order>(orders - {n}, CpuFor(o.owner));
  }

  /** Expiry is never blocked, and gives back exactly what the expired orders held. */
  lemma {:induction false} ExpireKeeps(orders: Orders, res: ResourceTable, now: int, max: nat, g: Claims)
    requires ValidOrders(orders) && Backed(res, orders, g)
    ensures var r := Expire(orders, res, now, max);
            && r.Some? && ValidOrders(r.value.orders) && Backed(r.value.resources, r.value.orders, g)
            && Sum(orders, NetSold()) == Sum(r.value.orders, NetSold()) + r.value.net && 0 <= r.value.net
            && Sum(orders, CpuSold()) == Sum(r.value.orders, CpuSold()) + r.value.cpu && 0 <= r.value.cpu
            && r.value.orders.Keys <= orders.Keys
    decreases max
  {
    hide Backed, Adjust, FirstOrder;
    if !(max == 0 || orders == map[] || orders[FirstOrder(orders)].expires > now) {
      var n := FirstOrder(orders);
      var o := orders[n];
      OrderGone(orders, res, n, g);
      ExpireKeeps(orders - {n}, Adjust(res, o.owner, -o.net, -o.cpu).value, now, max - 1, g);
    }
  }

  /** Whatever is due is gone after a queue run that covers it. */
  lemma {:induction false} AllExpire(orders: Orders, res: ResourceTable, now: int, max: nat, g: Claims)
    requires ValidOrders(orders) && Backed(res, orders, g) && |orders| <= max
    ensures var r := Expire(orders, res, now, max);
            && r.Some?
            && (forall n | n in r.value.orders :: n in orders && r.value.orders[n] == orders[n] && now < orders[n].expires)
            && (forall n | n in orders && now < orders[n].expires :: n in r.value.orders)
    decreases max
  {
    hide Backed, Adjust, ValidOrders, FirstOrder;
    if orders == map[] || orders[FirstOrder(orders)].expires > now {
      assert forall n | n in orders :: now < orders[n].expires;
    } else {
      var n := FirstOrder(orders);
      var o := orders[n];
      OrderGone(orders, res, n, g);
      assert |orders - {n}| < |orders|;
      AllExpire(orders - {n}, Adjust(res, o.owner, -o.net, -o.cpu).value, now, max - 1, g);
    }
  }

  /** The reserve account can always be moved to a reserve that is not negative. */
  lemma ReserveMoves(res: ResourceTable, orders: Orders, g: Claims, rn: int, rc: int, dn: int, dc: int)
    requires Backed(res, orders, WithReserve(g, rn, rc)) && ValidOrders(orders)
    requires NonNegativeClaims(g) && 0 <= rn + dn && 0 <= rc + dc
    ensures var r := Adjust(res, RESERV, dn, dc);
            r.Some? && Backed(r.value, orders, WithReserve(g, rn + dn, rc + dc))
  {
    AdjustMeaning(res, RESERV, dn, dc);
    SumNonNegative<nat, Order>(orders, NetFor(RESERV));
    SumNonNegative<nat, Order>(orders, CpuFor(RESERV));
  }

  lemma OrderAdded(res: ResourceTable, orders: Orders, id: nat, o: Order, g: Claims)
    requires Backed(res, orders, g) && ValidOrders(orders) && id !in orders && 0 <= o.net && 0 <= o.cpu
    ensures var r := Adjust(res, o.owner, o.net, o.cpu);
            r.Some? && Backed(r.value, orders[id := o], g) && ValidOrders(orders[id := o])
    ensures Sum(orders[id := o], NetSold()) == Sum(orders, NetSold()) + o.net
    ensures Sum(orders[id := o], CpuSold()) == Sum(orders, CpuSold()) + o.cpu
  {
    AdjustMeaning(res, o.owner, o.net, o.cpu);
    SumPut<nat, Order>(orders, id, o, NetSold());
    SumPut<nat, Order>(orders, id, o, CpuSold());
    forall a: Name
      ensures Sum(orders[id := o], NetFor(a)) == Sum(orders, NetFor(a)) + (if a == o.owner then o.net else 0)
      ensures Sum(orders[id := o], CpuFor(a)) == Sum(orders, CpuFor(a)) + (if a == o.owner then o.cpu else 0)
    {
      SumPut<nat, Order>(orders, id, o, NetFor(a));
      SumPut<nat, Order>(orders, id, o, CpuFor(a));
    }
    SumNonNegative<nat, Order>(orders, NetFor(o.owner));
    SumNonNegative<nat, Order>(orders, CpuFor(o.owner));
  }

  /** A market once `gone` of what it sold has expired. */
  lemma MarketProcessed(m: Market, now: int, decayed: int, gone: int)
    requires ValidMarket(m, now) && 0 <= gone <= m.utilization
    ensures var m1 := UpdateUtilization(m, now, decayed);
            var m' := UpdateWeight(m1.(utilization := m1.utilization - gone), now);
            && ValidMarket(m', now) && m.weight <= m'.weight && m'.utilization == m.utilization - gone
  {
    UtilizationValid(m, now, decayed);
    var m1 := UpdateUtilization(m, now, decayed);
    UpdateWeightGrows(m1.(utilization := m1.utilization - gone), now);
  }

  /** Processing the queue never aborts; the reserve grows by what expired and by the growth of the market. */
  lemma ProcessQueueKeeps(s: State, max: nat, dn: int, dc: int, g: Claims)
    requires Inv(s, g) && s.configured
    ensures var r := ProcessQueue(s, max, dn, dc);
            && r.Some?
            && var p, s1 := r.value, r.value.state;
               && s1 == s.(net := s1.net, cpu := s1.cpu, orders := s1.orders, resources := s1.resources)
               && s.net.weight <= s1.net.weight && s.cpu.weight <= s1.cpu.weight
               && MidInv(p, g)
  {
    hide Backed, ValidMarket, UpdateUtilization, UpdateWeight, Adjust, Expire, WithReserve;
    ExpireKeeps(s.orders, s.resources, s.now, max, WithReserve(g, s.net.weight - s.net.utilization, s.cpu.weight - s.cpu.utilization));
    var e := Expire(s.orders, s.resources, s.now, max).value;
    SumNonNegative<nat, Order>(e.orders, NetSold());
    SumNonNegative<nat, Order>(e.orders, CpuSold());
    MarketProcessed(s.net, s.now, dn, e.net);
    MarketProcessed(s.cpu, s.now, dc, e.cpu);
    SameMarket(s.net, s.now, dn);
    SameMarket(s.cpu, s.now, dc);
  }

  lemma SameMarket(m: Market, now: int, decayed: int)
    ensures UpdateUtilization(m, now, decayed).utilization == m.utilization
    ensures UpdateUtilization(m, now, decayed).weight == m.weight
  {
  }

  lemma MarketBounds(m: Market, now: int)
    requires ValidMarket(m, now)
    ensures 0 <= m.utilization <= m.weight
  {
  }

  /** powerupexec never fails once the market is configured. */
  lemma PowerupExecKeeps(s: State, max: nat, dn: int, dc: int, g: Claims)
    requires Inv(s, g)
    ensures var r := PowerupExec(s, max, dn, dc);
            && (r.Some? <==> s.configured)
            && (r.Some? ==> Inv(r.value, g) && s.net.weight <= r.value.net.weight && s.cpu.weight <= r.value.cpu.weight)
  {
    hide Backed, ValidMarket, ProcessQueue, Adjust;
    if s.configured {
      ProcessQueueKeeps(s, max, dn, dc, g);
      var p := ProcessQueue(s, max, dn, dc).value;
      var s1 := p.state;
      MarketBounds(s1.net, s.now);
      MarketBounds(s1.cpu, s.now);
      ReserveMoves(s1.resources, s1.orders, g, s1.net.weight - s1.net.utilization - p.net,
                   s1.cpu.weight - s1.cpu.utilization - p.cpu, p.net, p.cpu);
    }
  }

  lemma PortionBounds(m: Market, frac: int)
    requires 0 <= frac <= FRAC && 0 <= m.weight
    ensures 0 <= Portion(m, frac) <= m.weight && (frac == 0 ==> Portion(m, frac) == 0)
  {
    assert 0 <= frac * m.weight;
    Bancor.Scaled(frac, FRAC, m.weight);
    Bancor.Commutes(FRAC, m.weight);
    Bancor.QuotientAtMost(frac * m.weight, FRAC, m.weight);
    Bancor.DivBounds(frac * m.weight, FRAC);
  }

  lemma SoldValid(m: Market, now: int, frac: int, fee: int)
    requires ValidMarket(m, now) && 0 <= frac <= FRAC && Sells(m, frac, fee)
    ensures ValidMarket(Sold(m, frac), now)
    ensures 0 <= Portion(m, frac) && m.utilization + Portion(m, frac) <= m.weight
  {
    PortionBounds(m, frac);
  }

  /** The state between processing the queue and moving the reserve. */
  ghost predicate MidInv(p: Processed, g: Claims) {
    var s := p.state;
    && 0 <= s.now && s.configured && ValidMarket(s.net, s.now) && ValidMarket(s.cpu, s.now) && ValidOrders(s.orders)
    && s.net.utilization == Sum(s.orders, NetSold()) && s.cpu.utilization == Sum(s.orders, CpuSold())
    && Backed(s.resources, s.orders, WithReserve(g, s.net.weight - s.net.utilization - p.net, s.cpu.weight - s.cpu.utilization - p.cpu))
    && NonNegativeClaims(g)
  }

  lemma QueueKeeps(p: Processed, receiver: Name, days: int, fn: int, fc: int, feeNet: int, feeCpu: int, id: nat,
                   g: Claims)
    requires MidInv(p, g) && 0 <= fn <= FRAC && 0 <= fc <= FRAC
    requires Sells(p.state.net, fn, feeNet) && Sells(p.state.cpu, fc, feeCpu) && id !in p.state.orders
    ensures var r := Queue(p, receiver, days, fn, fc, id);
            && r.Some? && Inv(r.value, g)
            && r.value.net.weight == p.state.net.weight && r.value.cpu.weight == p.state.cpu.weight
  {
    hide Backed, ValidMarket, Portion, Adjust, Sells, WithReserve, NetSold, CpuSold;
    var s1 := p.state;
    SoldValid(s1.net, s1.now, fn, feeNet);
    SoldValid(s1.cpu, s1.now, fc, feeCpu);
    var o := Order(receiver, Portion(s1.net, fn), Portion(s1.cpu, fc), s1.now + days * SECONDS_PER_DAY);
    var rn, rc := s1.net.weight - s1.net.utilization - p.net, s1.cpu.weight - s1.cpu.utilization - p.cpu;
    OrderAdded(s1.resources, s1.orders, id, o, WithReserve(g, rn, rc));
    var res1 := Adjust(s1.resources, receiver, o.net, o.cpu).value;
    ReserveMoves(res1, s1.orders[id := o], g, rn, rc, p.net - o.net, p.cpu - o.cpu);
  }

  /** A sale is refused only for its arguments, its fee, or because the market is sold out: the checks on the
      accounts' totals never block it. */
  lemma PowerUpKeeps(s: State, receiver: Name, days: int, fn: int, fc: int, maxPayment: int,
                     dn: int, dc: int, feeNet: int, feeCpu: int, id: nat, g: Claims)
    requires Inv(s, g)
    ensures var r := PowerUp(s, receiver, days, fn, fc, maxPayment, dn, dc, feeNet, feeCpu, id);
            var p := ProcessQueue(s, 2, dn, dc);
            && (r.Some? <==>
                 && s.configured && days == s.days && 0 <= fn <= FRAC && 0 <= fc <= FRAC
                 && p.Some? && Sells(p.value.state.net, fn, feeNet) && Sells(p.value.state.cpu, fc, feeCpu)
                 && s.minFee <= (if fn == 0 then 0 else feeNet) + (if fc == 0 then 0 else feeCpu) <= maxPayment
                 && id !in p.value.state.orders)
            && (r.Some? ==> Inv(r.value, g) && s.net.weight <= r.value.net.weight && s.cpu.weight <= r.value.cpu.weight)
  {
    hide Backed, ValidMarket, ProcessQueue, Sells, Queue;
    if s.configured && 0 <= fn <= FRAC && 0 <= fc <= FRAC {
      ProcessQueueKeeps(s, 2, dn, dc, g);
      var p := ProcessQueue(s, 2, dn, dc).value;
      if Sells(p.state.net, fn, feeNet) && Sells(p.state.cpu, fc, feeCpu) && id !in p.state.orders {
        QueueKeeps(p, receiver, days, fn, fc, feeNet, feeCpu, id, g);
      }
    }
  }

  // ----- configuration -----

  /** A configuration starts a valid schedule and leaves what is sold and the weight as they are. */
  lemma ConfiguredSchedule(m: Market, c: MarketConfig, now: int)
    ensures var r := Configure(m, c, now);
            r.Some? ==> && 0 < r.value.targetRatio <= r.value.initialRatio <= FRAC && 1 <= r.value.assumed
                        && r.value.initialTime == now && r.value.weight == m.weight
                        && r.value.utilization == m.utilization && r.value.adjusted == m.adjusted && r.value.utilTime == m.utilTime
  {
  }

  lemma StartsAtInitial(m: Market, c: MarketConfig, now: int)
    requires Configure(m, c, now).Some? && 0 <= now
    ensures RatioAt(Configure(m, c, now).value, now) == Configure(m, c, now).value.initialRatio
  {
    hide WeightOf;
    var m1 := Configure(m, c, now).value;
    if now < m1.targetTime {
      Progress(m1.initialRatio - m1.targetRatio, 0, 0, m1.targetTime - now);
    }
  }

  lemma ConfiguredValid(m: Market, c: MarketConfig, now: int)
    requires 0 <= m.utilization && 0 <= m.adjusted && m.utilTime <= now
    requires Configure(m, c, now).Some? && 0 <= now
    requires m.utilization <= UpdateWeight(Configure(m, c, now).value, now).weight
    ensures ValidMarket(Capped(UpdateWeight(Configure(m, c, now).value, now)), now)
    ensures UpdateWeight(Configure(m, c, now).value, now).utilization == m.utilization
  {
    ConfiguredSchedule(m, c, now);
    StartsAtInitial(m, c, now);
    hide Configure, WeightOf;
    var m1 := Configure(m, c, now).value;
    var m2 := UpdateWeight(m1, now);
    assert m2.ratio == m1.initialRatio;
    SameSchedule(m1, now);
  }

  /** The ratio depends on the schedule only. */
  lemma SameSchedule(m: Market, now: int)
    ensures RatioAt(Capped(UpdateWeight(m, now)), now) == RatioAt(m, now)
  {
  }

  lemma CurrentValid(s: State, m: Market, decayed: int)
    requires 0 <= s.now && if s.configured then ValidMarket(m, s.now) else m == DEFAULT
    ensures var m' := Current(s, m, decayed);
            0 <= m'.utilization && 0 <= m'.adjusted && m'.utilTime <= s.now && m'.utilization == m.utilization
    ensures s.configured ==> ValidMarket(Current(s, m, decayed), s.now)
  {
    if s.configured {
      UtilizationValid(m, s.now, decayed);
      UpdateWeightGrows(UpdateUtilization(m, s.now, decayed), s.now);
    }
  }

  lemma CfgKeeps(s: State, nc: MarketConfig, cc: MarketConfig, days: Option<int>, minFee: Option<int>, dn: int, dc: int,
                 g: Claims)
    requires Inv(s, g) && Cfg(s, nc, cc, days, minFee, dn, dc).Some?
    ensures Inv(Cfg(s, nc, cc, days, minFee, dn, dc).value, g)
  {
    hide Backed, ValidMarket, Current, Configure, UpdateWeight;
    CurrentValid(s, s.net, dn);
    CurrentValid(s, s.cpu, dc);
    var net0, cpu0 := Current(s, s.net, dn), Current(s, s.cpu, dc);
    KeepsUtilization(net0, nc, s.now);
    KeepsUtilization(cpu0, cc, s.now);
    ConfiguredValid(net0, nc, s.now);
    ConfiguredValid(cpu0, cc, s.now);
    var net2, cpu2 := UpdateWeight(Configure(net0, nc, s.now).value, s.now), UpdateWeight(Configure(cpu0, cc, s.now).value, s.now);
    ReserveMoves(s.resources, s.orders, g, s.net.weight - s.net.utilization, s.cpu.weight - s.cpu.utilization,
                 net2.weight - s.net.weight, cpu2.weight - s.cpu.weight);
  }

  lemma KeepsUtilization(m: Market, c: MarketConfig, now: int)
    ensures Configure(m, c, now).Some? ==> UpdateWeight(Configure(m, c, now).value, now).utilization == m.utilization
  {
  }

  /** A configuration that gives neither ratio nor stake weight leaves the market's weight where it is. */
  lemma OmittedSettingsKeepWeight(s: State, m: Market, c: MarketConfig, decayed: int)
    requires s.configured && ValidMarket(m, s.now) && 0 <= s.now
    requires c.current.None? && c.assumed.None? && Configure(Current(s, m, decayed), c, s.now).Some?
    ensures UpdateWeight(Configure(Current(s, m, decayed), c, s.now).value, s.now).weight == Current(s, m, decayed).weight
  {
    hide UpdateUtilization, WeightOf;
    CurrentValid(s, m, decayed);
    StartsAtInitial(Current(s, m, decayed), c, s.now);
  }

  // ----- every action, every run -----

  lemma StepKeeps(s: State, a: Action, g: Claims)
    requires Inv(s, g) && Step(s, a).Some?
    ensures Inv(Step(s, a).value, g)
    ensures !a.CfgCall? ==> s.net.weight <= Step(s, a).value.net.weight && s.cpu.weight <= Step(s, a).value.cpu.weight
  {
    hide Backed, ValidMarket, PowerUp, PowerupExec, Cfg;
    match a
    case ExecCall(max, dn, dc) => PowerupExecKeeps(s, max, dn, dc, g);
    case PowerUpCall(receiver, days, fn, fc, maxPayment, dn, dc, feeNet, feeCpu, id) =>
      PowerUpKeeps(s, receiver, days, fn, fc, maxPayment, dn, dc, feeNet, feeCpu, id, g);
    case CfgCall(nc, cc, days, minFee, dn, dc) => CfgKeeps(s, nc, cc, days, minFee, dn, dc, g);
    case Advance(time) =>
      if s.configured {
        MarketLater(s.net, s.now, time);
        MarketLater(s.cpu, s.now, time);
      }
  }

  function Next(s: State, a: Action): State {
    if Step(s, a).Some? then Step(s, a).value else s
  }

  function Run(s: State, actions: seq<Action>): State
    decreases |actions|
  {
    if actions == [] then s else Run(Next(s, actions[0]), actions[1..])
  }

  ghost predicate Initial(s: State, g: Claims) {
    && 0 <= s.now && !s.configured && s.net == DEFAULT && s.cpu == DEFAULT && s.orders == map[]
    && Granted(s.resources, g)
  }

  lemma InitialInv(s: State, g: Claims)
    requires Initial(s, g)
    ensures Inv(s, g)
  {
  }

  lemma {:induction false} RunKeeps(s: State, actions: seq<Action>, g: Claims)
    requires Inv(s, g)
    ensures Inv(Run(s, actions), g)
    ensures (forall i | 0 <= i < |actions| :: !actions[i].CfgCall?) ==>
              s.net.weight <= Run(s, actions).net.weight && s.cpu.weight <= Run(s, actions).cpu.weight
    decreases |actions|
  {
    hide Inv, Step;
    if actions != [] {
      if Step(s, actions[0]).Some? {
        StepKeeps(s, actions[0], g);
      }
      RunKeeps(Next(s, actions[0]), actions[1..], g);
    }
  }

  /** In every reachable state what is utilised is exactly what is queued, it fits the market, and the reserve account
      holds exactly the rest. */
  lemma MarketIsConsistent(s: State, actions: seq<Action>, g: Claims)
    requires Initial(s, g)
    ensures var r := Run(s, actions);
            && r.net.utilization == Sum(r.orders, NetSold()) && 0 <= r.net.utilization <= r.net.weight
            && r.cpu.utilization == Sum(r.orders, CpuSold()) && 0 <= r.cpu.utilization <= r.cpu.weight
            && 0 <= r.net.adjusted <= r.net.weight && 0 <= r.cpu.adjusted <= r.cpu.weight
            && NetOf(r.resources, RESERV) == Sum(r.orders, NetFor(RESERV)) + g.net(RESERV) + r.net.weight - r.net.utilization
            && CpuOf(r.resources, RESERV) == Sum(r.orders, CpuFor(RESERV)) + g.cpu(RESERV) + r.cpu.weight - r.cpu.utilization
            && forall a: Name | a != RESERV ::
                 && NetOf(r.resources, a) == Sum(r.orders, NetFor(a)) + g.net(a)
                 && CpuOf(r.resources, a) == Sum(r.orders, CpuFor(a)) + g.cpu(a)
  {
    InitialInv(s, g);
    RunKeeps(s, actions, g);
  }

  // ----- two sales in one second -----

  const HALF := 500_000_000_000_000
  const TENTH := 100_000_000_000_000
  const EVEN: MarketConfig := MarketConfig(Some(HALF), Some(HALF), Some(1000), None)

  /** Both markets of 1000 units, half of the assumed total. */
  const OPENING: Action := CfgCall(EVEN, EVEN, Some(1), Some(1), 0, 0)

  /** A tenth of the NET market. */
  function Sale(id: nat): Action {
    PowerUpCall(1, 1, TENTH, 0, 1, 0, 0, 1, 0, id)
  }

  /** The market after the opening, with `sold` units of NET sold in the same second. */
  ghost predicate Opened(s: State, t0: int, sold: int) {
    && s.configured && s.now == t0 && s.days == 1 && s.minFee == 1
    && s.net == Market(1000, HALF, 1000, HALF, HALF, t0, t0, sold, 0, t0)
    && s.cpu == Market(1000, HALF, 1000, HALF, HALF, t0, t0, 0, 0, t0)
  }

  lemma HalfOf(assumed: int)
    ensures assumed * FRAC / HALF == 2 * assumed
  {
    assert assumed * FRAC == (2 * assumed) * HALF;
  }

  lemma EvenMarket(now: int)
    ensures var m := Market(1000, HALF, 1000, HALF, HALF, now, now, 0, 0, now);
            var c := Configure(DEFAULT.(utilTime := now), EVEN, now);
            c.Some? && UpdateWeight(c.value, now) == m && Capped(m) == m
  {
    HalfOf(1000);
  }

  lemma OpeningWorks(s: State, g: Claims)
    requires Initial(s, g)
    ensures Step(s, OPENING).Some? && Opened(Step(s, OPENING).value, s.now, 0) && Step(s, OPENING).value.orders == map[]
    ensures Inv(Step(s, OPENING).value, g)
  {
    InitialInv(s, g);
    AdjustMeaning(s.resources, RESERV, 1000, 1000);
    assert NetOf(s.resources, RESERV) == g.net(RESERV) && CpuOf(s.resources, RESERV) == g.cpu(RESERV);
    EvenMarket(s.now);
    hide Adjust, Inv, Configure, UpdateWeight, Capped, Granted;
    CfgKeeps(s, EVEN, EVEN, Some(1), Some(1), 0, 0, g);
  }

  lemma NothingExpires(s: State, t0: int, sold: int, g: Claims)
    requires Opened(s, t0, sold) && forall n | n in s.orders :: t0 < s.orders[n].expires
    ensures ProcessQueue(s, 2, 0, 0) == Some(Processed(s, 0, 0))
  {
  }

  lemma SaleWorks(s: State, t0: int, id: nat, g: Claims)
    requires Inv(s, g) && Opened(s, t0, s.net.utilization) && s.net.utilization <= 100
    requires id !in s.orders && forall n | n in s.orders :: t0 < s.orders[n].expires
    ensures var r := Step(s, Sale(id));
            && r.Some? && Inv(r.value, g) && Opened(r.value, t0, s.net.utilization + 100)
            && r.value.orders == s.orders[id := r.value.orders[id]] && id in r.value.orders && t0 < r.value.orders[id].expires
  {
    hide Inv, ProcessQueue, Adjust;
    NothingExpires(s, t0, s.net.utilization, g);
    PowerUpKeeps(s, 1, 1, TENTH, 0, 1, 0, 0, 1, 0, id, g);
  }

  /** A run that breaks the documented bound: the market opens, two sales follow in the same second, and the second one
      still finds the utilization above the adjusted utilization after the update, which its fee computation takes as
      excluded. */
  lemma SameSecondSale(s: State, g: Claims)
    requires Initial(s, g)
    ensures var s1 := Run(s, [OPENING, Sale(0)]);
            && s1.now == s.now && Step(s1, Sale(1)).Some?
            && var m := UpdateUtilization(s1.net, s1.now, 0); m.adjusted < m.utilization
  {
    hide Inv, Step;
    OpeningWorks(s, g);
    var s0 := Step(s, OPENING).value;
    SaleWorks(s0, s.now, 0, g);
    var s1 := Step(s0, Sale(0)).value;
    assert [OPENING, Sale(0)][1..] == [Sale(0)] && [Sale(0)][1..] == [];
    assert Run(s, [OPENING, Sale(0)]) == Run(s0, [Sale(0)]) == Run(s1, []) == s1;
    SaleWorks(s1, s.now, 1, g);
  }
}
