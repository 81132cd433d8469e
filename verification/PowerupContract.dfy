/** The powerup market as the contract updates it. Proved against module Powerup. */
module PowerupContract {
  import opened Tables
  import opened Resources
  import P = Powerup
  import opened PowerupInvariants

  /** update_utilization; `decayed` is the product of the difference and the decay factor. */
  method UpdateUtilization(m0: P.Market, now: int, decayed: int) returns (m: P.Market)
    ensures m == P.UpdateUtilization(m0, now, decayed)
    ensures m.utilization == m0.utilization && m0.utilTime <= m.utilTime
    ensures m.utilization <= m.adjusted <==> m0.utilTime < now || m0.utilization <= m0.adjusted
    ensures m0.utilization <= m0.adjusted ==> m.adjusted <= m0.adjusted
  {
    UtilizationPost(m0, now, decayed);
    m := m0;
    if now <= m.utilTime {
      return;
    }
    if m.utilization >= m.adjusted {
      m := m.(adjusted := m.utilization);
    } else {
      var diff := m.adjusted - m.utilization;
      var delta := decayed;
      if delta < 0 {
        delta := 0;
      } else if diff < delta {
        delta := diff;
      }
      m := m.(adjusted := m.utilization + delta);
    }
    m := m.(utilTime := now);
  }

  /** Division of integers as C++ does it, towards zero. */
  function Truncate(a: int, b: int): int
    requires 0 < b
  {
    if 0 <= a then a / b else -(-a / b)
  }

  /** update_weight; returns the growth of the weight. */
  method UpdateWeight(m0: P.Market, now: int) returns (m: P.Market, delta: int)
    requires 0 < m0.targetRatio <= m0.initialRatio <= P.FRAC && 0 <= m0.assumed && m0.initialTime <= now
    ensures m == P.UpdateWeight(m0, now) && delta == m.weight - m0.weight
  {
    RatioShrinks(m0, now, now);
    m := m0;
    if now >= m.targetTime {
      m := m.(ratio := m.targetRatio);
    } else {
      TruncatesTowardsInitial((m.initialRatio - m.targetRatio), now - m.initialTime, m.targetTime - m.initialTime);
      m := m.(ratio := m.initialRatio + Truncate((m.targetRatio - m.initialRatio) * (now - m.initialTime), m.targetTime - m.initialTime));
    }
    var newWeight := m.assumed * P.FRAC / m.ratio - m.assumed;
    delta := newWeight - m.weight;
    m := m.(weight := newWeight);
  }

  lemma TruncatesTowardsInitial(d: int, elapsed: int, span: int)
    requires 0 <= d && 0 <= elapsed && 0 < span
    ensures Truncate(-d * elapsed, span) == -(d * elapsed / span)
  {
    assert -d * elapsed == -(d * elapsed);
    assert 0 <= d * elapsed;
  }

  class PowerupContract {
    var now: int
    var configured: bool
    var net: P.Market
    var cpu: P.Market
    var days: int
    var minFee: int
    var orders: P.Orders
    var resources: ResourceTable
    /** What delegation, loans and the RAM market have granted to each account. */
    ghost var others: Claims

    ghost function S(): P.State
      reads this
    {
      P.State(now, configured, net, cpu, days, minFee, orders, resources)
    }

    ghost predicate Valid()
      reads this
    {
      Inv(S(), others)
    }

    constructor (time: int, granted: ResourceTable, ghost claims: Claims)
      requires 0 <= time
      requires Granted(granted, claims)
      ensures Valid() && Initial(S(), others)
    {
      now, configured, days, minFee := time, false, 30, 0;
      net, cpu, orders, resources := P.DEFAULT, P.DEFAULT, map[], granted;
      others := claims;
    }

    method AdjustResources(account: Name, netDelta: int, cpuDelta: int) returns (ok: bool)
      modifies `resources
      ensures ok == Adjust(old(resources), account, netDelta, cpuDelta).Some?
      ensures ok ==> Adjust(old(resources), account, netDelta, cpuDelta) == Some(resources)
    {
      if netDelta == 0 && cpuDelta == 0 {
        return true;
      }
      if account !in resources {
        resources := resources[account := Row(netDelta, cpuDelta, 0)];
      } else {
        var row := resources[account];
        resources := resources[account := row.(net := row.net + netDelta, cpu := row.cpu + cpuDelta)];
      }
      if resources[account].net < 0 || resources[account].cpu < 0 {
        return false;
      }
      if resources[account].IsEmpty() {
        resources := resources - {account};
        assert resources == old(resources) - {account};
      }
      return true;
    }

    /** The loop of process_powerup_queue: expired orders are erased in order of expiry. */
    method ExpireOrders(maxItems: nat, ghost g: Claims) returns (netDelta: int, cpuDelta: int)
      requires ValidOrders(orders) && Backed(resources, orders, g)
      modifies `orders, `resources
      ensures P.Expire(old(orders), old(resources), now, maxItems) == Some(P.Expired(orders, resources, netDelta, cpuDelta))
    {
      hide Backed, Adjust, ValidOrders, P.Expire, Continues, P.FirstOrder;
      ExpireKeeps(orders, resources, now, maxItems, g);
      ContinuesAtStart(orders, resources, now, maxItems);
      netDelta, cpuDelta := 0, 0;
      var left := maxItems;
      while left > 0
        invariant 0 <= left <= maxItems
        invariant ValidOrders(orders) && Backed(resources, orders, g)
        invariant Continues(old(orders), old(resources), now, maxItems, orders, resources, left, netDelta, cpuDelta)
      {
        if orders == map[] || orders[P.FirstOrder(orders)].expires > now {
          ContinuesToEnd(old(orders), old(resources), now, maxItems, orders, resources, left, netDelta, cpuDelta);
          return;
        }
        ContinuesStep(old(orders), old(resources), now, maxItems, orders, resources, left, netDelta, cpuDelta);
        var n := P.FirstOrder(orders);
        var order := orders[n];
        OrderGone(orders, resources, n, g);
        var ok := AdjustResources(order.owner, -order.net, -order.cpu);
        assert ok;
        netDelta := netDelta + order.net;
        cpuDelta := cpuDelta + order.cpu;
        orders := orders - {n};
        left := left - 1;
      }
      ContinuesToEnd(old(orders), old(resources), now, maxItems, orders, resources, left, netDelta, cpuDelta);
    }

    /** process_powerup_queue without the move of the reserve. */
    method ProcessPowerupQueue(maxItems: nat, decayedNet: int, decayedCpu: int) returns (netDelta: int, cpuDelta: int)
      requires Valid() && configured
      modifies `net, `cpu, `orders, `resources
      ensures P.ProcessQueue(old(S()), maxItems, decayedNet, decayedCpu) == Some(P.Processed(S(), netDelta, cpuDelta))
      ensures MidInv(P.Processed(S(), netDelta, cpuDelta), others)
    {
      hide Backed, ValidMarket, P.UpdateUtilization, P.UpdateWeight, MidInv, P.Expire, ValidOrders;
      ProcessQueueKeeps(S(), maxItems, decayedNet, decayedCpu, others);
      Schedules(net, now);
      Schedules(cpu, now);
      netDelta, cpuDelta := ExpireOrders(maxItems, WithReserve(others, net.weight - net.utilization, cpu.weight - cpu.utilization));
      var d: int;
      net, d := UpdateMarket(net, decayedNet, netDelta);
      netDelta := netDelta + d;
      cpu, d := UpdateMarket(cpu, decayedCpu, cpuDelta);
      cpuDelta := cpuDelta + d;
    }

    /** One market once `gone` of what it sold has expired. */
    method UpdateMarket(m0: P.Market, decayed: int, gone: int) returns (m: P.Market, delta: int)
      requires 0 < m0.targetRatio <= m0.initialRatio <= P.FRAC && 0 <= m0.assumed && m0.initialTime <= now
      ensures var m1 := P.UpdateUtilization(m0, now, decayed);
              m == P.UpdateWeight(m1.(utilization := m1.utilization - gone), now) && delta == m.weight - m0.weight
    {
      hide P.UpdateWeight, P.UpdateUtilization;
      UtilizationFrame(m0, now, decayed);
      m := UpdateUtilization(m0, now, decayed);
      m := m.(utilization := m.utilization - gone);
      m, delta := UpdateWeight(m, now);
    }

    method PowerupExec(max: nat, decayedNet: int, decayedCpu: int) returns (ok: bool)
      requires Valid()
      modifies `net, `cpu, `orders, `resources
      ensures ok == P.PowerupExec(old(S()), max, decayedNet, decayedCpu).Some?
      ensures ok ==> P.PowerupExec(old(S()), max, decayedNet, decayedCpu) == Some(S()) && Valid()
    {
      hide Inv, MidInv, P.ProcessQueue, Adjust;
      PowerupExecKeeps(S(), max, decayedNet, decayedCpu, others);
      if !configured {
        return false;
      }
      var netDelta, cpuDelta := ProcessPowerupQueue(max, decayedNet, decayedCpu);
      ok := AdjustResources(P.RESERV, netDelta, cpuDelta);
    }

    /** The lambda `process` of powerup for one market. */
    method Sell(m0: P.Market, frac: int, f: int) returns (ok: bool, m: P.Market, amount: int, fee: int)
      requires 0 <= m0.weight
      ensures ok == P.Sells(m0, frac, f)
      ensures ok ==> m == P.Sold(m0, frac) && amount == P.Portion(m0, frac) && fee == if frac == 0 then 0 else f
      ensures ok ==> m.utilization - m0.utilization == amount && amount * P.FRAC <= frac * m0.weight < (amount + 1) * P.FRAC
      ensures ok && frac != 0 ==> m.utilization <= m.weight == m0.weight && 0 < fee
    {
      m, amount, fee := m0, 0, 0;
      if frac == 0 {
        return true, m, 0, 0;
      }
      amount := frac * m.weight / P.FRAC;
      if m.weight == 0 || !(m.utilization + amount <= m.weight) || !(f > 0) {
        return false, m, amount, fee;
      }
      fee := f;
      m := m.(utilization := m.utilization + amount);
      return true, m, amount, fee;
    }

    method PowerUp(receiver: Name, days: int, netFrac: int, cpuFrac: int, maxPayment: int,
                   decayedNet: int, decayedCpu: int, feeNet: int, feeCpu: int, id: nat) returns (ok: bool)
      requires Valid()
      modifies `net, `cpu, `orders, `resources
      ensures var r := P.PowerUp(old(S()), receiver, days, netFrac, cpuFrac, maxPayment, decayedNet, decayedCpu, feeNet, feeCpu, id);
              ok == r.Some? && (ok ==> r == Some(S()) && Valid())
      ensures ok ==> id in orders && orders[id].owner == receiver && orders[id].expires == now + days * 86_400
    {
      hide Inv, MidInv, P.ProcessQueue, Adjust, P.Portion, P.Sells, P.Sold;
      PowerUpKeeps(S(), receiver, days, netFrac, cpuFrac, maxPayment, decayedNet, decayedCpu, feeNet, feeCpu, id, others);
      if !configured || days != this.days || !(0 <= netFrac <= P.FRAC) || !(0 <= cpuFrac <= P.FRAC) {
        return false;
      }
      var netDelta, cpuDelta := ProcessPowerupQueue(2, decayedNet, decayedCpu);
      WeightsNonNegative(P.Processed(S(), netDelta, cpuDelta), others);
      ghost var p := P.Processed(S(), netDelta, cpuDelta);
      var netAmount, cpuAmount, fee1, fee2;
      ok, net, netAmount, fee1 := Sell(net, netFrac, feeNet);
      if !ok { return; }
      ok, cpu, cpuAmount, fee2 := Sell(cpu, cpuFrac, feeCpu);
      if !ok { return; }
      if !(fee1 + fee2 <= maxPayment) || !(fee1 + fee2 >= minFee) || id in orders {
        return false;
      }
      orders := orders[id := P.Order(receiver, netAmount, cpuAmount, now + days * P.SECONDS_PER_DAY)];
      ok := AdjustResources(receiver, netAmount, cpuAmount);
      if !ok { return; }
      ok := AdjustResources(P.RESERV, netDelta - netAmount, cpuDelta - cpuAmount);
    }

    /** The lambda `update` of cfgpowerup for one market. */
    method Configure(m0: P.Market, c: P.MarketConfig) returns (ok: bool, m: P.Market)
      ensures ok == P.Configure(m0, c, now).Some?
      ensures ok ==> P.Configure(m0, c, now) == Some(m)
      ensures ok ==> && 0 < m.targetRatio <= m.initialRatio <= P.FRAC && 1 <= m.assumed
                     && m.initialTime == now <= m.targetTime && P.RatioAt(m, now) == m.initialRatio
                     && m.weight == m0.weight && m.utilization == m0.utilization
    {
      m := m0;
      var current := m.initialRatio;
      if c.current.Some? {
        current := c.current.value;
      } else if m.ratio != 0 {
        current := m.ratio;
      }
      var target := if c.target.Some? then c.target.value else m.targetRatio;
      if c.assumed.None? && m.assumed == 0 {
        return false, m;
      }
      var assumed := if c.assumed.Some? then c.assumed.value else m.assumed;
      var targetTime := now;
      if current != target {
        if c.targetTime.None? && m.targetTime == 0 {
          return false, m;
        }
        targetTime := if c.targetTime.Some? then c.targetTime.value else m.targetTime;
        if !(targetTime > now) {
          return false, m;
        }
      }
      if !(current > 0) || !(current <= P.FRAC) || !(target > 0) || !(target <= current) || !(assumed >= 1)
        || !(assumed * P.FRAC / target <= P.INT64_MAX) {
        return false, m;
      }
      m := m.(assumed := assumed, initialRatio := current, targetRatio := target, initialTime := now, targetTime := targetTime);
      return true, m;
    }

    method Reconfigure(m0: P.Market, c: P.MarketConfig) returns (ok: bool, m: P.Market, delta: int)
      ensures ok == P.Configure(m0, c, now).Some?
      ensures ok ==> m == P.UpdateWeight(P.Configure(m0, c, now).value, now) && delta == m.weight - m0.weight
    {
      hide P.UpdateWeight, P.Configure;
      ConfiguredSchedule(m0, c, now);
      delta := 0;
      ok, m := Configure(m0, c);
      if ok {
        m, delta := UpdateWeight(m, now);
      }
    }

    method CfgPowerup(netConfig: P.MarketConfig, cpuConfig: P.MarketConfig, cfgDays: Option<int>, cfgMinFee: Option<int>,
                      decayedNet: int, decayedCpu: int) returns (ok: bool)
      requires Valid()
      modifies `configured, `net, `cpu, `days, `minFee, `resources
      ensures var r := P.Cfg(old(S()), netConfig, cpuConfig, cfgDays, cfgMinFee, decayedNet, decayedCpu);
              ok == r.Some? && (ok ==> r == Some(S()) && Valid())
    {
      hide Inv, P.Current, P.Configure, P.UpdateWeight, Adjust;
      if P.Cfg(S(), netConfig, cpuConfig, cfgDays, cfgMinFee, decayedNet, decayedCpu).Some? {
        CfgKeeps(S(), netConfig, cpuConfig, cfgDays, cfgMinFee, decayedNet, decayedCpu, others);
      }
      var netDelta, cpuDelta := BringUpToDate(decayedNet, decayedCpu);
      if cfgDays.Some? {
        days := cfgDays.value;
      }
      if cfgMinFee.None? && minFee == 0 {
        return false;
      }
      if cfgMinFee.Some? {
        minFee := cfgMinFee.value;
      }
      if !(days > 0) || !(minFee > 0) {
        return false;
      }
      var d: int;
      ok, net, d := Reconfigure(net, netConfig);
      if !ok { return; }
      netDelta := netDelta + d;
      ok, cpu, d := Reconfigure(cpu, cpuConfig);
      if !ok { return; }
      cpuDelta := cpuDelta + d;
      if !(net.weight >= net.utilization) || !(cpu.weight >= cpu.utilization) {
        return false;
      }
      net := net.(adjusted := Min(net.adjusted, net.weight));
      cpu := cpu.(adjusted := Min(cpu.adjusted, cpu.weight));
      ok := AdjustResources(P.RESERV, netDelta, cpuDelta);
      configured := true;
    }

    method BringUpToDate(decayedNet: int, decayedCpu: int) returns (netDelta: int, cpuDelta: int)
      requires Valid()
      modifies `net, `cpu
      ensures net == P.Current(old(S()), old(net), decayedNet) && cpu == P.Current(old(S()), old(cpu), decayedCpu)
      ensures netDelta == net.weight - old(net).weight && cpuDelta == cpu.weight - old(cpu).weight
    {
      hide Backed, ValidMarket, ValidOrders, P.UpdateUtilization, P.UpdateWeight;
      netDelta, cpuDelta := 0, 0;
      if configured {
        Schedules(net, now);
        Schedules(cpu, now);
        UtilizationFrame(net, now, decayedNet);
        UtilizationFrame(cpu, now, decayedCpu);
        net := UpdateUtilization(net, now, decayedNet);
        cpu := UpdateUtilization(cpu, now, decayedCpu);
        net, netDelta := UpdateWeight(net, now);
        cpu, cpuDelta := UpdateWeight(cpu, now);
      } else {
        net := net.(utilTime := now);
        cpu := cpu.(utilTime := now);
      }
    }
  }

  /** What is left of the loop yields what the whole loop yields. */
  ghost predicate Continues(orders0: P.Orders, res0: ResourceTable, now: int, max: nat, orders: P.Orders, res: ResourceTable,
                            left: nat, net: int, cpu: int)
  {
    var whole, rest := P.Expire(orders0, res0, now, max), P.Expire(orders, res, now, left);
    && whole.Some? && rest.Some?
    && whole.value == rest.value.(net := rest.value.net + net, cpu := rest.value.cpu + cpu)
  }

  lemma ContinuesAtStart(orders: P.Orders, res: ResourceTable, now: int, max: nat)
    requires P.Expire(orders, res, now, max).Some?
    ensures Continues(orders, res, now, max, orders, res, max, 0, 0)
  {
  }

  lemma ContinuesStep(orders0: P.Orders, res0: ResourceTable, now: int, max: nat, orders: P.Orders, res: ResourceTable,
                      left: nat, net: int, cpu: int)
    requires Continues(orders0, res0, now, max, orders, res, left, net, cpu)
    requires 0 < left && orders != map[] && orders[P.FirstOrder(orders)].expires <= now
    ensures var n := P.FirstOrder(orders);
            var r := Adjust(res, orders[n].owner, -orders[n].net, -orders[n].cpu);
            r.Some? && Continues(orders0, res0, now, max, orders - {n}, r.value, left - 1, net + orders[n].net, cpu + orders[n].cpu)
  {
    hide Adjust, P.FirstOrder;
  }

  lemma ContinuesToEnd(orders0: P.Orders, res0: ResourceTable, now: int, max: nat, orders: P.Orders, res: ResourceTable,
                       left: nat, net: int, cpu: int)
    requires Continues(orders0, res0, now, max, orders, res, left, net, cpu)
    requires left == 0 || orders == map[] || orders[P.FirstOrder(orders)].expires > now
    ensures P.Expire(orders0, res0, now, max) == Some(P.Expired(orders, res, net, cpu))
  {
  }

  lemma Schedules(m: P.Market, now: int)
    requires ValidMarket(m, now)
    ensures 0 < m.targetRatio <= m.initialRatio <= P.FRAC && 0 <= m.assumed && m.initialTime <= now
  {
  }

  lemma UtilizationFrame(m: P.Market, now: int, decayed: int)
    ensures var m' := P.UpdateUtilization(m, now, decayed); m' == m.(adjusted := m'.adjusted, utilTime := m'.utilTime)
  {
  }

  lemma WeightsNonNegative(p: P.Processed, g: Claims)
    requires MidInv(p, g)
    ensures 0 <= p.state.net.weight && 0 <= p.state.cpu.weight
  {
    hide Backed;
  }
}
