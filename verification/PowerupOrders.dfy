/** What a powerup order is: how much of the market it takes, how long it lasts, and when the queue lets it go. */
module PowerupOrders {
  import opened Tables
  import opened Resources
  import opened Powerup
  import opened PowerupInvariants
  import Bancor

  // ----- the queue -----

  ghost predicate Due(orders: Orders, n: nat, now: int) {
    n in orders && orders[n].expires <= now
  }

  /** A queue run takes the orders that expired first, as many as are due, but at most `max`. */
  ghost predicate TookOldest(orders: Orders, kept: Orders, now: int, max: nat) {
    && (forall n | n in kept :: n in orders && kept[n] == orders[n])
    && (forall n, m | n in orders && n !in kept && m in kept :: orders[n].expires <= orders[m].expires)
    && (forall n | n in orders && n !in kept :: Due(orders, n, now))
    && |kept| <= |orders| <= |kept| + max
    && ((exists n :: Due(kept, n, now)) ==> |orders| == |kept| + max)
  }

  lemma {:induction false} ExpireTakesOldest(orders: Orders, res: ResourceTable, now: int, max: nat)
    requires Expire(orders, res, now, max).Some?
    ensures TookOldest(orders, Expire(orders, res, now, max).value.orders, now, max)
    decreases max
  {
    hide Adjust, FirstOrder, TookOldest;
    if max == 0 || orders == map[] || orders[FirstOrder(orders)].expires > now {
      NothingToTake(orders, now, max);
    } else {
      var n := FirstOrder(orders);
      var res1 := Adjust(res, orders[n].owner, -orders[n].net, -orders[n].cpu).value;
      ExpireTakesOldest(orders - {n}, res1, now, max - 1);
      assert |orders - {n}| == |orders| - 1;
      var kept := Expire(orders - {n}, res1, now, max - 1).value.orders;
      OneMore(orders, n, kept, now, max);
    }
  }

  lemma NothingToTake(orders: Orders, now: int, max: nat)
    requires max == 0 || forall n | n in orders :: now < orders[n].expires
    ensures TookOldest(orders, orders, now, max)
  {
  }

  lemma OneMore(orders: Orders, n: nat, kept: Orders, now: int, max: nat)
    requires n in orders && orders[n].expires <= now && forall m | m in orders :: orders[n].expires <= orders[m].expires
    requires 0 < max && |orders - {n}| == |orders| - 1 && TookOldest(orders - {n}, kept, now, max - 1)
    ensures TookOldest(orders, kept, now, max)
  {
    forall m | m in orders && m !in kept ensures Due(orders, m, now) && forall k | k in kept :: orders[m].expires <= orders[k].expires {
      if m != n {
        assert m in orders - {n};
        assert Due(orders - {n}, m, now);
      }
    }
  }

  // ----- a sale -----

  /** A sold fraction is that fraction of the market's weight, rounded down. */
  lemma PortionExact(m: Market, frac: int)
    ensures Portion(m, frac) * 1_000_000_000_000_000 <= frac * m.weight < (Portion(m, frac) + 1) * 1_000_000_000_000_000
  {
    Bancor.DivBounds(frac * m.weight, FRAC);
  }

  /** A market sells a fraction exactly if it is not empty, the fee is positive, and what is unsold covers it. */
  lemma SaleFits(m: Market, frac: int, fee: int)
    requires frac != 0
    ensures Sells(m, frac, fee) <==>
            m.weight != 0 && 0 < fee && frac * m.weight < (m.weight - m.utilization + 1) * 1_000_000_000_000_000
  {
    PortionExact(m, frac);
  }

  lemma QueuesExactly(p: Processed, receiver: Name, days: int, fn: int, fc: int, id: nat)
    requires Queue(p, receiver, days, fn, fc, id).Some?
    ensures var s, s' := p.state, Queue(p, receiver, days, fn, fc, id).value;
            var o := Order(receiver, Portion(s.net, fn), Portion(s.cpu, fc), s.now + days * 86_400);
            && s'.orders == s.orders[id := o] && s'.now == s.now
            && s'.net == s.net.(utilization := s.net.utilization + o.net)
            && s'.cpu == s.cpu.(utilization := s.cpu.utilization + o.cpu)
            && (receiver != RESERV ==>
                  && NetOf(s'.resources, receiver) == NetOf(s.resources, receiver) + o.net
                  && CpuOf(s'.resources, receiver) == CpuOf(s.resources, receiver) + o.cpu)
  {
    hide Adjust, Portion;
    var s1 := p.state;
    var net, cpu := Portion(s1.net, fn), Portion(s1.cpu, fc);
    AdjustMeaning(s1.resources, receiver, net, cpu);
    AdjustMeaning(Adjust(s1.resources, receiver, net, cpu).value, RESERV, p.net - net, p.cpu - cpu);
  }

  /** A successful sale adds one order, the receiver's, that holds the fractions asked for and expires after exactly `days`
      days; of the other orders none changes, and the receiver gets what the order holds. */
  lemma SaleAddsOneOrder(s: State, receiver: Name, days: int, fn: int, fc: int, maxPayment: int,
                         dn: int, dc: int, feeNet: int, feeCpu: int, id: nat)
    requires PowerUp(s, receiver, days, fn, fc, maxPayment, dn, dc, feeNet, feeCpu, id).Some?
    ensures var s' := PowerUp(s, receiver, days, fn, fc, maxPayment, dn, dc, feeNet, feeCpu, id).value;
            && id in s'.orders && days == s.days && s'.now == s.now
            && var o := s'.orders[id];
               && o.owner == receiver && o.expires == s.now + days * 86_400
               && o.net * 1_000_000_000_000_000 <= fn * s'.net.weight < (o.net + 1) * 1_000_000_000_000_000
               && o.cpu * 1_000_000_000_000_000 <= fc * s'.cpu.weight < (o.cpu + 1) * 1_000_000_000_000_000
               && var p := ProcessQueue(s, 2, dn, dc).value;
                  && id !in p.state.orders && s'.orders == p.state.orders[id := o]
                  && TookOldest(s.orders, p.state.orders, s.now, 2)
                  && s'.net.utilization == p.state.net.utilization + o.net
                  && s'.cpu.utilization == p.state.cpu.utilization + o.cpu
                  && (receiver != RESERV ==>
                        && NetOf(s'.resources, receiver) == NetOf(p.state.resources, receiver) + o.net
                        && CpuOf(s'.resources, receiver) == CpuOf(p.state.resources, receiver) + o.cpu)
  {
    hide Queue, TookOldest, Portion, UpdateUtilization, UpdateWeight, Expire, Sells;
    var p := ProcessQueue(s, 2, dn, dc).value;
    ExpireTakesOldest(s.orders, s.resources, s.now, 2);
    PortionExact(p.state.net, fn);
    PortionExact(p.state.cpu, fc);
    QueuesExactly(p, receiver, days, fn, fc, id);
  }

  /** An order that has not expired outlives every action unchanged. */
  lemma UnexpiredStays(s: State, a: Action, n: nat)
    requires Step(s, a).Some? && n in s.orders && s.now < s.orders[n].expires
    ensures n in Step(s, a).value.orders && Step(s, a).value.orders[n] == s.orders[n]
  {
    hide Adjust, UpdateUtilization, UpdateWeight, Configure, Sells, Expire, TookOldest, Sold;
    match a
    case ExecCall(max, dn, dc) =>
      ExpireTakesOldest(s.orders, s.resources, s.now, max);
      NotTaken(s.orders, Expire(s.orders, s.resources, s.now, max).value.orders, s.now, max, n);
    case PowerUpCall(receiver, days, fn, fc, maxPayment, dn, dc, feeNet, feeCpu, id) =>
      ExpireTakesOldest(s.orders, s.resources, s.now, 2);
      NotTaken(s.orders, Expire(s.orders, s.resources, s.now, 2).value.orders, s.now, 2, n);
    case CfgCall(nc, cc, days, minFee, dn, dc) =>
    case Advance(time) =>
  }

  lemma NotTaken(orders: Orders, kept: Orders, now: int, max: nat, n: nat)
    requires TookOldest(orders, kept, now, max) && n in orders && now < orders[n].expires
    ensures n in kept && kept[n] == orders[n]
  {
  }

  // ----- the market -----

  /** The ratio moves along the straight line from the initial to the target ratio, rounded up. */
  lemma RatioIsLinear(m: Market, now: int)
    requires m.targetRatio <= m.initialRatio && m.initialTime <= now
    ensures var r, d, span := RatioAt(m, now), m.initialRatio - m.targetRatio, m.targetTime - m.initialTime;
            if m.targetTime <= now then r == m.targetRatio
            else (m.initialRatio - r) * span <= d * (now - m.initialTime) < (m.initialRatio - r + 1) * span
  {
    if now < m.targetTime {
      Bancor.DivBounds((m.initialRatio - m.targetRatio) * (now - m.initialTime), m.targetTime - m.initialTime);
    }
  }

  /** The market and the assumed stake together are what makes the assumed stake the given part of the whole, rounded down. */
  lemma WeightExact(assumed: int, ratio: int)
    requires 0 < ratio
    ensures var total := assumed + WeightOf(assumed, ratio);
            total * ratio <= assumed * 1_000_000_000_000_000 < (total + 1) * ratio
  {
    Bancor.DivBounds(assumed * FRAC, ratio);
  }

  /** Between updates the adjusted utilization decays towards the utilization, by as much as the decay says and never past
      it. */
  lemma DecayIsBounded(m: Market, now: int, decayed: int)
    requires m.utilTime < now
    ensures var m' := UpdateUtilization(m, now, decayed);
            && m'.utilTime == now && m'.utilization == m.utilization
            && (m.utilization < m.adjusted ==> m.utilization <= m'.adjusted <= m.adjusted)
            && (m.utilization < m.adjusted && 0 <= decayed <= m.adjusted - m.utilization ==> m'.adjusted == m.utilization + decayed)
  {
  }

  /** A configuration takes what it is given, keeps what it is not given, and starts the schedule now. It is refused exactly if
      the ratios or the stake are out of bounds, the market would not fit 64 bits, or a changing ratio has no time ahead to
      change in. */
  lemma ConfiguredAsAsked(m: Market, c: MarketConfig, now: int)
    requires c.current.Some? && c.target.Some? && c.assumed.Some? && c.targetTime.Some?
    ensures var r := Configure(m, c, now);
            var ratio, target, stake, end := c.current.value, c.target.value, c.assumed.value, c.targetTime.value;
            && (r.Some? <==>
                  && 0 < target <= ratio <= FRAC && 1 <= stake && (ratio == target || now < end)
                  && stake * FRAC / target <= INT64_MAX)
            && (r.Some? ==>
                  && r.value.assumed == stake && r.value.initialRatio == ratio && r.value.targetRatio == target
                  && r.value.initialTime == now && r.value.targetTime == (if ratio == target then now else end))
  {
  }

  /** A configuration brings the decay up to date, caps the adjusted utilization at the new weight, leaves what is sold, and
      lets the reserve follow the weights. */
  lemma ConfiguresExactly(s: State, nc: MarketConfig, cc: MarketConfig, days: Option<int>, minFee: Option<int>, dn: int, dc: int,
                          g: Claims)
    requires Inv(s, g) && Cfg(s, nc, cc, days, minFee, dn, dc).Some?
    ensures var s' := Cfg(s, nc, cc, days, minFee, dn, dc).value;
            && s'.configured && s'.orders == s.orders
            && s'.days == (if days.Some? then days.value else s.days) && 0 < s'.days
            && s'.minFee == (if minFee.Some? then minFee.value else s.minFee) && 0 < s'.minFee
            && s'.net.utilization == s.net.utilization && s'.cpu.utilization == s.cpu.utilization
            && s'.net.utilTime == s.now && s'.cpu.utilTime == s.now
            && s'.net.adjusted == (if s.configured then Min(UpdateUtilization(s.net, s.now, dn).adjusted, s'.net.weight) else 0)
            && s'.cpu.adjusted == (if s.configured then Min(UpdateUtilization(s.cpu, s.now, dc).adjusted, s'.cpu.weight) else 0)
            && NetOf(s'.resources, RESERV) == NetOf(s.resources, RESERV) + s'.net.weight - s.net.weight
            && CpuOf(s'.resources, RESERV) == CpuOf(s.resources, RESERV) + s'.cpu.weight - s.cpu.weight
  {
    var s' := Cfg(s, nc, cc, days, minFee, dn, dc).value;
    CfgKeeps(s, nc, cc, days, minFee, dn, dc, g);
    MarketsConfigured(s, g);
    MarketsConfigured(s', g);
    hide Inv, Adjust, Configure, UpdateWeight, UpdateUtilization, Current, Capped;
    MarketConfigured(s, s.net, nc, dn);
    MarketConfigured(s, s.cpu, cc, dc);
    SameWeight(UpdateWeight(Configure(Current(s, s.net, dn), nc, s.now).value, s.now));
    SameWeight(UpdateWeight(Configure(Current(s, s.cpu, dc), cc, s.now).value, s.now));
    AdjustMeaning(s.resources, RESERV, s'.net.weight - s.net.weight, s'.cpu.weight - s.cpu.weight);
  }

  lemma SameWeight(m: Market)
    ensures Capped(m).weight == m.weight
  {
  }

  lemma MarketConfigured(s: State, m: Market, c: MarketConfig, decayed: int)
    requires m.utilTime <= s.now && (!s.configured ==> m == DEFAULT) && Configure(Current(s, m, decayed), c, s.now).Some?
    requires 0 <= Capped(UpdateWeight(Configure(Current(s, m, decayed), c, s.now).value, s.now)).adjusted
    ensures var r := Capped(UpdateWeight(Configure(Current(s, m, decayed), c, s.now).value, s.now));
            && r.utilization == m.utilization && r.utilTime == s.now
            && r.adjusted == if s.configured then Min(UpdateUtilization(m, s.now, decayed).adjusted, r.weight) else 0
  {
    ConfiguredSchedule(Current(s, m, decayed), c, s.now);
    hide Configure, WeightOf, RatioAt;
  }

  lemma MarketsConfigured(s: State, g: Claims)
    requires Inv(s, g)
    ensures s.net.utilTime <= s.now && s.cpu.utilTime <= s.now
    ensures !s.configured ==> s.net == DEFAULT && s.cpu == DEFAULT
    ensures 0 <= s.net.adjusted && 0 <= s.cpu.adjusted
  {
    hide Backed;
  }

  lemma OmittedSettingsStay(m: Market, now: int)
    requires 0 < m.targetRatio <= m.ratio <= FRAC && 1 <= m.assumed && Configure(m, MarketConfig(None, None, None, None), now).Some?
    ensures var r := Configure(m, MarketConfig(None, None, None, None), now).value;
            && r.initialRatio == m.ratio && r.targetRatio == m.targetRatio && r.assumed == m.assumed
            && (m.ratio != m.targetRatio ==> r.targetTime == m.targetTime)
            && r.initialTime == now
  {
  }
}
