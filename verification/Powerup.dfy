/** The powerup market: resources are sold for a fixed number of days out of a reserve whose size grows as the
    market's weight ratio shrinks. Times are whole seconds. */
module Powerup {
  import opened Tables
  import opened Resources

  const RESERV: Name := 0x5530_ea02_eac2_afb0
  const FRAC := 1_000_000_000_000_000
  const INT64_MAX := 0x7FFF_FFFF_FFFF_FFFF
  const SECONDS_PER_DAY := 24 * 3600

  /** One row of powup.state for one resource, without its price curve. */
  datatype Market = Market(
    weight: int, ratio: int, assumed: int,
    initialRatio: int, targetRatio: int, initialTime: int, targetTime: int,
    utilization: int, adjusted: int, utilTime: int)

  const DEFAULT: Market := Market(0, 0, 0, FRAC, FRAC / 100, 0, 0, 0, 0, 0)

  datatype Order = Order(owner: Name, net: int, cpu: int, expires: int)

  type Orders = map<nat, Order>

  datatype State = State(
    now: int,
    configured: bool,
    net: Market, cpu: Market, days: int, minFee: int,
    orders: Orders,
    resources: ResourceTable)

  // ----- one market -----

  /** The decay is what `exp` yields for the elapsed time; the contract clamps it. */
  function UpdateUtilization(m: Market, now: int, decayed: int): Market {
    if now <= m.utilTime then m
    else if m.adjusted <= m.utilization then m.(adjusted := m.utilization, utilTime := now)
    else
      var diff := m.adjusted - m.utilization;
      m.(adjusted := m.utilization + Max(0, Min(decayed, diff)), utilTime := now)
  }

  /** The weight ratio shrinks linearly; the division truncates towards the initial ratio. */
  function RatioAt(m: Market, now: int): int {
    if m.targetTime <= now || m.targetTime <= m.initialTime then m.targetRatio
    else m.initialRatio - (m.initialRatio - m.targetRatio) * (now - m.initialTime) / (m.targetTime - m.initialTime)
  }

  function WeightOf(assumed: int, ratio: int): int {
    if ratio == 0 then 0 else assumed * FRAC / ratio - assumed
  }

  function UpdateWeight(m: Market, now: int): Market {
    var ratio := RatioAt(m, now);
    m.(ratio := ratio, weight := WeightOf(m.assumed, ratio))
  }

  // ----- the queue -----

  datatype Expired = Expired(orders: Orders, resources: ResourceTable, net: int, cpu: int)

  /** The head of the byexpires index. */
  function FirstOrder(orders: Orders): (n: nat)
    requires orders != map[]
    ensures n in orders && forall m | m in orders :: orders[n].expires <= orders[m].expires
  {
    var index: map<int, int> := map m | m in orders :: orders[m].expires;
    assert index != map[] by {
      var some :| some in orders;
      assert some in index;
    }
    assert forall m | m in orders :: m in index;
    First(index)
  }

  function Expire(orders: Orders, res: ResourceTable, now: int, max: nat): Option<Expired>
    decreases max
  {
    if max == 0 || orders == map[] || orders[FirstOrder(orders)].expires > now
    then Some(Expired(orders, res, 0, 0))
    else
      var n := FirstOrder(orders);
      var order := orders[n];
      var res1 :- Adjust(res, order.owner, -order.net, -order.cpu);
      var rest :- Expire(orders - {n}, res1, now, max - 1);
      Some(rest.(net := rest.net + order.net, cpu := rest.cpu + order.cpu))
  }

  /** A processed queue and what became available for the reserve. */
  datatype Processed = Processed(state: State, net: int, cpu: int)

  function ProcessQueue(s: State, max: nat, decayedNet: int, decayedCpu: int): Option<Processed> {
    var net := UpdateUtilization(s.net, s.now, decayedNet);
    var cpu := UpdateUtilization(s.cpu, s.now, decayedCpu);
    var e :- Expire(s.orders, s.resources, s.now, max);
    var net' := UpdateWeight(net.(utilization := net.utilization - e.net), s.now);
    var cpu' := UpdateWeight(cpu.(utilization := cpu.utilization - e.cpu), s.now);
    Some(Processed(s.(net := net', cpu := cpu', orders := e.orders, resources := e.resources),
                   e.net + net'.weight - s.net.weight, e.cpu + cpu'.weight - s.cpu.weight))
  }

  // ----- actions -----

  function PowerupExec(s: State, max: nat, decayedNet: int, decayedCpu: int): Option<State> {
    var _ :- Need(s.configured);
    var p :- ProcessQueue(s, max, decayedNet, decayedCpu);
    var res :- Adjust(p.state.resources, RESERV, p.net, p.cpu);
    Some(p.state.(resources := res))
  }

  /** The part of a market that a fraction asks for. */
  function Portion(m: Market, frac: int): int {
    frac * m.weight / FRAC
  }

  predicate Sells(m: Market, frac: int, fee: int) {
    frac != 0 ==> m.weight != 0 && m.utilization + Portion(m, frac) <= m.weight && 0 < fee
  }

  function Sold(m: Market, frac: int): Market {
    m.(utilization := m.utilization + Portion(m, frac))
  }

  /** Queues the order and moves its resources from the reserve to the receiver. */
  function Queue(p: Processed, receiver: Name, days: int, fracNet: int, fracCpu: int, id: nat): Option<State> {
    var s1 := p.state;
    var net, cpu := Portion(s1.net, fracNet), Portion(s1.cpu, fracCpu);
    var res1 :- Adjust(s1.resources, receiver, net, cpu);
    var res2 :- Adjust(res1, RESERV, p.net - net, p.cpu - cpu);
    Some(s1.(net := Sold(s1.net, fracNet), cpu := Sold(s1.cpu, fracCpu),
             orders := s1.orders[id := Order(receiver, net, cpu, s1.now + days * SECONDS_PER_DAY)],
             resources := res2))
  }

  /** `feeNet` and `feeCpu` are the values of calc_powerup_fee; `id` is the order table's next key. */
  function PowerUp(s: State, receiver: Name, days: int, fracNet: int, fracCpu: int, maxPayment: int,
                   decayedNet: int, decayedCpu: int, feeNet: int, feeCpu: int, id: nat): Option<State>
  {
    var _ :- Need(s.configured && days == s.days);
    var _ :- Need(0 <= fracNet <= FRAC && 0 <= fracCpu <= FRAC);
    var p :- ProcessQueue(s, 2, decayedNet, decayedCpu);
    var s1 := p.state;
    var _ :- Need(Sells(s1.net, fracNet, feeNet) && Sells(s1.cpu, fracCpu, feeCpu));
    var fee := (if fracNet == 0 then 0 else feeNet) + (if fracCpu == 0 then 0 else feeCpu);
    var _ :- Need(s.minFee <= fee <= maxPayment);
    var _ :- Need(id !in s1.orders);
    Queue(p, receiver, days, fracNet, fracCpu, id)
  }

  /** Values left out of a configuration keep their setting. */
  datatype MarketConfig = MarketConfig(current: Option<int>, target: Option<int>, assumed: Option<int>, targetTime: Option<int>)

  function Configure(m: Market, c: MarketConfig, now: int): Option<Market> {
    var current := if c.current.Some? then c.current.value else if m.ratio != 0 then m.ratio else m.initialRatio;
    var target := if c.target.Some? then c.target.value else m.targetRatio;
    var _ :- Need(c.assumed.Some? || m.assumed != 0);
    var assumed := if c.assumed.Some? then c.assumed.value else m.assumed;
    var _ :- Need(current == target || c.targetTime.Some? || m.targetTime != 0);
    var targetTime := if current == target then now else if c.targetTime.Some? then c.targetTime.value else m.targetTime;
    var _ :- Need(current == target || now < targetTime);
    var _ :- Need(0 < current <= FRAC && 0 < target <= current && 1 <= assumed);
    var _ :- Need(assumed * FRAC / target <= INT64_MAX);
    Some(m.(assumed := assumed, initialRatio := current, targetRatio := target, initialTime := now, targetTime := targetTime))
  }

  /** The markets as cfgpowerup finds them: brought up to date, or the defaults. */
  function Current(s: State, m: Market, decayed: int): Market {
    if s.configured then UpdateWeight(UpdateUtilization(m, s.now, decayed), s.now) else m.(utilTime := s.now)
  }

  function Capped(m: Market): Market {
    m.(adjusted := Min(m.adjusted, m.weight))
  }

  function Cfg(s: State, netConfig: MarketConfig, cpuConfig: MarketConfig, days: Option<int>, minFee: Option<int>,
               decayedNet: int, decayedCpu: int): Option<State>
  {
    var net0, cpu0 := Current(s, s.net, decayedNet), Current(s, s.cpu, decayedCpu);
    var days1 := if days.Some? then days.value else s.days;
    var _ :- Need(minFee.Some? || s.minFee != 0);
    var minFee1 := if minFee.Some? then minFee.value else s.minFee;
    var _ :- Need(0 < days1 && 0 < minFee1);
    var net1 :- Configure(net0, netConfig, s.now);
    var cpu1 :- Configure(cpu0, cpuConfig, s.now);
    var net2, cpu2 := UpdateWeight(net1, s.now), UpdateWeight(cpu1, s.now);
    var _ :- Need(net2.utilization <= net2.weight && cpu2.utilization <= cpu2.weight);
    var res :- Adjust(s.resources, RESERV, net2.weight - s.net.weight, cpu2.weight - s.cpu.weight);
    Some(s.(configured := true, net := Capped(net2), cpu := Capped(cpu2), days := days1, minFee := minFee1, resources := res))
  }

  datatype Action =
    | ExecCall(max: nat, decayedNet: int, decayedCpu: int)
    | PowerUpCall(receiver: Name, days: int, fracNet: int, fracCpu: int, maxPayment: int,
                  decayedNet: int, decayedCpu: int, feeNet: int, feeCpu: int, id: nat)
    | CfgCall(netConfig: MarketConfig, cpuConfig: MarketConfig, cfgDays: Option<int>, cfgMinFee: Option<int>,
              decayedNet: int, decayedCpu: int)
    | Advance(time: int)

  function Step(s: State, a: Action): Option<State> {
    match a
    case ExecCall(max, dn, dc) => PowerupExec(s, max, dn, dc)
    case PowerUpCall(receiver, days, fn, fc, maxPayment, dn, dc, feeNet, feeCpu, id) =>
      PowerUp(s, receiver, days, fn, fc, maxPayment, dn, dc, feeNet, feeCpu, id)
    case CfgCall(nc, cc, days, minFee, dn, dc) => Cfg(s, nc, cc, days, minFee, dn, dc)
    case Advance(time) => if s.now <= time then Some(s.(now := time)) else None
  }
}
