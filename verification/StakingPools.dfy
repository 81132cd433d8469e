/** Staking pools: tokens are pooled, owners hold shares, and a claim pays out a bounded part of an owner's shares
    at bounded intervals. Shares are exact; amounts of tokens are truncated as the contract truncates them.
    Times are block slots, two per second. */
module StakingPools {
  import opened Tables
  import opened Resources
  import Transitions

  datatype Pool = Pool(duration: int, claimPeriod: int, balance: int, shares: real)

  datatype Voter = Voter(nextClaim: seq<int>, owned: seq<real>)

  /** `tokens` is the balance of eosio.srpool; `begin` and `end` bound the transition of fees from REX to the pools. */
  datatype State = State(
    slot: int,
    begin: int, end: int, minCreate: int,
    pools: seq<Pool>,
    voters: map<Name, Voter>,
    namebids: int,
    tokens: int)

  // ----- one pool -----

  predicate ValidPool(p: Pool) {
    && 0 <= p.balance && 0.0 <= p.shares && (0.0 < p.shares <==> 0 < p.balance)
    && 0 < p.claimPeriod < p.duration
  }

  /** The contract never divides by an empty balance; the first branch keeps the function total. */
  function SharesBought(p: Pool, amount: int): real {
    if amount == 0 || (p.shares != 0.0 && p.balance == 0) then 0.0
    else if p.shares == 0.0 then amount as real
    else amount as real * p.shares / p.balance as real
  }

  function Share(shares: real, balance: real, total: real): real
    requires total != 0.0
  {
    shares * balance / total
  }

  /** The tokens that shares are worth. */
  function Worth(p: Pool, shares: real): int {
    if shares == 0.0 then 0
    else if p.shares <= shares || p.shares == 0.0 then p.balance
    else Share(shares, p.balance as real, p.shares).Floor
  }

  /** The shares that yield `amount` tokens. */
  function SharesFor(p: Pool, amount: int): real {
    if amount == p.balance then p.shares
    else if amount == 0 || p.balance == 0 then 0.0
    else amount as real * p.shares / p.balance as real
  }

  function Buy(p: Pool, amount: int): Pool {
    p.(balance := p.balance + amount, shares := p.shares + SharesBought(p, amount))
  }

  function Sell(p: Pool, shares: real): Pool {
    p.(balance := p.balance - Worth(p, shares), shares := p.shares - shares)
  }

  // ----- an owner's stake in one pool -----

  datatype Stake = Stake(pool: Pool, owned: real, nextClaim: int)

  /** The next claim moves to the average, by tokens, of the old one and the latest possible one. */
  function Blend(next: int, balance: int, latest: int, amount: int): int {
    if balance + amount == 0 then next else (next * balance + latest * amount) / (balance + amount)
  }

  function Deposit(k: Stake, amount: int, now: int): Option<Stake> {
    var _ :- Need(0.0 < SharesBought(k.pool, amount));
    Some(Stake(Buy(k.pool, amount), k.owned + SharesBought(k.pool, amount),
          Blend(Max(k.nextClaim, now), Worth(k.pool, k.owned), now + k.pool.claimPeriod * 2, amount)))
  }

  function Portion(balance: int, p: Pool): int {
    if p.duration == 0 then 0 else balance * p.claimPeriod / p.duration
  }

  datatype Withdrawn = Withdrawn(pool: Pool, owned: real, sold: int)

  /** Claims are limited to a part `claimPeriod / duration` of what the shares are worth. */
  function Withdraw(p: Pool, owned: real, requested: int, claiming: bool): Option<Withdrawn> {
    var balance := Worth(p, owned);
    if !claiming && balance <= requested then Some(Withdrawn(Sell(p, owned), 0.0, balance))
    else
      var available := if claiming then Portion(balance, p) else balance;
      var amount := Min(available, requested);
      var _ :- Need(0 < amount);
      var shares := if SharesFor(p, amount) < owned then SharesFor(p, amount) else owned;
      var sold := Worth(p, shares);
      var _ :- Need(0.0 < shares && 0 < sold);
      Some(Withdrawn(Sell(p, shares), owned - shares, sold))
  }

  // ----- fees -----

  /** The pools' part of a fee. */
  function Transition(s: State, amount: int): int {
    Transitions.Part(s.begin, s.end, s.slot, amount)
  }

  function Active(pools: seq<Pool>): int {
    if pools == [] then 0
    else Active(pools[..|pools| - 1]) + if 0.0 < pools[|pools| - 1].shares then 1 else 0
  }

  /** What the first `k` of `n` active pools get in all. */
  function Distributed(amount: int, k: int, n: int): int
    requires 0 < n
  {
    amount * k / n
  }

  /** Splits an amount over the active pools, in order. */
  function Split(pools: seq<Pool>, amount: int, n: int): (r: seq<Pool>)
    requires 0 < n
    ensures |r| == |pools|
  {
    if pools == [] then [] else
    var last := pools[|pools| - 1];
    var k := Active(pools[..|pools| - 1]);
    Split(pools[..|pools| - 1], amount, n)
    + [if 0.0 < last.shares then last.(balance := last.balance + Distributed(amount, k + 1, n) - Distributed(amount, k, n)) else last]
  }

  /** Channels fees to the pools; what is not channelled is for REX. */
  function Channel(s: State, amount: int, partial: bool): State {
    var n := Active(s.pools);
    if n <= 0 then s else
    var toPools := if partial then Transition(s, amount) else amount;
    if toPools == 0 then s
    else s.(pools := Split(s.pools, toPools, n), tokens := s.tokens + toPools)
  }

  function DistributeNamebids(s: State): State {
    if s.namebids <= 0 || Active(s.pools) <= 0 then s
    else Channel(s, s.namebids, false).(namebids := 0)
  }

  /** Inflation for voters: the same amount to each pool that has shares. */
  function PayEach(pools: seq<Pool>, amount: int): (r: seq<Pool>)
    ensures |r| == |pools|
  {
    if pools == [] then [] else
    var last := pools[|pools| - 1];
    PayEach(pools[..|pools| - 1], amount) + [if 0.0 < last.shares then last.(balance := last.balance + amount) else last]
  }

  // ----- actions -----

  function NewVoter(n: nat): Voter {
    Voter(seq(n, i => 0), seq(n, i => 0.0))
  }

  function VoterOf(s: State, owner: Name): Voter {
    if owner in s.voters then s.voters[owner] else NewVoter(|s.pools|)
  }

  /** Every voter has an entry for every pool. */
  predicate Shaped(s: State) {
    forall n | n in s.voters :: |s.voters[n].owned| == |s.pools| && |s.voters[n].nextClaim| == |s.pools|
  }

  function StakeOf(s: State, owner: Name, i: nat): Stake
    requires Shaped(s) && i < |s.pools|
  {
    Stake(s.pools[i], VoterOf(s, owner).owned[i], VoterOf(s, owner).nextClaim[i])
  }

  function PutStake(s: State, owner: Name, i: nat, k: Stake): (r: State)
    requires Shaped(s) && i < |s.pools|
    ensures Shaped(r) && |r.pools| == |s.pools|
  {
    var v := VoterOf(s, owner);
    s.(pools := s.pools[i := k.pool],
       voters := s.voters[owner := Voter(v.nextClaim[i := k.nextClaim], v.owned[i := k.owned])])
  }

  function StakeToPool(s: State, owner: Name, i: nat, amount: int): Option<State>
    requires Shaped(s)
  {
    var _ :- Need(i < |s.pools| && 0 < amount);
    var k :- Deposit(StakeOf(s, owner, i), amount, s.slot);
    Some(PutStake(s, owner, i, k).(tokens := s.tokens + amount))
  }

  /** The contract's own checks after a withdrawal. */
  predicate NotNegative(p: Pool) {
    0.0 <= p.shares && 0 <= p.balance
  }

  /** `votes` is the requirement to vote for a proxy or 21 producers. */
  function ClaimStake(s: State, owner: Name, i: nat, requested: int, votes: bool): Option<State>
    requires Shaped(s)
  {
    var _ :- Need(i < |s.pools| && 0 < requested && votes);
    var s1 := DistributeNamebids(s);
    var k := StakeOf(s1, owner, i);
    var _ :- Need(k.nextClaim <= s.slot);
    var w :- Withdraw(k.pool, k.owned, requested, true);
    var _ :- Need(NotNegative(w.pool) && w.sold <= s1.tokens);
    Some(PutStake(s1, owner, i, Stake(w.pool, w.owned, s.slot + k.pool.claimPeriod * 2)).(tokens := s1.tokens - w.sold))
  }

  /** Takes stake out of a pool without a claim; the next claim stays. */
  function TakeStake(s: State, owner: Name, i: nat, requested: int): Option<(State, int)>
    requires Shaped(s) && i < |s.pools|
    ensures var r := TakeStake(s, owner, i, requested); r.Some? ==> Shaped(r.value.0) && |r.value.0.pools| == |s.pools|
  {
    var k := StakeOf(s, owner, i);
    var w :- Withdraw(k.pool, k.owned, requested, false);
    var _ :- Need(0 < w.sold && NotNegative(w.pool));
    Some((PutStake(s, owner, i, Stake(w.pool, w.owned, k.nextClaim)), w.sold))
  }

  /** Moves stake to another owner, whose next claim is delayed accordingly. */
  function TransferStake(s: State, from: Name, to: Name, i: nat, requested: int): Option<State>
    requires Shaped(s)
  {
    var _ :- Need(from != to && i < |s.pools| && 0 < requested && from in s.voters);
    var _ :- Need(to in s.voters || s.minCreate <= requested);
    var taken :- TakeStake(s, from, i, requested);
    var k :- Deposit(StakeOf(taken.0, to, i), taken.1, s.slot);
    Some(PutStake(taken.0, to, i, k))
  }

  /** Moves stake to a pool of longer duration. */
  function UpgradeStake(s: State, owner: Name, i: nat, j: nat, requested: int): Option<State>
    requires Shaped(s)
  {
    var _ :- Need(i < j < |s.pools| && 0 < requested && owner in s.voters);
    var taken :- TakeStake(s, owner, i, requested);
    var k :- Deposit(StakeOf(taken.0, owner, j), taken.1, s.slot);
    Some(PutStake(taken.0, owner, j, k))
  }

  /** Fees of other subsystems, in full or the part of the transition. */
  function ChannelFee(s: State, amount: int, partial: bool): Option<State> {
    var _ :- Need(0 < amount);
    Some(Channel(s, amount, partial))
  }

  /** Voter pay issued by updatepay; every pool with shares gets the same. */
  function VoterPay(s: State, perPool: int): Option<State> {
    var _ :- Need(0 <= perPool);
    Some(s.(pools := PayEach(s.pools, perPool), tokens := s.tokens + Active(s.pools) * perPool))
  }

  /** The pools' part of a name bid waits until someone claims. */
  function ChannelNamebid(s: State, bid: int): Option<State> {
    var _ :- Need(0 < bid);
    Some(if Active(s.pools) <= 0 then s else s.(namebids := s.namebids + Transition(s, bid)))
  }

  /** Later configuration moves the transition; durations and claim periods cannot change. */
  function Configure(s: State, begin: Option<int>, end: Option<int>, minCreate: Option<int>): Option<State> {
    var b := if begin.Some? then begin.value else s.begin;
    var e := if end.Some? then end.value else s.end;
    var _ :- Need(b <= e && (minCreate.Some? ==> 0 <= minCreate.value));
    Some(s.(begin := b, end := e, minCreate := if minCreate.Some? then minCreate.value else s.minCreate))
  }

  datatype Action =
    | StakeCall(owner: Name, pool: nat, amount: int)
    | ClaimCall(owner: Name, pool: nat, requested: int, votes: bool)
    | TransferCall(owner: Name, to: Name, pool: nat, requested: int)
    | UpgradeCall(owner: Name, pool: nat, toPool: nat, requested: int)
    | FeeCall(amount: int, partial: bool)
    | NamebidCall(bid: int)
    | PayCall(perPool: int)
    | CfgCall(begin: Option<int>, end: Option<int>, minCreate: Option<int>)
    | Donate(amount: int)
    | Advance(slot: int)

  function Step(s: State, a: Action): Option<State>
    requires Shaped(s)
  {
    match a
    case StakeCall(owner, i, amount) => StakeToPool(s, owner, i, amount)
    case ClaimCall(owner, i, requested, votes) => ClaimStake(s, owner, i, requested, votes)
    case TransferCall(owner, to, i, requested) => TransferStake(s, owner, to, i, requested)
    case UpgradeCall(owner, i, j, requested) => UpgradeStake(s, owner, i, j, requested)
    case FeeCall(amount, partial) => ChannelFee(s, amount, partial)
    case NamebidCall(bid) => ChannelNamebid(s, bid)
    case PayCall(perPool) => VoterPay(s, perPool)
    case CfgCall(begin, end, minCreate) => Configure(s, begin, end, minCreate)
    case Donate(amount) => if 0 < amount then Some(s.(tokens := s.tokens + amount)) else None
    case Advance(slot) => if s.slot <= slot then Some(s.(slot := slot)) else None
  }
}
