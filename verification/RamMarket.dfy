/** The RAM market: a bancor relay between RAM bytes (base) and tokens (quote) whose RAM supply grows between
    trades. */
module RamMarket {
  import opened Tables
  import opened Resources
  import opened Bancor

  const MAX_RAM := 1024 * 1024 * 1024 * 1024 * 1024

  /** `stake` is total_ram_stake, `tokens` the balance of eosio.ram; `slot` is the current block's. */
  datatype State = State(
    base: int, quote: int,
    maxRam: int, reserved: int, stake: int,
    rate: nat, lastSlot: int, slot: int,
    resources: ResourceTable,
    tokens: int)

  /** RAM that the elapsed slots add. The product is a 32-bit one. */
  function NewRam(s: State): int {
    (s.slot - s.lastSlot) * s.rate % 0x1_0000_0000
  }

  function UpdateSupply(s: State): State {
    if s.slot <= s.lastSlot then s else
    s.(maxRam := s.maxRam + NewRam(s), base := s.base + NewRam(s), lastSlot := s.slot)
  }

  function Fee(amount: int): int {
    (amount + 199) / 200
  }

  function SetRamOf(res: ResourceTable, account: Name, bytes: int): ResourceTable {
    res[account := Row(NetOf(res, account), CpuOf(res, account), bytes)]
  }

  function Buy(s: State, receiver: Name, quant: int): Option<State> {
    var s1 := UpdateSupply(s);
    var _ :- Need(quant > 0);
    var paid := quant - Fee(quant);
    var _ :- Need(paid > 0);
    var bytes := Output(s1.quote, s1.base, paid);
    var _ :- Need(bytes > 0);
    Some(s1.(quote := s1.quote + paid, base := s1.base - bytes,
             reserved := s1.reserved + bytes, stake := s1.stake + paid,
             resources := SetRamOf(s1.resources, receiver, RamOf(s1.resources, receiver) + bytes),
             tokens := s1.tokens + paid))
  }

  /** The price is read before the supply is updated. */
  function BytesPrice(s: State, bytes: int): int {
    Input(s.base, s.quote, bytes) * 1000 / 995
  }

  function BuyBytes(s: State, receiver: Name, bytes: int): Option<State> {
    Buy(s, receiver, BytesPrice(s, bytes))
  }

  function Sell(s: State, account: Name, bytes: int): Option<State> {
    var s1 := UpdateSupply(s);
    var _ :- Need(bytes > 0);
    var _ :- Need(account in s1.resources && bytes <= s1.resources[account].ram);
    var out := Output(s1.base, s1.quote, bytes);
    var _ :- Need(out > 1);
    var _ :- Need(0 <= s1.stake - out);
    var _ :- Need(out <= s1.tokens);
    Some(s1.(base := s1.base + bytes, quote := s1.quote - out,
             reserved := s1.reserved - bytes, stake := s1.stake - out,
             resources := SetRamOf(s1.resources, account, s1.resources[account].ram - bytes),
             tokens := s1.tokens - out))
  }

  function SetRam(s: State, size: int): Option<State> {
    var _ :- Need(s.maxRam < size && size < MAX_RAM && s.reserved < size);
    Some(s.(base := s.base + (size - s.maxRam), maxRam := size))
  }

  function SetRate(s: State, rate: nat): Option<State> {
    var _ :- Need(rate < 0x1_0000);
    Some(UpdateSupply(s).(rate := rate))
  }

  datatype Action =
    | BuyCall(receiver: Name, quant: int)
    | BuyBytesCall(receiver: Name, bytes: int)
    | SellCall(account: Name, bytes: int)
    | SetRamCall(size: int)
    | SetRateCall(rate: nat)
    | Advance(slot: int)

  function Step(s: State, a: Action): Option<State> {
    match a
    case BuyCall(receiver, quant) => Buy(s, receiver, quant)
    case BuyBytesCall(receiver, bytes) => BuyBytes(s, receiver, bytes)
    case SellCall(account, bytes) => Sell(s, account, bytes)
    case SetRamCall(size) => SetRam(s, size)
    case SetRateCall(rate) => SetRate(s, rate)
    case Advance(slot) => if s.slot <= slot then Some(s.(slot := slot)) else None
  }

  // ----- the invariant -----

  ghost function RamIn(): (Name, Row) -> int { (n: Name, r: Row) => r.ram }

  ghost predicate NonNegativeRam(res: ResourceTable) {
    forall n | n in res :: 0 <= res[n].ram
  }

  /** `q0` is the quote balance at initialisation. Every byte is for sale or someone's, and the price, quote / base,
      never falls below q0 / maxRam. */
  ghost predicate Inv(s: State, q0: int) {
    && 0 <= q0 <= s.quote && 0 <= s.base
    && s.base + s.reserved == s.maxRam
    && q0 * s.maxRam <= s.quote * s.base
    && s.stake == s.quote - q0
    && s.reserved == Sum(s.resources, RamIn()) && NonNegativeRam(s.resources)
    && s.stake <= s.tokens
  }

  lemma ReservedBounds(s: State, q0: int, account: Name)
    requires Inv(s, q0)
    ensures 0 <= RamOf(s.resources, account) <= s.reserved
  {
    SumNonNegative<Name, Row>(s.resources, RamIn());
    if account in s.resources {
      SumAtLeast<Name, Row>(s.resources, account, RamIn());
    }
  }

  /** Growing the supply keeps the product bound, because the quote never falls below q0. */
  lemma GrowKeeps(s: State, q0: int, bytes: int)
    requires Inv(s, q0) && 0 <= bytes
    ensures Inv(s.(maxRam := s.maxRam + bytes, base := s.base + bytes), q0)
  {
    Scaled(q0, s.quote, bytes);
    assert q0 * (s.maxRam + bytes) == q0 * s.maxRam + q0 * bytes;
    assert s.quote * (s.base + bytes) == s.quote * s.base + s.quote * bytes;
  }

  lemma UpdateSupplyKeeps(s: State, q0: int)
    requires Inv(s, q0)
    ensures Inv(UpdateSupply(s), q0)
    ensures UpdateSupply(s) == s.(maxRam := UpdateSupply(s).maxRam, base := UpdateSupply(s).base, lastSlot := UpdateSupply(s).lastSlot)
  {
    GrowKeeps(s, q0, NewRam(s));
  }

  lemma RamMoves(s: State, account: Name, bytes: int)
    requires NonNegativeRam(s.resources) && 0 <= bytes
    ensures var res := SetRamOf(s.resources, account, bytes);
            Sum(res, RamIn()) == Sum(s.resources, RamIn()) - RamOf(s.resources, account) + bytes && NonNegativeRam(res)
  {
    SumPut<Name, Row>(s.resources, account, Row(NetOf(s.resources, account), CpuOf(s.resources, account), bytes), RamIn());
  }

  lemma BuyKeeps(s: State, receiver: Name, quant: int, q0: int)
    requires Inv(s, q0) && Buy(s, receiver, quant).Some?
    ensures var s' := Buy(s, receiver, quant).value; Inv(s', q0) && s'.tokens - s'.stake == s.tokens - s.stake
  {
    UpdateSupplyKeeps(s, q0);
    var s1, paid := UpdateSupply(s), quant - Fee(quant);
    var bytes := Output(s1.quote, s1.base, paid);
    OutputBounds(s1.quote, s1.base, paid);
    ProductNeverFalls(s1.quote, s1.base, paid);
    ReservedBounds(s1, q0, receiver);
    RamMoves(s1, receiver, RamOf(s1.resources, receiver) + bytes);
  }

  /** After paying `out`, the quote is still at least q0: the product bound and base <= maxRam force it. */
  lemma QuoteStays(base: int, quote: int, maxRam: int, q0: int)
    requires 0 <= q0 && 0 < base <= maxRam && q0 * maxRam <= quote * base
    ensures q0 <= quote
  {
    Scaled(base, maxRam, q0);
    Commutes(base, q0);
    Commutes(maxRam, q0);
    if quote < q0 {
      Scaled(quote + 1, q0, base);
    }
  }

  lemma SellOutput(s: State, account: Name, bytes: int, q0: int)
    requires Inv(s, q0) && 0 < bytes <= RamOf(s.resources, account)
    ensures var out := Output(s.base, s.quote, bytes);
            && 0 <= out <= s.stake
            && q0 <= s.quote - out && q0 * s.maxRam <= (s.quote - out) * (s.base + bytes)
  {
    ReservedBounds(s, q0, account);
    OutputBounds(s.base, s.quote, bytes);
    ProductNeverFalls(s.base, s.quote, bytes);
    var out := Output(s.base, s.quote, bytes);
    Commutes(s.base, s.quote);
    Commutes(s.base + bytes, s.quote - out);
    QuoteStays(s.base + bytes, s.quote - out, s.maxRam, q0);
  }

  lemma SellKeeps(s: State, account: Name, bytes: int, q0: int)
    requires Inv(s, q0) && Sell(s, account, bytes).Some?
    ensures var s' := Sell(s, account, bytes).value; Inv(s', q0) && s'.tokens - s'.stake == s.tokens - s.stake
  {
    UpdateSupplyKeeps(s, q0);
    var s1 := UpdateSupply(s);
    SellOutput(s1, account, bytes, q0);
    RamMoves(s1, account, s1.resources[account].ram - bytes);
  }

  /** The check labelled "this shouldn't happen" and the payment out of eosio.ram never block a sale: it is
      refused only for the reasons a seller can see. */
  lemma SellIsNeverBlocked(s: State, account: Name, bytes: int, q0: int)
    requires Inv(s, q0)
    ensures Sell(s, account, bytes).Some? <==>
            && 0 < bytes <= RamOf(s.resources, account)
            && 1 < Output(UpdateSupply(s).base, s.quote, bytes)
  {
    UpdateSupplyKeeps(s, q0);
    var s1 := UpdateSupply(s);
    if 0 < bytes <= RamOf(s.resources, account) {
      SellOutput(s1, account, bytes, q0);
    }
  }

  lemma SetRamKeeps(s: State, size: int, q0: int)
    requires Inv(s, q0) && SetRam(s, size).Some?
    ensures Inv(SetRam(s, size).value, q0)
  {
    GrowKeeps(s, q0, size - s.maxRam);
  }

  lemma StepKeeps(s: State, a: Action, q0: int)
    requires Inv(s, q0) && Step(s, a).Some?
    ensures var s' := Step(s, a).value; Inv(s', q0) && s'.tokens - s'.stake == s.tokens - s.stake
  {
    hide Inv, Buy, Sell, UpdateSupply;
    match a
    case BuyCall(receiver, quant) => BuyKeeps(s, receiver, quant, q0);
    case BuyBytesCall(receiver, bytes) => BuyKeeps(s, receiver, BytesPrice(s, bytes), q0);
    case SellCall(account, bytes) => SellKeeps(s, account, bytes, q0);
    case SetRamCall(size) => SetRamKeeps(s, size, q0);
    case SetRateCall(rate) =>
      UpdateSupplyKeeps(s, q0);
      RateIrrelevant(UpdateSupply(s), q0, rate, s.slot);
    case Advance(slot) => RateIrrelevant(s, q0, s.rate, slot);
  }

  lemma RateIrrelevant(s: State, q0: int, rate: nat, slot: int)
    requires Inv(s, q0)
    ensures Inv(s.(rate := rate, slot := slot), q0)
  {
  }

  // ----- runs -----

  function Next(s: State, a: Action): State {
    if Step(s, a).Some? then Step(s, a).value else s
  }

  function Run(s: State, actions: seq<Action>): State
    decreases |actions|
  {
    if actions == [] then s else Run(Next(s, actions[0]), actions[1..])
  }

  /** The market as `init` creates it. */
  ghost predicate Initial(s: State, supply: int) {
    && 0 < supply && s.quote == supply / 1000
    && s.base == s.maxRam && 0 <= s.base && s.reserved == 0 && s.stake == 0 && 0 <= s.tokens
    && forall n | n in s.resources :: s.resources[n].ram == 0
  }

  lemma InitialInv(s: State, supply: int)
    requires Initial(s, supply)
    ensures Inv(s, s.quote)
  {
    SumZero(s.resources);
  }

  lemma {:induction false} SumZero(res: ResourceTable)
    requires forall n | n in res :: res[n].ram == 0
    ensures Sum(res, RamIn()) == 0
    decreases res.Keys
  {
    if res != map[] {
      var n := SomeKey<Name, Row>(res);
      SumRemove<Name, Row>(res, n, RamIn());
      SumZero(res - {n});
    }
  }

  lemma {:induction false} RunKeeps(s: State, actions: seq<Action>, q0: int)
    requires Inv(s, q0)
    ensures Inv(Run(s, actions), q0)
    ensures Run(s, actions).tokens - Run(s, actions).stake == s.tokens - s.stake
    decreases |actions|
  {
    hide Inv, Step;
    if actions != [] {
      if Step(s, actions[0]).Some? {
        StepKeeps(s, actions[0], q0);
      }
      RunKeeps(Next(s, actions[0]), actions[1..], q0);
    }
  }

  /** Over every run from initialisation: no byte is lost, the price stays at or above its initial level however much the
      supply grows, and eosio.ram holds all that was paid in and not yet paid out. */
  lemma MarketIsSolvent(s: State, supply: int, actions: seq<Action>)
    requires Initial(s, supply)
    ensures var r, q0 := Run(s, actions), s.quote;
            && r.base + r.reserved == r.maxRam && r.reserved == Sum(r.resources, RamIn())
            && q0 * r.maxRam <= r.quote * r.base
            && 0 <= r.stake == r.quote - q0
            && r.tokens == s.tokens + r.stake
  {
    InitialInv(s, supply);
    RunKeeps(s, actions, s.quote);
  }

  // ----- trades -----

  /** Buying RAM and selling the same bytes back never gains tokens, even before fees. */
  lemma RoundTripNeverGains(base: int, quote: int, paid: int)
    requires 0 < base && 0 < quote && 0 < paid
    requires 0 < Output(quote, base, paid)
    ensures var bytes := Output(quote, base, paid);
            Output(base - bytes, quote + paid, bytes) <= paid
  {
    OutputBounds(quote, base, paid);
    var bytes := Output(quote, base, paid);
    QuotientAtMost(bytes * (quote + paid), base, paid);
  }

  /** Asking for a number of bytes never delivers more than asked, unless the supply grows in between. */
  lemma BuyBytesNeverMore(s: State, receiver: Name, bytes: int, q0: int)
    requires Inv(s, q0) && 0 < bytes < s.base && UpdateSupply(s).base == s.base
    requires BuyBytes(s, receiver, bytes).Some?
    ensures var s' := BuyBytes(s, receiver, bytes).value;
            0 < RamOf(s'.resources, receiver) - RamOf(s.resources, receiver) <= bytes
  {
    var cost := Input(s.base, s.quote, bytes);
    var quant := BytesPrice(s, bytes);
    var paid := quant - Fee(quant);
    assert paid <= cost by {
      assert 995 * quant <= 1000 * cost;
      assert 200 * Fee(quant) >= quant;
    }
    QuoteIsTight(s.base, s.quote, bytes);
    OutputMonotone(s.quote, s.base, paid, cost);
  }

  lemma OutputMonotone(ib: int, ob: int, a: int, b: int)
    requires 0 <= ib && 0 <= ob && 0 < a <= b
    ensures Output(ib, ob, a) <= Output(ib, ob, b)
  {
    OutputBounds(ib, ob, a);
    var x := Output(ib, ob, a);
    // x * (ib + a) <= a * ob and x <= ob give x * (ib + b) <= b * ob
    Scaled(x, ob, b - a);
    assert x * (ib + b) == x * (ib + a) + x * (b - a);
    assert b * ob == a * ob + ob * (b - a);
    QuotientAtLeast(b * ob, ib + b, x);
  }

  // ----- growth of the supply -----

  /** The documented growth, `rate` bytes for each block, holds exactly while the 32-bit product does not wrap. */
  lemma SupplyGrowth(s: State)
    requires s.lastSlot < s.slot
    ensures UpdateSupply(s).maxRam == s.maxRam + (s.slot - s.lastSlot) * s.rate <==>
            (s.slot - s.lastSlot) * s.rate < 0x1_0000_0000
    ensures s.maxRam <= UpdateSupply(s).maxRam
  {
    var n := (s.slot - s.lastSlot) * s.rate;
    assert 0 <= n;
    WrapsOnlyAbove(n);
  }

  lemma WrapsOnlyAbove(n: int)
    requires 0 <= n
    ensures 0 <= n % 0x1_0000_0000 && (n % 0x1_0000_0000 == n <==> n < 0x1_0000_0000)
  {
  }

  /** At the highest rate the product wraps after 65538 blocks without a trade, about nine hours. */
  lemma SupplyGrowthCanWrap(s: State)
    requires s.rate == 0xFFFF && s.slot == s.lastSlot + 65538
    ensures UpdateSupply(s).maxRam < s.maxRam + (s.slot - s.lastSlot) * s.rate
  {
    assert (s.slot - s.lastSlot) * s.rate == 65538 * 0xFFFF;
  }
}
