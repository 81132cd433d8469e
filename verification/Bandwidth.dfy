/** Staking for bandwidth: who delegated what to whom, pending refunds, and the tokens held by eosio.stake. */
module Bandwidth {
  import opened Tables
  import opened Resources
  import opened Tokens

  const STAKE: Name := 0x5530_ea03_1934_1400
  const REX: Name := 0x5530_ea02_eae8_0000
  const REFUND_DELAY := 3 * 24 * 3600

  datatype Pair = Pair(from: Name, to: Name)

  datatype Delegation = Delegation(net: int, cpu: int) {
    predicate IsEmpty() {
      net == 0 && cpu == 0
    }
  }

  datatype Refund = Refund(net: int, cpu: int, time: int) {
    predicate IsEmpty() {
      net == 0 && cpu == 0
    }
  }

  type Delegations = map<Pair, Delegation>
  type Refunds = map<Name, Refund>

  /** Times are whole seconds. */
  datatype State = State(
    now: int,
    delegations: Delegations,
    refunds: Refunds,
    resources: ResourceTable,
    tokens: Ledger)

  function Abs(x: int): int {
    if x < 0 then -x else x
  }

  function DelegationOf(d: Delegations, p: Pair): Delegation {
    if p in d then d[p] else Delegation(0, 0)
  }

  function RefundOf(refunds: Refunds, owner: Name): Refund {
    if owner in refunds then refunds[owner] else Refund(0, 0, 0)
  }

  // ----- operations -----

  function ChangeDelegation(d: Delegations, p: Pair, net: int, cpu: int): Option<Delegations> {
    var row := Delegation(DelegationOf(d, p).net + net, DelegationOf(d, p).cpu + cpu);
    var _ :- Need(0 <= row.net && 0 <= row.cpu);
    Some(if row.IsEmpty() then d - {p} else d[p := row])
  }

  /** What is left of a pending refund once stake of the same owner moves by `net` and `cpu`: unstaking adds to
      it and restarts the delay, staking takes from it first. */
  function NetRefund(r: Refund, net: int, cpu: int, now: int): Refund {
    Refund(Max(0, r.net - net), Max(0, r.cpu - cpu), if net < 0 || cpu < 0 then now else r.time)
  }

  function ChangeRefund(refunds: Refunds, owner: Name, net: int, cpu: int, now: int): Refunds {
    var r := NetRefund(RefundOf(refunds, owner), net, cpu, now);
    if r.IsEmpty() then refunds - {owner} else refunds[owner := r]
  }

  /** Tokens still to be paid for: what the pending refund does not cover. */
  function Shortfall(r: Refund, net: int, cpu: int): int {
    Max(0, net - r.net) + Max(0, cpu - r.cpu)
  }

  function ChangeBw(s: State, source: Name, receiver: Name, net: int, cpu: int, transfer: bool): Option<State> {
    var _ :- Need(net != 0 || cpu != 0);
    var _ :- Need(Max(Abs(net), Abs(cpu)) <= Abs(net + cpu));
    var from := if transfer then receiver else source;
    var delegations :- ChangeDelegation(s.delegations, Pair(from, receiver), net, cpu);
    var resources :- Adjust(s.resources, receiver, net, cpu);
    var s1 := s.(delegations := delegations, resources := resources);
    if source == STAKE then Some(s1) else
    var netting := (!transfer && from == receiver) || net + cpu < 0;
    var due := if netting then Shortfall(RefundOf(s.refunds, from), net, cpu) else net + cpu;
    var s2 := if netting then s1.(refunds := ChangeRefund(s.refunds, from, net, cpu, s.now)) else s1;
    if due <= 0 then Some(s2) else
    var tokens :- Transfer(s.tokens, source, STAKE, due);
    Some(s2.(tokens := tokens))
  }

  function DelegateBw(s: State, from: Name, receiver: Name, net: int, cpu: int, transfer: bool): Option<State> {
    var _ :- Need(0 <= net && 0 <= cpu && 0 < net + cpu);
    var _ :- Need(!transfer || from != receiver);
    ChangeBw(s, from, receiver, net, cpu, transfer)
  }

  function UndelegateBw(s: State, from: Name, receiver: Name, net: int, cpu: int): Option<State> {
    var _ :- Need(0 <= net && 0 <= cpu && 0 < net + cpu);
    ChangeBw(s, from, receiver, -net, -cpu, false)
  }

  function ClaimRefund(s: State, owner: Name): Option<State> {
    var _ :- Need(owner in s.refunds && s.refunds[owner].time + REFUND_DELAY <= s.now);
    var tokens :- Transfer(s.tokens, STAKE, owner, s.refunds[owner].net + s.refunds[owner].cpu);
    Some(s.(tokens := tokens, refunds := s.refunds - {owner}))
  }

  /** The staking half of unstaketorex: staked tokens leave for eosio.rex. */
  function StakeToRex(s: State, owner: Name, receiver: Name, net: int, cpu: int): Option<State> {
    var _ :- Need(0 <= net && 0 <= cpu && 0 < net + cpu);
    var p := Pair(owner, receiver);
    var _ :- Need(p in s.delegations && net <= s.delegations[p].net && cpu <= s.delegations[p].cpu);
    var delegations :- ChangeDelegation(s.delegations, p, -net, -cpu);
    var resources :- Adjust(s.resources, receiver, -net, -cpu);
    var tokens :- Transfer(s.tokens, STAKE, REX, net + cpu);
    Some(s.(delegations := delegations, resources := resources, tokens := tokens))
  }

  datatype Action =
    | DelegateCall(from: Name, receiver: Name, net: int, cpu: int, transfer: bool)
    | UndelegateCall(from: Name, receiver: Name, net: int, cpu: int)
    | RefundCall(owner: Name)
    | StakeToRexCall(owner: Name, receiver: Name, net: int, cpu: int)
    | Advance(time: int)

  function Step(s: State, a: Action): Option<State> {
    match a
    case DelegateCall(from, receiver, net, cpu, transfer) => DelegateBw(s, from, receiver, net, cpu, transfer)
    case UndelegateCall(from, receiver, net, cpu) => UndelegateBw(s, from, receiver, net, cpu)
    case RefundCall(owner) => ClaimRefund(s, owner)
    case StakeToRexCall(owner, receiver, net, cpu) => StakeToRex(s, owner, receiver, net, cpu)
    case Advance(time) => if s.now <= time then Some(s.(now := time)) else None
  }

  // ----- totals -----

  ghost function AmountOf(): (Pair, Delegation) -> int { (p: Pair, d: Delegation) => d.net + d.cpu }

  ghost function DelegatedBy(account: Name): (Pair, Delegation) -> int {
    (p: Pair, d: Delegation) => if p.from == account then d.net + d.cpu else 0
  }

  ghost function NetTo(account: Name): (Pair, Delegation) -> int {
    (p: Pair, d: Delegation) => if p.to == account then d.net else 0
  }

  ghost function CpuTo(account: Name): (Pair, Delegation) -> int {
    (p: Pair, d: Delegation) => if p.to == account then d.cpu else 0
  }

  ghost function PendingOf(): (Name, Refund) -> int { (n: Name, r: Refund) => r.net + r.cpu }

  /** Tokens that eosio.stake owes. */
  ghost function Owed(s: State): int {
    Sum(s.delegations, AmountOf()) + Sum(s.refunds, PendingOf())
  }

  /** What an account owns: liquid tokens, stake it delegated, and its pending refund. */
  ghost function Holdings(s: State, account: Name): int {
    BalanceOf(s.tokens, account) + Sum(s.delegations, DelegatedBy(account))
    + RefundOf(s.refunds, account).net + RefundOf(s.refunds, account).cpu
  }

  // ----- the invariant -----

  ghost predicate ValidDelegations(d: Delegations) {
    forall p | p in d :: 0 <= d[p].net && 0 <= d[p].cpu && !d[p].IsEmpty()
  }

  ghost predicate ValidRefunds(refunds: Refunds, now: int) {
    forall n | n in refunds :: 0 <= refunds[n].net && 0 <= refunds[n].cpu && !refunds[n].IsEmpty() && refunds[n].time <= now
                            && n != STAKE
  }

  /** Each account's NET and CPU are what was delegated to it plus what other subsystems granted. */
  ghost predicate Backed(res: ResourceTable, d: Delegations, g: Claims) {
    forall a: Name ::
      && NetOf(res, a) == Sum(d, NetTo(a)) + g.net(a) && 0 <= g.net(a)
      && CpuOf(res, a) == Sum(d, CpuTo(a)) + g.cpu(a) && 0 <= g.cpu(a)
      && RamOf(res, a) == g.ram(a)
  }

  ghost predicate Inv(s: State, g: Claims) {
    && ValidDelegations(s.delegations)
    && ValidRefunds(s.refunds, s.now)
    && NonNegative(s.tokens)
    && Backed(s.resources, s.delegations, g)
  }

  // ----- one table at a time -----

  /** Everything that one change of a delegation row does. */
  lemma DelegationMoves(d: Delegations, p: Pair, net: int, cpu: int)
    requires ValidDelegations(d) && ChangeDelegation(d, p, net, cpu).Some?
    ensures var d' := ChangeDelegation(d, p, net, cpu).value;
            && ValidDelegations(d')
            && Sum(d', AmountOf()) == Sum(d, AmountOf()) + net + cpu
            && (forall a: Name :: Sum(d', DelegatedBy(a)) == Sum(d, DelegatedBy(a)) + (if a == p.from then net + cpu else 0))
            && (forall a: Name :: Sum(d', NetTo(a)) == Sum(d, NetTo(a)) + (if a == p.to then net else 0))
            && (forall a: Name :: Sum(d', CpuTo(a)) == Sum(d, CpuTo(a)) + (if a == p.to then cpu else 0))
  {
    DelegationSum(d, p, net, cpu, AmountOf());
    var d' := ChangeDelegation(d, p, net, cpu).value;
    forall a: Name ensures Sum(d', DelegatedBy(a)) == Sum(d, DelegatedBy(a)) + (if a == p.from then net + cpu else 0) {
      DelegationSum(d, p, net, cpu, DelegatedBy(a));
    }
    forall a: Name ensures Sum(d', NetTo(a)) == Sum(d, NetTo(a)) + (if a == p.to then net else 0) {
      DelegationSum(d, p, net, cpu, NetTo(a));
    }
    forall a: Name ensures Sum(d', CpuTo(a)) == Sum(d, CpuTo(a)) + (if a == p.to then cpu else 0) {
      DelegationSum(d, p, net, cpu, CpuTo(a));
    }
  }

  lemma DelegationSum(d: Delegations, p: Pair, net: int, cpu: int, f: (Pair, Delegation) -> int)
    requires ChangeDelegation(d, p, net, cpu).Some? && f(p, Delegation(0, 0)) == 0
    ensures var d' := ChangeDelegation(d, p, net, cpu).value;
            Sum(d', f) == Sum(d, f) - f(p, DelegationOf(d, p)) + f(p, Delegation(DelegationOf(d, p).net + net, DelegationOf(d, p).cpu + cpu))
  {
    var row := Delegation(DelegationOf(d, p).net + net, DelegationOf(d, p).cpu + cpu);
    if row.IsEmpty() {
      if p in d {
        SumRemove(d, p, f);
      } else {
        assert d - {p} == d;
      }
    } else {
      SumPut(d, p, row, f);
    }
  }

  /** Netting one refund: it stays non-negative, and falls by what was staked except for the shortfall. */
  lemma NettedRow(r: Refund, net: int, cpu: int, now: int)
    requires 0 <= r.net && 0 <= r.cpu && (r.IsEmpty() || r.time <= now)
    requires (0 <= net && 0 <= cpu) || (net <= 0 && cpu <= 0)
    ensures var r' := NetRefund(r, net, cpu, now);
            && 0 <= r'.net && 0 <= r'.cpu && (r'.IsEmpty() || r'.time <= now) && 0 <= Shortfall(r, net, cpu)
            && r'.net + r'.cpu == r.net + r.cpu - net - cpu + Shortfall(r, net, cpu)
  {
  }

  lemma RefundPut(refunds: Refunds, owner: Name, r: Refund, now: int)
    requires ValidRefunds(refunds, now) && owner != STAKE && 0 <= r.net && 0 <= r.cpu && (r.IsEmpty() || r.time <= now)
    ensures var refunds' := if r.IsEmpty() then refunds - {owner} else refunds[owner := r];
            var before := RefundOf(refunds, owner);
            && ValidRefunds(refunds', now)
            && Sum(refunds', PendingOf()) == Sum(refunds, PendingOf()) - before.net - before.cpu + r.net + r.cpu
            && (forall a: Name | a != owner :: RefundOf(refunds', a) == RefundOf(refunds, a))
            && RefundOf(refunds', owner).net == r.net && RefundOf(refunds', owner).cpu == r.cpu
  {
    if r.IsEmpty() {
      if owner in refunds {
        SumRemove<Name, Refund>(refunds, owner, PendingOf());
      } else {
        assert refunds - {owner} == refunds;
      }
    } else {
      SumPut<Name, Refund>(refunds, owner, r, PendingOf());
    }
  }

  /** Netting conserves: the refund falls by what was staked, except for the shortfall that is paid. */
  lemma RefundMoves(refunds: Refunds, owner: Name, net: int, cpu: int, now: int)
    requires ValidRefunds(refunds, now) && owner != STAKE
    requires (0 <= net && 0 <= cpu) || (net <= 0 && cpu <= 0)
    ensures var refunds' := ChangeRefund(refunds, owner, net, cpu, now);
            var due := Shortfall(RefundOf(refunds, owner), net, cpu);
            && ValidRefunds(refunds', now) && 0 <= due
            && Sum(refunds', PendingOf()) == Sum(refunds, PendingOf()) - net - cpu + due
            && (forall a: Name :: RefundOf(refunds', a).net + RefundOf(refunds', a).cpu ==
                                  RefundOf(refunds, a).net + RefundOf(refunds, a).cpu
                                  + (if a == owner then due - net - cpu else 0))
  {
    var r := RefundOf(refunds, owner);
    assert 0 <= r.net && 0 <= r.cpu && (r.IsEmpty() || r.time <= now);
    hide ValidRefunds, RefundOf, NetRefund, Shortfall;
    NettedRow(r, net, cpu, now);
    RefundPut(refunds, owner, NetRefund(r, net, cpu, now), now);
  }

  /** With enough delegated, the receiver's totals can always be lowered: the check on them never blocks. */
  lemma ResourcesFollow(s: State, p: Pair, net: int, cpu: int, g: Claims)
    requires Inv(s, g) && ChangeDelegation(s.delegations, p, net, cpu).Some?
    ensures var res := Adjust(s.resources, p.to, net, cpu);
            res.Some? && Backed(res.value, ChangeDelegation(s.delegations, p, net, cpu).value, g)
  {
    DelegationMoves(s.delegations, p, net, cpu);
    AdjustMeaning(s.resources, p.to, net, cpu);
    var d' := ChangeDelegation(s.delegations, p, net, cpu).value;
    SumNonNegative(d', NetTo(p.to));
    SumNonNegative(d', CpuTo(p.to));
  }

  // ----- every action conserves -----

  /** Tokens an action stakes for or unstakes from eosio.stake itself, which move no tokens. */
  function SelfStaked(a: Action): int {
    match a
    case DelegateCall(from, _, net, cpu, _) => if from == STAKE then net + cpu else 0
    case UndelegateCall(from, _, net, cpu) => if from == STAKE then -net - cpu else 0
    case _ => 0
  }

  lemma SameSigns(net: int, cpu: int)
    requires net != 0 || cpu != 0
    ensures Max(Abs(net), Abs(cpu)) <= Abs(net + cpu) <==> ((0 <= net && 0 <= cpu) || (net <= 0 && cpu <= 0))
  {
  }

  /** What changebw does to the totals. */
  lemma ChangeBwMoves(s: State, source: Name, receiver: Name, net: int, cpu: int, transfer: bool, g: Claims)
    requires Inv(s, g) && ChangeBw(s, source, receiver, net, cpu, transfer).Some?
    requires transfer ==> source != receiver && 0 < net + cpu
    ensures var s' := ChangeBw(s, source, receiver, net, cpu, transfer).value;
            && Inv(s', g)
            && Sum(s'.tokens, BalanceIn()) == Sum(s.tokens, BalanceIn())
            && BalanceOf(s'.tokens, STAKE) - Owed(s') ==
               BalanceOf(s.tokens, STAKE) - Owed(s) - (if source == STAKE then net + cpu else 0)
            && (source != STAKE ==> forall a: Name | a != STAKE ::
                  Holdings(s', a) == Holdings(s, a) + (if transfer && a == receiver then net + cpu else 0)
                                                    - (if transfer && a == source then net + cpu else 0))
  {
    hide ValidDelegations, ValidRefunds, NonNegative, Backed, ChangeRefund, ChangeDelegation, Adjust, Transfer, RefundOf, BalanceOf;
    SameSigns(net, cpu);
    var from := if transfer then receiver else source;
    var p := Pair(from, receiver);
    DelegationMoves(s.delegations, p, net, cpu);
    ResourcesFollow(s, p, net, cpu, g);
    if source != STAKE {
      var netting := (!transfer && from == receiver) || net + cpu < 0;
      var due := if netting then Shortfall(RefundOf(s.refunds, from), net, cpu) else net + cpu;
      if netting {
        RefundMoves(s.refunds, from, net, cpu, s.now);
      }
      if 0 < due {
        TransferConserves(s.tokens, source, STAKE, due);
      }
    }
  }

  lemma ClaimRefundMoves(s: State, owner: Name, g: Claims)
    requires Inv(s, g) && ClaimRefund(s, owner).Some?
    ensures var s' := ClaimRefund(s, owner).value;
            && Inv(s', g)
            && Sum(s'.tokens, BalanceIn()) == Sum(s.tokens, BalanceIn())
            && BalanceOf(s'.tokens, STAKE) - Owed(s') == BalanceOf(s.tokens, STAKE) - Owed(s)
            && forall a: Name | a != STAKE :: Holdings(s', a) == Holdings(s, a)
  {
    hide ValidDelegations, NonNegative, Backed, Transfer;
    var r := s.refunds[owner];
    TransferConserves(s.tokens, STAKE, owner, r.net + r.cpu);
    SumRemove<Name, Refund>(s.refunds, owner, PendingOf());
  }

  lemma StakeToRexMoves(s: State, owner: Name, receiver: Name, net: int, cpu: int, g: Claims)
    requires Inv(s, g) && StakeToRex(s, owner, receiver, net, cpu).Some?
    ensures var s' := StakeToRex(s, owner, receiver, net, cpu).value;
            && Inv(s', g)
            && Sum(s'.tokens, BalanceIn()) == Sum(s.tokens, BalanceIn())
            && BalanceOf(s'.tokens, STAKE) - Owed(s') == BalanceOf(s.tokens, STAKE) - Owed(s)
            && (forall a: Name | a != STAKE :: Holdings(s', a) == Holdings(s, a) - (if a == owner then net + cpu else 0)
                                                                + (if a == REX then net + cpu else 0))
  {
    hide ValidDelegations, ValidRefunds, NonNegative, Backed, ChangeDelegation, Adjust, Transfer, BalanceOf;
    DelegationMoves(s.delegations, Pair(owner, receiver), -net, -cpu);
    ResourcesFollow(s, Pair(owner, receiver), -net, -cpu, g);
    TransferConserves(s.tokens, STAKE, REX, net + cpu);
  }

  lemma StepConserves(s: State, a: Action, g: Claims)
    requires Inv(s, g) && Step(s, a).Some?
    ensures var s' := Step(s, a).value;
            && Inv(s', g)
            && Sum(s'.tokens, BalanceIn()) == Sum(s.tokens, BalanceIn())
            && BalanceOf(s'.tokens, STAKE) - Owed(s') == BalanceOf(s.tokens, STAKE) - Owed(s) - SelfStaked(a)
  {
    hide ChangeBw, StakeToRex, ClaimRefund, ValidDelegations, NonNegative, Backed, Owed, BalanceOf, Holdings;
    match a
    case DelegateCall(from, receiver, net, cpu, transfer) => ChangeBwMoves(s, from, receiver, net, cpu, transfer, g);
    case UndelegateCall(from, receiver, net, cpu) => ChangeBwMoves(s, from, receiver, -net, -cpu, false, g);
    case RefundCall(owner) => ClaimRefundMoves(s, owner, g);
    case StakeToRexCall(owner, receiver, net, cpu) => StakeToRexMoves(s, owner, receiver, net, cpu, g);
    case Advance(time) => AdvanceMoves(s, time, g);
  }

  lemma AdvanceMoves(s: State, time: int, g: Claims)
    requires Inv(s, g) && s.now <= time
    ensures Inv(s.(now := time), g) && Owed(s.(now := time)) == Owed(s)
  {
    hide ValidDelegations, NonNegative, Backed;
  }

  // ----- runs -----

  function Next(s: State, a: Action): State {
    if Step(s, a).Some? then Step(s, a).value else s
  }

  function Run(s: State, actions: seq<Action>): State
    decreases |actions|
  {
    if actions == [] then s else Run(Next(s, actions[0]), actions[1..])
  }

  /** A run in which eosio.stake does not stake on its own behalf. */
  predicate OthersStake(actions: seq<Action>) {
    forall i | 0 <= i < |actions| :: SelfStaked(actions[i]) == 0
  }

  lemma {:induction false} RunConserves(s: State, actions: seq<Action>, g: Claims)
    requires Inv(s, g) && OthersStake(actions)
    ensures Inv(Run(s, actions), g)
    ensures BalanceOf(Run(s, actions).tokens, STAKE) - Owed(Run(s, actions)) == BalanceOf(s.tokens, STAKE) - Owed(s)
    decreases |actions|
  {
    hide Inv, Step, Owed;
    if actions != [] {
      if Step(s, actions[0]).Some? {
        StepConserves(s, actions[0], g);
      }
      RunConserves(Next(s, actions[0]), actions[1..], g);
    }
  }

  /** From the first stake on, eosio.stake holds exactly all delegated bandwidth and all pending refunds. */
  lemma StakeIsConserved(s: State, actions: seq<Action>, g: Claims)
    requires Inv(s, g) && s.delegations == map[] && s.refunds == map[] && OthersStake(actions)
    ensures var r := Run(s, actions);
            BalanceOf(r.tokens, STAKE) == BalanceOf(s.tokens, STAKE) + Sum(r.delegations, AmountOf()) + Sum(r.refunds, PendingOf())
  {
    hide Inv;
    RunConserves(s, actions, g);
  }

  // ----- nothing blocks a rightful owner -----

  /** A refund is paid exactly when it exists and three days have passed. */
  lemma RefundIsPaid(s: State, owner: Name, g: Claims)
    requires Inv(s, g) && Owed(s) <= BalanceOf(s.tokens, STAKE)
    ensures ClaimRefund(s, owner).Some? <==> owner in s.refunds && s.refunds[owner].time + REFUND_DELAY <= s.now
  {
    if owner in s.refunds {
      SumAtLeast<Name, Refund>(s.refunds, owner, PendingOf());
      SumNonNegative(s.delegations, AmountOf());
    }
  }

  /** Unstaking succeeds exactly when the delegation covers it. */
  lemma UndelegationNeedsOnlyStake(s: State, from: Name, receiver: Name, net: int, cpu: int, g: Claims)
    requires Inv(s, g)
    ensures UndelegateBw(s, from, receiver, net, cpu).Some? <==>
            var d := DelegationOf(s.delegations, Pair(from, receiver));
            0 <= net <= d.net && 0 <= cpu <= d.cpu && 0 < net + cpu
  {
    hide ValidDelegations, NonNegative, Backed, Adjust;
    var p := Pair(from, receiver);
    if ChangeDelegation(s.delegations, p, -net, -cpu).Some? {
      ResourcesFollow(s, p, -net, -cpu, g);
    }
    RefundNonNegative(s, from, g);
  }

  lemma RefundNonNegative(s: State, owner: Name, g: Claims)
    requires Inv(s, g)
    ensures 0 <= RefundOf(s.refunds, owner).net && 0 <= RefundOf(s.refunds, owner).cpu
  {
  }

  /** Staking for oneself draws on the pending refund first; only the shortfall needs liquid tokens. */
  lemma SelfStakeUsesRefund(s: State, owner: Name, net: int, cpu: int, g: Claims)
    requires Inv(s, g) && owner != STAKE && 0 <= net && 0 <= cpu && 0 < net + cpu
    ensures var r := RefundOf(s.refunds, owner);
            DelegateBw(s, owner, owner, net, cpu, false).Some? <==>
            Max(0, net - r.net) + Max(0, cpu - r.cpu) <= BalanceOf(s.tokens, owner)
  {
    hide NonNegative, Backed, Adjust;
    var p := Pair(owner, owner);
    assert ChangeDelegation(s.delegations, p, net, cpu).Some?;
    ResourcesFollow(s, p, net, cpu, g);
    BalanceNonNegative(s.tokens, owner);
    SameSigns(net, cpu);
  }

  lemma BalanceNonNegative(tokens: Ledger, account: Name)
    requires NonNegative(tokens)
    ensures 0 <= BalanceOf(tokens, account)
  {
  }
}
