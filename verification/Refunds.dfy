/** What staking and unstaking do row by row: which delegation changes, what a pending refund covers, and when it falls due. */
module Refunds {
  import opened Tables
  import opened Resources
  import opened Tokens
  import opened Bandwidth

  // ----- rows -----

  /** Only the delegation from `p.from` to `p.to` changes, by exactly the deltas. */
  lemma DelegationAt(d: Delegations, p: Pair, net: int, cpu: int, q: Pair)
    requires ChangeDelegation(d, p, net, cpu).Some?
    ensures var d' := ChangeDelegation(d, p, net, cpu).value;
            && DelegationOf(d', q).net == DelegationOf(d, q).net + (if q == p then net else 0)
            && DelegationOf(d', q).cpu == DelegationOf(d, q).cpu + (if q == p then cpu else 0)
  {
  }

  /** Of each resource a refund covers what it can, and only the rest has to be paid. */
  lemma RefundCovers(r: Refund, net: int, cpu: int, now: int)
    requires 0 <= r.net && 0 <= r.cpu && 0 <= net && 0 <= cpu
    ensures var r' := NetRefund(r, net, cpu, now);
            var dueNet, dueCpu := net - (r.net - r'.net), cpu - (r.cpu - r'.cpu);
            && 0 <= r'.net <= r.net && 0 <= r'.cpu <= r.cpu && r'.time == r.time
            && 0 <= dueNet && (dueNet == 0 || r'.net == 0)
            && 0 <= dueCpu && (dueCpu == 0 || r'.cpu == 0)
            && Shortfall(r, net, cpu) == dueNet + dueCpu
  {
  }

  // ----- unstaking -----

  /** Unstaking adds to the owner's refund, per resource, and restarts the delay for all of it; no other refund changes, and
      no token moves. */
  lemma UndelegationRestartsDelay(s: State, from: Name, receiver: Name, net: int, cpu: int, g: Claims)
    requires Inv(s, g) && from != STAKE && UndelegateBw(s, from, receiver, net, cpu).Some?
    ensures var s' := UndelegateBw(s, from, receiver, net, cpu).value;
            var r := RefundOf(s.refunds, from);
            && s'.refunds == s.refunds[from := Refund(r.net + net, r.cpu + cpu, s.now)]
            && s'.tokens == s.tokens && s'.now == s.now
  {
    hide NonNegative, Backed, Adjust, ChangeDelegation;
    RefundNonNegative(s, from, g);
  }

  // ----- staking -----

  /** Staking for another account is paid in full with liquid tokens; no refund is touched, whoever gets the stake. */
  lemma StakingForOthers(s: State, from: Name, receiver: Name, net: int, cpu: int, transfer: bool, g: Claims)
    requires Inv(s, g) && from != STAKE && from != receiver
    ensures var r := DelegateBw(s, from, receiver, net, cpu, transfer);
            && (r.Some? <==> 0 <= net && 0 <= cpu && 0 < net + cpu <= BalanceOf(s.tokens, from))
            && (r.Some? ==>
                 && r.value.refunds == s.refunds
                 && BalanceOf(r.value.tokens, from) == BalanceOf(s.tokens, from) - net - cpu
                 && forall q ::
                      var d, d' := DelegationOf(s.delegations, q), DelegationOf(r.value.delegations, q);
                      var changed := q == Pair(if transfer then receiver else from, receiver);
                      d'.net == d.net + (if changed then net else 0) && d'.cpu == d.cpu + (if changed then cpu else 0))
  {
    hide NonNegative, Backed, Adjust;
    var p := Pair(if transfer then receiver else from, receiver);
    if 0 <= net && 0 <= cpu && 0 < net + cpu {
      assert ChangeDelegation(s.delegations, p, net, cpu).Some?;
      ResourcesFollow(s, p, net, cpu, g);
      SameSigns(net, cpu);
      forall q
        ensures var d, d' := DelegationOf(s.delegations, q), DelegationOf(ChangeDelegation(s.delegations, p, net, cpu).value, q);
                && d'.net == d.net + (if q == p then net else 0)
                && d'.cpu == d.cpu + (if q == p then cpu else 0)
      {
        DelegationAt(s.delegations, p, net, cpu, q);
      }
    }
    hide ChangeDelegation;
  }

  /** Staking for oneself draws on the refund first, and what stays pending keeps its time. */
  lemma SelfStakeKeepsTime(s: State, owner: Name, net: int, cpu: int, g: Claims)
    requires Inv(s, g) && owner != STAKE && DelegateBw(s, owner, owner, net, cpu, false).Some?
    ensures var s' := DelegateBw(s, owner, owner, net, cpu, false).value;
            var r, r' := RefundOf(s.refunds, owner), RefundOf(s'.refunds, owner);
            var dueNet, dueCpu := net - (r.net - r'.net), cpu - (r.cpu - r'.cpu);
            && 0 <= dueNet && (dueNet == 0 || r'.net == 0) && 0 <= dueCpu && (dueCpu == 0 || r'.cpu == 0)
            && BalanceOf(s'.tokens, owner) == BalanceOf(s.tokens, owner) - dueNet - dueCpu
            && (owner in s'.refunds ==> owner in s.refunds && r'.time == r.time)
            && forall n: Name | n != owner :: RefundOf(s'.refunds, n) == RefundOf(s.refunds, n)
  {
    hide NonNegative, Backed, Adjust, ChangeDelegation;
    RefundNonNegative(s, owner, g);
    RefundCovers(RefundOf(s.refunds, owner), net, cpu, s.now);
  }

  /** Stake can go to eosio.rex exactly as far as it was delegated; it leaves refunds alone and takes no detour over them. */
  lemma StakeToRexExactly(s: State, owner: Name, receiver: Name, net: int, cpu: int, g: Claims)
    requires Inv(s, g) && Owed(s) <= BalanceOf(s.tokens, STAKE)
    ensures var r, d := StakeToRex(s, owner, receiver, net, cpu), DelegationOf(s.delegations, Pair(owner, receiver));
            && (r.Some? <==> 0 <= net <= d.net && 0 <= cpu <= d.cpu && 0 < net + cpu)
            && (r.Some? ==>
                  && r.value.refunds == s.refunds
                  && BalanceOf(r.value.tokens, STAKE) == BalanceOf(s.tokens, STAKE) - net - cpu
                  && BalanceOf(r.value.tokens, REX) == BalanceOf(s.tokens, REX) + net + cpu
                  && var d' := DelegationOf(r.value.delegations, Pair(owner, receiver)); d'.net == d.net - net && d'.cpu == d.cpu - cpu)
  {
    var p := Pair(owner, receiver);
    var d := DelegationOf(s.delegations, p);
    if 0 <= net <= d.net && 0 <= cpu <= d.cpu && 0 < net + cpu {
      DelegatedIsHeld(s, p, g);
      ResourcesFollow(s, p, -net, -cpu, g);
    }
    if ChangeDelegation(s.delegations, p, -net, -cpu).Some? {
      DelegationAt(s.delegations, p, -net, -cpu, p);
    }
    hide Adjust, ChangeDelegation, ValidDelegations, ValidRefunds, NonNegative, Backed;
  }

  lemma DelegatedIsHeld(s: State, p: Pair, g: Claims)
    requires Inv(s, g) && Owed(s) <= BalanceOf(s.tokens, STAKE)
    ensures DelegationOf(s.delegations, p).net + DelegationOf(s.delegations, p).cpu <= BalanceOf(s.tokens, STAKE)
  {
    hide Backed, NonNegative;
    SumNonNegative(s.delegations, AmountOf());
    SumNonNegative<Name, Refund>(s.refunds, PendingOf());
    if p in s.delegations {
      SumAtLeast(s.delegations, p, AmountOf());
    }
  }

  // ----- when a refund falls due -----

  predicate Undelegates(a: Action, owner: Name) {
    a.UndelegateCall? && a.from == owner
  }

  /** Nothing but the owner's own unstaking sets the time of a refund, and it sets it to now. */
  lemma OnlyUnstakingSetsTime(s: State, a: Action, owner: Name)
    requires Step(s, a).Some?
    requires owner in Step(s, a).value.refunds
    ensures var s' := Step(s, a).value;
            || (owner in s.refunds && s'.refunds[owner].time == s.refunds[owner].time)
            || (Undelegates(a, owner) && s'.refunds[owner].time == s.now)
  {
    hide ChangeDelegation, Adjust, Transfer;
    match a
    case DelegateCall(from, receiver, net, cpu, transfer) => StakingSetsNoTime(s, from, receiver, net, cpu, transfer, owner);
    case UndelegateCall(from, receiver, net, cpu) =>
    case RefundCall(o) =>
    case StakeToRexCall(o, receiver, net, cpu) =>
    case Advance(time) =>
  }

  lemma StakingSetsNoTime(s: State, from: Name, receiver: Name, net: int, cpu: int, transfer: bool, owner: Name)
    requires DelegateBw(s, from, receiver, net, cpu, transfer).Some?
    requires owner in DelegateBw(s, from, receiver, net, cpu, transfer).value.refunds
    ensures owner in s.refunds
    ensures DelegateBw(s, from, receiver, net, cpu, transfer).value.refunds[owner].time == s.refunds[owner].time
  {
    hide ChangeDelegation, Adjust, Transfer;
  }
}
