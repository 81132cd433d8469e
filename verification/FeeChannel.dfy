/** Fees of other actions, shared out between the staking pools and REX. */
module FeeChannel {
  import opened Tables
  import opened Resources
  import S = StakingPools
  import SI = StakingInvariants
  import R = Rex
  import RI = RexInvariants
  import RexActions
  import Transitions

  datatype Both = Both(pools: S.State, rex: R.State)

  /** channel_to_rex_or_pools: the pools' part first, the rest to REX; without REX the rest stays with the payer, unless all of
      it must go, and then all of it goes to the pools. */
  ghost function Channel(b: Both, amount: int, requireAll: bool): Option<Both> {
    var pools := S.Channel(b.pools, amount, !requireAll || b.rex.Available());
    var remaining := amount - (pools.tokens - b.pools.tokens);
    if remaining == 0 then Some(b.(pools := pools)) else
    var _ :- Need(!requireAll || b.rex.Available());
    var rex :- R.ChannelToRex(b.rex, remaining);
    Some(Both(pools, rex))
  }

  ghost predicate Inv(b: Both, o: Claims) {
    SI.Inv(b.pools) && RI.Inv(b.rex, o)
  }

  lemma PoolsPart(s: S.State, amount: int, partial: bool)
    requires SI.Inv(s) && 0 <= amount
    ensures 0 <= S.Channel(s, amount, partial).tokens - s.tokens <= amount
    ensures S.Active(s.pools) <= 0 ==> S.Channel(s, amount, partial) == s
    ensures 0 < S.Active(s.pools) && !partial ==> S.Channel(s, amount, partial).tokens == s.tokens + amount
  {
    SI.TransitionBounds(s, amount);
  }

  lemma RexPart(s: R.State, amount: int, o: Claims)
    requires RI.Inv(s, o) && 0 < amount
    ensures var r := R.ChannelToRex(s, amount);
            && r.Some? && RI.Inv(r.value, o) && RI.Surplus(r.value) == RI.Surplus(s)
            && r.value.tokens - s.tokens == if s.Available() then amount else 0
  {
    hide RI.InvExcept, RI.Surplus, R.AddToReturnPool;
    RexActions.ChannelToRexKeeps(s, amount, o);
    if s.Available() {
      RexActions.AddToReturnPoolFrame(s, amount);
    }
  }

  /** Nothing of a fee is lost: it goes to the pools and to REX, and only what neither takes stays with the payer. A fee that
      must go in full is refused exactly when there is neither REX nor an active pool. */
  lemma FeeIsSplit(b: Both, amount: int, requireAll: bool, o: Claims)
    requires Inv(b, o) && 0 < amount
    ensures var r := Channel(b, amount, requireAll);
            && (r.Some? <==> !requireAll || b.rex.Available() || 0 < S.Active(b.pools.pools))
            && (r.Some? ==>
                  && Inv(r.value, o)
                  && RI.Surplus(r.value.rex) == RI.Surplus(b.rex)
                  && r.value.pools.tokens - SI.TotalBalance(r.value.pools.pools) == b.pools.tokens - SI.TotalBalance(b.pools.pools)
                  && var toPools, toRex := r.value.pools.tokens - b.pools.tokens, r.value.rex.tokens - b.rex.tokens;
                     && 0 <= toPools && 0 <= toRex && toPools + toRex <= amount
                     && (requireAll || b.rex.Available() ==> toPools + toRex == amount))
  {
    hide SI.Inv, RI.InvExcept, S.Channel, R.ChannelToRex, RI.Surplus, SI.TotalBalance, SI.OnlyGain, SI.KeepsValue, S.Active;
    var partial := !requireAll || b.rex.Available();
    PoolsPart(b.pools, amount, partial);
    SI.ChannelKeeps(b.pools, amount, partial);
    var remaining := amount - (S.Channel(b.pools, amount, partial).tokens - b.pools.tokens);
    if remaining != 0 {
      RexPart(b.rex, remaining, o);
    }
  }

  /** channel_namebid_to_rex_or_pools: the proceeds wait on both sides until they are collected. */
  function ChannelNamebid(b: Both, bid: int): Option<Both> {
    var pools :- S.ChannelNamebid(b.pools, bid);
    var toPools := pools.namebids - b.pools.namebids;
    if bid - toPools == 0 then Some(b.(pools := pools)) else
    var rex :- R.ChannelNamebid(b.rex, bid - toPools);
    Some(Both(pools, rex))
  }

  ghost function WaitingForRex(s: R.State): int {
    if s.pool.Some? then s.pool.value.namebid else 0
  }

  /** The winning bid is credited once: to the pools' proceeds and, if there is REX, to those of REX. */
  lemma NamebidIsSplit(b: Both, bid: int)
    requires 0 < bid
    ensures var r := ChannelNamebid(b, bid);
            && r.Some? && b.pools.namebids <= r.value.pools.namebids
            && (!b.rex.Available() ==> r.value.rex == b.rex)
            && var credited := r.value.pools.namebids - b.pools.namebids + WaitingForRex(r.value.rex) - WaitingForRex(b.rex);
               0 <= credited <= bid && (b.rex.Available() ==> credited == bid)
  {
    Transitions.PartGrows(b.pools.begin, b.pools.end, b.pools.slot, b.pools.slot, bid);
  }
}
