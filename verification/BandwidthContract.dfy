/** Staking as the contract performs it: changebw updates delegation, totals and refund rows and two local balances
    step by step. Proved against module Bandwidth. */
module BandwidthContract {
  import opened Tables
  import opened Resources
  import opened Tokens
  import B = Bandwidth

  class BandwidthContract {
    var now: int
    var delegations: B.Delegations
    var refunds: B.Refunds
    var resources: ResourceTable
    var tokens: Ledger
    /** What loans, powerup and the RAM market have granted to each account. */
    ghost var others: Claims

    ghost function S(): B.State
      reads this
    {
      B.State(now, delegations, refunds, resources, tokens)
    }

    ghost predicate Valid()
      reads this
    {
      B.Inv(S(), others)
    }

    constructor (time: int, ledger: Ledger, granted: ResourceTable, ghost claims: Claims)
      requires NonNegative(ledger) && Granted(granted, claims)
      ensures Valid() && S() == B.State(time, map[], map[], granted, ledger)
    {
      now, delegations, refunds, resources, tokens := time, map[], map[], granted, ledger;
      others := claims;
    }

    method TransferTokens(from: Name, to: Name, amount: int) returns (ok: bool)
      modifies `tokens
      ensures ok == Transfer(old(tokens), from, to, amount).Some?
      ensures ok ==> Transfer(old(tokens), from, to, amount) == Some(tokens)
    {
      if from == to || !(0 < amount) || !(amount <= BalanceOf(tokens, from)) {
        return false;
      }
      tokens := tokens[from := BalanceOf(tokens, from) - amount];
      tokens := tokens[to := BalanceOf(tokens, to) + amount];
      return true;
    }

    method UpdateDelegation(from: Name, receiver: Name, net: int, cpu: int) returns (ok: bool)
      modifies `delegations
      ensures ok == B.ChangeDelegation(old(delegations), B.Pair(from, receiver), net, cpu).Some?
      ensures ok ==> B.ChangeDelegation(old(delegations), B.Pair(from, receiver), net, cpu) == Some(delegations)
    {
      var p := B.Pair(from, receiver);
      if p !in delegations {
        delegations := delegations[p := B.Delegation(net, cpu)];
      } else {
        delegations := delegations[p := B.Delegation(delegations[p].net + net, delegations[p].cpu + cpu)];
      }
      if delegations[p].net < 0 || delegations[p].cpu < 0 {
        return false;
      }
      if delegations[p].IsEmpty() {
        delegations := delegations - {p};
        assert delegations == old(delegations) - {p};
      }
      return true;
    }

    method UpdateTotals(receiver: Name, net: int, cpu: int) returns (ok: bool)
      requires net != 0 || cpu != 0
      modifies `resources
      ensures ok == Adjust(old(resources), receiver, net, cpu).Some?
      ensures ok ==> Adjust(old(resources), receiver, net, cpu) == Some(resources)
    {
      if receiver !in resources {
        resources := resources[receiver := Row(net, cpu, 0)];
      } else {
        var row := resources[receiver];
        resources := resources[receiver := row.(net := row.net + net, cpu := row.cpu + cpu)];
      }
      if resources[receiver].net < 0 || resources[receiver].cpu < 0 {
        return false;
      }
      if resources[receiver].IsEmpty() {
        resources := resources - {receiver};
        assert resources == old(resources) - {receiver};
      }
      return true;
    }

    /** Creates, updates or erases the owner's refund, and returns what it does not cover of each balance. */
    method UpdateRefund(owner: Name, net: int, cpu: int) returns (netBalance: int, cpuBalance: int)
      requires B.ValidRefunds(refunds, now) && owner != B.STAKE
      requires (0 <= net && 0 <= cpu) || (net <= 0 && cpu <= 0)
      requires net != 0 || cpu != 0
      modifies `refunds
      ensures refunds == B.ChangeRefund(old(refunds), owner, net, cpu, now)
      ensures Max(0, netBalance + cpuBalance) == B.Shortfall(B.RefundOf(old(refunds), owner), net, cpu)
      ensures net < 0 || cpu < 0 ==> owner in refunds && refunds[owner].time == now
      ensures 0 <= net && 0 <= cpu && owner in refunds ==> owner in old(refunds) && refunds[owner].time == old(refunds)[owner].time
    {
      netBalance, cpuBalance := net, cpu;
      if owner in refunds {
        var r := refunds[owner];
        if netBalance < 0 || cpuBalance < 0 {
          r := r.(time := now);
        }
        r := r.(net := r.net - netBalance);
        if r.net < 0 {
          netBalance := -r.net;
          r := r.(net := 0);
        } else {
          netBalance := 0;
        }
        r := r.(cpu := r.cpu - cpuBalance);
        if r.cpu < 0 {
          cpuBalance := -r.cpu;
          r := r.(cpu := 0);
        } else {
          cpuBalance := 0;
        }
        refunds := refunds[owner := r];
        assert 0 <= refunds[owner].net && 0 <= refunds[owner].cpu;
        if refunds[owner].IsEmpty() {
          refunds := refunds - {owner};
          assert refunds == old(refunds) - {owner};
        }
      } else if netBalance < 0 || cpuBalance < 0 {
        var r := B.Refund(0, 0, now);
        if netBalance < 0 {
          r := r.(net := -netBalance);
          netBalance := 0;
        }
        if cpuBalance < 0 {
          r := r.(cpu := -cpuBalance);
          cpuBalance := 0;
        }
        refunds := refunds[owner := r];
      } else {
        assert refunds - {owner} == refunds;
      }
    }

    method ChangeBw(source: Name, receiver: Name, net: int, cpu: int, transfer: bool) returns (ok: bool)
      requires Valid() && (transfer ==> source != receiver && 0 < net + cpu)
      modifies `delegations, `refunds, `resources, `tokens
      ensures ok == B.ChangeBw(old(S()), source, receiver, net, cpu, transfer).Some?
      ensures ok ==> B.ChangeBw(old(S()), source, receiver, net, cpu, transfer) == Some(S()) && Valid()
    {
      hide B.ValidDelegations, B.ValidRefunds, NonNegative, B.Backed, Adjust, B.ChangeDelegation, B.ChangeRefund, B.Shortfall,
           B.Owed, B.Holdings, Transfer;
      if !(net != 0 || cpu != 0) || !(Max(B.Abs(net), B.Abs(cpu)) <= B.Abs(net + cpu)) {
        return false;
      }
      B.SameSigns(net, cpu);
      if B.ChangeBw(S(), source, receiver, net, cpu, transfer).Some? {
        B.ChangeBwMoves(S(), source, receiver, net, cpu, transfer, others);
      }
      var from := if transfer then receiver else source;
      ok := UpdateDelegation(from, receiver, net, cpu);
      if !ok { return; }
      ok := UpdateTotals(receiver, net, cpu);
      if !ok { return; }
      if B.STAKE != source {
        var netBalance, cpuBalance := net, cpu;
        var isUndelegating := netBalance + cpuBalance < 0;
        var isDelegatingToSelf := !transfer && from == receiver;
        if isDelegatingToSelf || isUndelegating {
          netBalance, cpuBalance := UpdateRefund(from, net, cpu);
        }
        var due := netBalance + cpuBalance;
        if 0 < due {
          ok := TransferTokens(source, B.STAKE, due);
        }
      }
    }

    method DelegateBw(from: Name, receiver: Name, net: int, cpu: int, transfer: bool) returns (ok: bool)
      requires Valid()
      modifies `delegations, `refunds, `resources, `tokens
      ensures ok == B.DelegateBw(old(S()), from, receiver, net, cpu, transfer).Some?
      ensures ok ==> B.DelegateBw(old(S()), from, receiver, net, cpu, transfer) == Some(S()) && Valid()
    {
      hide B.Inv, B.ChangeBw;
      if !(cpu >= 0) || !(net >= 0) || !(net + cpu > 0) || !(!transfer || from != receiver) {
        return false;
      }
      ok := ChangeBw(from, receiver, net, cpu, transfer);
    }

    method UndelegateBw(from: Name, receiver: Name, net: int, cpu: int) returns (ok: bool)
      requires Valid()
      modifies `delegations, `refunds, `resources, `tokens
      ensures ok == B.UndelegateBw(old(S()), from, receiver, net, cpu).Some?
      ensures ok ==> B.UndelegateBw(old(S()), from, receiver, net, cpu) == Some(S()) && Valid()
    {
      hide B.Inv, B.ChangeBw;
      if !(cpu >= 0) || !(net >= 0) || !(cpu + net > 0) {
        return false;
      }
      ok := ChangeBw(from, receiver, -net, -cpu, false);
    }

    method Refund(owner: Name) returns (ok: bool)
      requires Valid()
      modifies `refunds, `tokens
      ensures ok == B.ClaimRefund(old(S()), owner).Some?
      ensures ok ==> B.ClaimRefund(old(S()), owner) == Some(S()) && Valid()
    {
      if owner !in refunds || !(refunds[owner].time + B.REFUND_DELAY <= now) {
        return false;
      }
      if B.ClaimRefund(S(), owner).Some? {
        B.ClaimRefundMoves(S(), owner, others);
      }
      hide B.Inv;
      ok := TransferTokens(B.STAKE, owner, refunds[owner].net + refunds[owner].cpu);
      refunds := refunds - {owner};
    }

    method LowerDelegation(p: B.Pair, net: int, cpu: int)
      requires p in delegations && net <= delegations[p].net && cpu <= delegations[p].cpu
      modifies `delegations
      ensures B.ChangeDelegation(old(delegations), p, -net, -cpu) == Some(delegations)
    {
      delegations := delegations[p := B.Delegation(delegations[p].net - net, delegations[p].cpu - cpu)];
      if delegations[p].IsEmpty() {
        delegations := delegations - {p};
        assert delegations == old(delegations) - {p};
      }
    }

    /** unstaketorex up to the transfer to eosio.rex. */
    method StakeToRex(owner: Name, receiver: Name, net: int, cpu: int) returns (ok: bool)
      requires Valid()
      modifies `delegations, `resources, `tokens
      ensures ok == B.StakeToRex(old(S()), owner, receiver, net, cpu).Some?
      ensures ok ==> B.StakeToRex(old(S()), owner, receiver, net, cpu) == Some(S()) && Valid()
    {
      hide B.Inv, Adjust, B.ChangeDelegation, B.Owed, B.Holdings, Transfer;
      if B.StakeToRex(S(), owner, receiver, net, cpu).Some? {
        B.StakeToRexMoves(S(), owner, receiver, net, cpu, others);
      }
      if !(0 <= net && 0 <= cpu) || !(0 < net || 0 < cpu) {
        return false;
      }
      var p := B.Pair(owner, receiver);
      if p !in delegations || !(net <= delegations[p].net) || !(cpu <= delegations[p].cpu) {
        return false;
      }
      LowerDelegation(p, net, cpu);
      ok := UpdateTotals(receiver, -net, -cpu);
      if !ok { return; }
      ok := TransferTokens(B.STAKE, B.REX, net + cpu);
    }
  }
}
