/** What a trade on the RAM market moves, exactly, and how the supply grows over several updates. */
module RamTrades {
  import opened Tables
  import opened Resources
  import opened RamMarket
  import Bancor

  /** The fee is half a percent, rounded up. */
  predicate IsFee(amount: int, fee: int) {
    amount <= 200 * fee < amount + 200
  }

  lemma FeeExactly(amount: int)
    ensures IsFee(amount, Fee(amount))
  {
  }

  /** Only the account's RAM differs, by `bytes`. */
  ghost predicate RamMoved(res: ResourceTable, res': ResourceTable, account: Name, bytes: int) {
    forall a: Name ::
      && RamOf(res', a) == RamOf(res, a) + (if a == account then bytes else 0)
      && NetOf(res', a) == NetOf(res, a) && CpuOf(res', a) == CpuOf(res, a)
  }

  /** Buying with `quant` tokens, of which `fee` is the fee and the rest pays for `bytes`, succeeds exactly if both the rest and
      the bytes are positive, and moves just these amounts. */
  lemma BuysExactly(s: State, receiver: Name, quant: int, fee: int, bytes: int, q0: int)
    requires Inv(s, q0) && IsFee(quant, fee)
    requires Bancor.IsOutput(s.quote, UpdateSupply(s).base, quant - fee, bytes)
    ensures var r, u, paid := Buy(s, receiver, quant), UpdateSupply(s), quant - fee;
            && (r.Some? <==> 0 < paid && 0 < bytes)
            && (r.Some? ==>
                  && r.value == u.(quote := u.quote + paid, base := u.base - bytes, reserved := u.reserved + bytes,
                                   stake := u.stake + paid, tokens := u.tokens + paid, resources := r.value.resources)
                  && RamMoved(s.resources, r.value.resources, receiver, bytes))
  {
    UpdateSupplyKeeps(s, q0);
    FeeExactly(quant);
    var u, paid := UpdateSupply(s), quant - fee;
    assert Fee(quant) == fee;
    if 0 < paid {
      Bancor.OutputExactly(u.quote, u.base, paid, bytes);
    }
    hide UpdateSupply;
  }

  /** Selling bytes one has succeeds exactly if they yield more than one unit, and moves just these amounts. */
  lemma SellsExactly(s: State, account: Name, bytes: int, out: int, q0: int)
    requires Inv(s, q0) && 0 < bytes && Bancor.IsOutput(UpdateSupply(s).base, s.quote, bytes, out)
    ensures var r, u := Sell(s, account, bytes), UpdateSupply(s);
            && (r.Some? <==> bytes <= RamOf(s.resources, account) && 1 < out)
            && (r.Some? ==>
                  && r.value == u.(quote := u.quote - out, base := u.base + bytes, reserved := u.reserved - bytes,
                                   stake := u.stake - out, tokens := u.tokens - out, resources := r.value.resources)
                  && RamMoved(s.resources, r.value.resources, account, -bytes))
  {
    UpdateSupplyKeeps(s, q0);
    var u := UpdateSupply(s);
    Bancor.OutputExactly(u.base, u.quote, bytes, out);
    SellIsNeverBlocked(s, account, bytes, q0);
    hide UpdateSupply, Inv;
  }

  /** What buyrambytes pays covers the quoted cost of the bytes and the fee: after the fee at most one unit is missing, and
      none is too much. */
  lemma PriceCoversCost(s: State, bytes: int)
    requires 0 < bytes < s.base && 0 <= s.quote
    ensures var cost, price := Bancor.Input(s.base, s.quote, bytes), BytesPrice(s, bytes);
            && cost * (s.base - bytes) <= s.quote * bytes < (cost + 1) * (s.base - bytes)
            && price * 995 <= cost * 1000 < (price + 1) * 995
            && cost - 1 <= price - Fee(price) <= cost
  {
    Bancor.InputBounds(s.base, s.quote, bytes);
    FeeExactly(BytesPrice(s, bytes));
  }

  // ----- the supply -----

  /** As long as the product does not wrap, it makes no difference whether the supply is brought up to date in between. */
  lemma UpdatesCompose(s: State, t1: int, t2: int)
    requires s.lastSlot <= t1 <= t2 && (t2 - s.lastSlot) * s.rate < 0x1_0000_0000
    ensures UpdateSupply(UpdateSupply(s.(slot := t1)).(slot := t2)) == UpdateSupply(s.(slot := t2))
  {
    GrowthAdds(t1 - s.lastSlot, t2 - t1, s.rate);
    NoWrap(s.(slot := t1));
    NoWrap(UpdateSupply(s.(slot := t1)).(slot := t2));
    NoWrap(s.(slot := t2));
    hide NewRam;
  }

  lemma GrowthAdds(a: int, b: int, rate: nat)
    requires 0 <= a && 0 <= b
    ensures (a + b) * rate == a * rate + b * rate && 0 <= a * rate && 0 <= b * rate
  {
  }

  lemma NoWrap(s: State)
    ensures 0 <= (s.slot - s.lastSlot) * s.rate < 0x1_0000_0000 ==> NewRam(s) == (s.slot - s.lastSlot) * s.rate
  {
  }

  /** A new rate counts from now on; the blocks before count at the old one. */
  lemma RateCountsFromNow(s: State, rate: nat, later: int)
    requires s.lastSlot <= s.slot <= later && SetRate(s, rate).Some?
    requires (s.slot - s.lastSlot) * s.rate < 0x1_0000_0000 && (later - s.slot) * rate < 0x1_0000_0000
    ensures UpdateSupply(SetRate(s, rate).value.(slot := later)).maxRam
         == s.maxRam + (s.slot - s.lastSlot) * s.rate + (later - s.slot) * rate
  {
    GrowthAdds(s.slot - s.lastSlot, 0, s.rate);
    GrowthAdds(later - s.slot, 0, rate);
    NoWrap(s);
    NoWrap(SetRate(s, rate).value.(slot := later));
    hide NewRam;
  }

  /** The size can only be raised, stays below the limit, and all of the difference is for sale. */
  lemma SetsRamExactly(s: State, size: int, q0: int)
    requires Inv(s, q0)
    ensures var r := SetRam(s, size);
            && (r.Some? <==> s.maxRam < size < 0x4_0000_0000_0000)
            && (r.Some? ==> r.value == s.(maxRam := size, base := size - s.reserved))
  {
  }
}
