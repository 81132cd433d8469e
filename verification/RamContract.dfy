/** The RAM market and the global counters as the contract updates them, proved against module RamMarket. */
module RamContract {
  import opened Tables
  import opened Resources
  import RamMarket
  import Bancor

  /** The relay; `direct_convert` in both directions. */
  class ExchangeState {
    var base: int
    var quote: int

    constructor (base: int, quote: int)
      ensures this.base == base && this.quote == quote
    {
      this.base, this.quote := base, quote;
    }

    /** RAM bytes in, tokens out. */
    method ConvertFromBase(bytes: int) returns (out: int)
      requires 0 <= base && 0 <= quote && 0 < bytes
      modifies this
      ensures out == Bancor.Output(old(base), old(quote), bytes)
      ensures base == old(base) + bytes && quote == old(quote) - out && 0 <= quote
      ensures old(base) * old(quote) <= base * quote
    {
      Bancor.OutputBounds(base, quote, bytes);
      Bancor.ProductNeverFalls(base, quote, bytes);
      out := Bancor.Output(base, quote, bytes);
      base := base + bytes;
      quote := quote - out;
    }

    /** Tokens in, RAM bytes out. */
    method ConvertFromQuote(paid: int) returns (out: int)
      requires 0 <= base && 0 <= quote && 0 < paid
      modifies this
      ensures out == Bancor.Output(old(quote), old(base), paid)
      ensures quote == old(quote) + paid && base == old(base) - out && 0 <= base
      ensures old(base) * old(quote) <= base * quote
    {
      Bancor.OutputBounds(quote, base, paid);
      Bancor.ProductNeverFalls(quote, base, paid);
      Bancor.Commutes(base, quote);
      Bancor.Commutes(base - Bancor.Output(quote, base, paid), quote + paid);
      out := Bancor.Output(quote, base, paid);
      quote := quote + paid;
      base := base - out;
    }
  }

  class RamContract {
    const market: ExchangeState
    var maxRam: int
    var reserved: int
    var stake: int
    var rate: nat
    var lastSlot: int
    var slot: int
    var resources: ResourceTable
    var tokens: int
    /** The quote balance at initialisation. */
    ghost const initial: int

    ghost function S(): RamMarket.State
      reads this, market
    {
      RamMarket.State(market.base, market.quote, maxRam, reserved, stake, rate, lastSlot, slot, resources, tokens)
    }

    ghost predicate Valid()
      reads this, market
    {
      RamMarket.Inv(S(), initial)
    }

    /** `init`: all free RAM is for sale, at a thousandth of the token supply. */
    constructor (supply: int, size: int, slot: int, granted: ResourceTable)
      requires 0 < supply && 0 <= size && forall n | n in granted :: granted[n].ram == 0
      ensures Valid() && fresh(market) && RamMarket.Initial(S(), supply) && S().resources == granted
    {
      market := new ExchangeState(size, supply / 1000);
      maxRam, reserved, stake, rate := size, 0, 0, 0;
      lastSlot, this.slot, tokens := 0, slot, 0;
      resources := granted;
      initial := supply / 1000;
      new;
      RamMarket.InitialInv(S(), supply);
    }

    method UpdateRamSupply()
      requires Valid()
      modifies this, market
      ensures S() == RamMarket.UpdateSupply(old(S())) && Valid()
    {
      RamMarket.UpdateSupplyKeeps(S(), initial);
      if slot <= lastSlot {
        return;
      }
      var newRam := (slot - lastSlot) * rate % 0x1_0000_0000;
      maxRam := maxRam + newRam;
      market.base := market.base + newRam;
      lastSlot := slot;
    }

    method SetRam(size: int) returns (ok: bool)
      requires Valid()
      modifies this, market
      ensures ok == RamMarket.SetRam(old(S()), size).Some?
      ensures ok ==> RamMarket.SetRam(old(S()), size) == Some(S()) && Valid()
    {
      if !(maxRam < size && size < RamMarket.MAX_RAM && size > reserved) {
        return false;
      }
      RamMarket.SetRamKeeps(S(), size, initial);
      var delta := size - maxRam;
      market.base := market.base + delta;
      maxRam := size;
      return true;
    }

    method SetRamRate(bytesPerBlock: nat) returns (ok: bool)
      requires Valid()
      modifies this, market
      ensures ok == RamMarket.SetRate(old(S()), bytesPerBlock).Some?
      ensures ok ==> RamMarket.SetRate(old(S()), bytesPerBlock) == Some(S()) && Valid()
    {
      if !(bytesPerBlock < 0x1_0000) {
        return false;
      }
      UpdateRamSupply();
      rate := bytesPerBlock;
      return true;
    }

    method SetRamBytes(account: Name, bytes: int)
      modifies `resources
      ensures resources == RamMarket.SetRamOf(old(resources), account, bytes)
    {
      if account !in resources {
        resources := resources[account := Row(0, 0, bytes)];
      } else {
        resources := resources[account := resources[account].(ram := bytes)];
      }
    }

    method BuyRam(receiver: Name, quant: int) returns (ok: bool)
      requires Valid()
      modifies this, market
      ensures ok == RamMarket.Buy(old(S()), receiver, quant).Some?
      ensures ok ==> RamMarket.Buy(old(S()), receiver, quant) == Some(S()) && Valid()
      ensures ok ==> tokens - stake == old(tokens - stake)
    {
      ghost var s := S();
      UpdateRamSupply();
      if !(quant > 0) {
        return false;
      }
      var fee := (quant + 199) / 200;
      var paid := quant - fee;
      if !(paid > 0) {
        return false;
      }
      tokens := tokens + paid;
      var bytes := market.ConvertFromQuote(paid);
      if !(bytes > 0) {
        return false;
      }
      reserved := reserved + bytes;
      stake := stake + paid;
      SetRamBytes(receiver, RamOf(resources, receiver) + bytes);
      RamMarket.BuyKeeps(s, receiver, quant, initial);
      return true;
    }

    method BuyRamBytes(receiver: Name, bytes: int) returns (ok: bool)
      requires Valid()
      modifies this, market
      ensures ok == RamMarket.BuyBytes(old(S()), receiver, bytes).Some?
      ensures ok ==> RamMarket.BuyBytes(old(S()), receiver, bytes) == Some(S()) && Valid()
    {
      var cost := Bancor.Input(market.base, market.quote, bytes);
      ok := BuyRam(receiver, cost * 1000 / 995);
    }

    method SellRam(account: Name, bytes: int) returns (ok: bool)
      requires Valid()
      modifies this, market
      ensures ok == RamMarket.Sell(old(S()), account, bytes).Some?
      ensures ok ==> RamMarket.Sell(old(S()), account, bytes) == Some(S()) && Valid()
      ensures ok ==> tokens - stake == old(tokens - stake)
    {
      ghost var s := S();
      UpdateRamSupply();
      if !(bytes > 0) || account !in resources || !(bytes <= resources[account].ram) {
        return false;
      }
      RamMarket.SellOutput(S(), account, bytes, initial);
      var out := market.ConvertFromBase(bytes);
      if !(out > 1) {
        return false;
      }
      reserved := reserved - bytes;
      stake := stake - out;
      assert stake >= 0;
      SetRamBytes(account, resources[account].ram - bytes);
      assert out <= tokens;
      tokens := tokens - out;
      RamMarket.SellKeeps(s, account, bytes, initial);
      return true;
    }
  }
}
