/** Staking pools as the contract updates them: the pool object, and the actions that move shares through it. Proved against
    module StakingPools. */
module StakingContract {
  import opened Tables
  import opened Resources
  import P = StakingPools
  import opened StakingInvariants
  import opened StakingTrades
  import Transitions

  class TokenPool {
    const duration: int
    const claimPeriod: int
    var balance: int
    var shares: real

    ghost function Value(): P.Pool
      reads this
    {
      P.Pool(duration, claimPeriod, balance, shares)
    }

    constructor (duration: int, claimPeriod: int)
      ensures Value() == P.Pool(duration, claimPeriod, 0, 0.0)
    {
      this.duration, this.claimPeriod, balance, shares := duration, claimPeriod, 0, 0.0;
    }

    method Adjust(delta: int)
      modifies this
      ensures Value() == old(Value()).(balance := old(balance) + delta)
    {
      balance := balance + delta;
    }

    method SimulateBuy(b: int) returns (out: real)
      requires P.ValidPool(Value())
      ensures out == P.SharesBought(Value(), b)
    {
      if b == 0 {
        return 0.0;
      }
      if shares == 0.0 {
        return b as real;
      }
      return b as real * shares / balance as real;
    }

    method Buy(b: int) returns (out: real)
      requires P.ValidPool(Value())
      modifies this
      ensures out == P.SharesBought(old(Value()), b) && Value() == P.Buy(old(Value()), b)
    {
      out := SimulateBuy(b);
      balance := balance + b;
      shares := shares + out;
    }

    method SimulateSell(s: real) returns (out: int)
      requires P.ValidPool(Value()) && 0.0 <= s
      ensures out == P.Worth(Value(), s)
      ensures s <= shares ==> 0 <= out <= balance && out as real * shares <= s * balance as real && (out == balance <==> s == shares)
    {
      if s <= shares {
        WorthBounds(Value(), s);
      }
      if s == 0.0 {
        return 0;
      }
      if s >= shares {
        return balance;
      }
      return P.Share(s, balance as real, shares).Floor;
    }

    /** The shares needed to get an amount. */
    method SimulateSellAmount(amount: int) returns (out: real)
      requires P.ValidPool(Value())
      ensures out == P.SharesFor(Value(), amount)
      ensures 0 < balance ==> out * balance as real == amount as real * shares
    {
      if balance != 0 {
        Ratio(amount as real, shares, balance as real);
      }
      if amount == balance {
        return shares;
      }
      if amount == 0 || balance == 0 {
        return 0.0;
      }
      return amount as real * shares / balance as real;
    }

    method Sell(s: real) returns (out: int)
      requires P.ValidPool(Value()) && 0.0 <= s
      modifies this
      ensures out == P.Worth(old(Value()), s) && Value() == P.Sell(old(Value()), s)
    {
      out := SimulateSell(s);
      balance := balance - out;
      shares := shares - s;
    }
  }

  /** deposit_pool. */
  method DepositPool(pool: TokenPool, owned0: real, next0: int, amount: int, now: int) returns (ok: bool, owned: real, next: int)
    requires P.ValidPool(pool.Value()) && 0 < amount && 0.0 <= owned0 <= pool.shares
    modifies pool
    ensures var r := P.Deposit(P.Stake(old(pool.Value()), owned0, next0), amount, now);
            ok == r.Some? && (ok ==> r == Some(P.Stake(pool.Value(), owned, next)))
    ensures ok ==> Deposited(P.Stake(old(pool.Value()), owned0, next0), amount, now, P.Stake(pool.Value(), owned, next))
  {
    DepositExact(P.Stake(pool.Value(), owned0, next0), amount, now);
    WorthBounds(pool.Value(), owned0);
    var maxNextClaim := now + pool.claimPeriod * 2;
    var currentBalance := pool.SimulateSell(owned0);
    var newShares := pool.Buy(amount);
    if !(newShares > 0.0) {
      return false, owned0, next0;
    }
    next := if next0 < now then now else next0;
    next := (next * currentBalance + maxNextClaim * amount) / (currentBalance + amount);
    return true, owned0 + newShares, next;
  }

  /** withdraw_pool. */
  method WithdrawPool(pool: TokenPool, owned0: real, requested: int, claiming: bool) returns (ok: bool, owned: real, sold: int)
    requires P.ValidPool(pool.Value()) && 0.0 <= owned0 <= pool.shares && 0 < requested
    modifies pool
    ensures var r := P.Withdraw(old(pool.Value()), owned0, requested, claiming);
            ok == r.Some? && (ok ==> r == Some(P.Withdrawn(pool.Value(), owned, sold)))
  {
    WithdrawMeaning(pool.Value(), owned0, requested, claiming);
    WorthBounds(pool.Value(), owned0);
    var balance := pool.SimulateSell(owned0);
    if !claiming && requested >= balance {
      sold := pool.Sell(owned0);
      return true, 0.0, sold;
    }
    var available := balance;
    if claiming {
      available := balance * pool.claimPeriod / pool.duration;
    }
    var amount := Min(available, requested);
    if !(amount > 0) {
      return false, owned0, 0;
    }
    var needed := pool.SimulateSellAmount(amount);
    var sellShares := if needed < owned0 then needed else owned0;
    sold := pool.Sell(sellShares);
    owned := owned0 - sellShares;
    ok := sellShares > 0.0 && sold > 0;
  }

  /** The checks of cfgsrpool on durations, claim periods and vote weights. */
  predicate GoodPools(durations: seq<int>, periods: seq<int>, weights: seq<real>) {
    && durations != [] && |periods| == |durations| && |weights| == |durations|
    && (forall i | 0 <= i < |durations| :: 0 < durations[i] && 0 < periods[i] < durations[i] && 0.0 < weights[i])
    && (forall i | 1 <= i < |durations| ::
          durations[i - 1] < durations[i] && periods[i - 1] <= periods[i] && weights[i - 1] <= weights[i])
  }

  method CreatePools(durations: seq<int>, periods: seq<int>, weights: seq<real>) returns (ok: bool, pools: seq<TokenPool>)
    ensures ok == GoodPools(durations, periods, weights)
    ensures ok ==> |pools| == |durations| && forall i, j | 0 <= i < j < |pools| :: pools[i] != pools[j]
    ensures ok ==> forall i | 0 <= i < |pools| ::
              pools[i].Value() == P.Pool(durations[i], periods[i], 0, 0.0) && fresh(pools[i])
  {
    pools := [];
    if |durations| == 0 || |periods| != |durations| || |weights| != |durations| {
      return false, [];
    }
    var i := 0;
    while i < |durations|
      invariant 0 <= i <= |durations| && |pools| == i
      invariant forall j | 0 <= j < i :: 0 < durations[j] && 0 < periods[j] < durations[j] && 0.0 < weights[j]
      invariant forall j | 1 <= j < i ::
                  durations[j - 1] < durations[j] && periods[j - 1] <= periods[j] && weights[j - 1] <= weights[j]
      invariant forall j, h | 0 <= j < h < i :: pools[j] != pools[h]
      invariant forall j | 0 <= j < i :: pools[j].Value() == P.Pool(durations[j], periods[j], 0, 0.0) && fresh(pools[j])
    {
      if !(durations[i] > 0) || !(periods[i] > 0) || !(weights[i] > 0.0) || !(periods[i] < durations[i]) {
        return false, [];
      }
      if i >= 1 && (!(durations[i - 1] < durations[i]) || !(periods[i - 1] <= periods[i]) || !(weights[i - 1] <= weights[i])) {
        return false, [];
      }
      var pool := new TokenPool(durations[i], periods[i]);
      pools := pools + [pool];
      i := i + 1;
    }
    ok := true;
  }

  /** What updatepay pays: inflation rates, and limits on the producers that are paid. */
  datatype PaySettings = PaySettings(prodRate: real, voterRate: real, maxNumPay: int, maxVoteRatio: real)

  const DEFAULT_PAY: PaySettings := PaySettings(0.0, 0.0, 50, 0.8)

  datatype PayChange = PayChange(prodRate: Option<real>, voterRate: Option<real>, maxNumPay: Option<int>, maxVoteRatio: Option<real>)

  /** Rates below one, and a share of votes: pay can be computed from any settings that were ever accepted. */
  predicate GoodPay(p: PaySettings) {
    0.0 <= p.prodRate < 1.0 && 0.0 <= p.voterRate < 1.0 && 0.0 <= p.maxVoteRatio <= 1.0
  }

  function Changed(p: PaySettings, c: PayChange): PaySettings {
    PaySettings(if c.prodRate.Some? then c.prodRate.value else p.prodRate,
                if c.voterRate.Some? then c.voterRate.value else p.voterRate,
                if c.maxNumPay.Some? then c.maxNumPay.value else p.maxNumPay,
                if c.maxVoteRatio.Some? then c.maxVoteRatio.value else p.maxVoteRatio)
  }

  class StakingContract {
    var pay: PaySettings
    var slot: int
    var begin: int
    var end: int
    var minCreate: int
    const pools: seq<TokenPool>
    var voters: map<Name, P.Voter>
    var namebids: int
    var tokens: int

    ghost function Values(): seq<P.Pool>
      reads pools
    {
      seq(|pools|, i requires 0 <= i < |pools| reads pools => pools[i].Value())
    }

    ghost function S(): P.State
      reads this, pools
    {
      P.State(slot, begin, end, minCreate, Values(), voters, namebids, tokens)
    }

    ghost predicate Distinct() {
      forall i, j | 0 <= i < j < |pools| :: pools[i] != pools[j]
    }

    ghost predicate Valid()
      reads this, pools
    {
      Distinct() && Inv(S()) && P.Shaped(S()) && GoodPay(pay)
    }

    /** cfgsrpool on first use, with pools that CreatePools made. */
    constructor (pools: seq<TokenPool>, slot: int, begin: int, end: int, minCreate: int)
      requires 0 <= slot
      requires forall i, j | 0 <= i < j < |pools| :: pools[i] != pools[j]
      requires forall i | 0 <= i < |pools| ::
                 pools[i].balance == 0 && pools[i].shares == 0.0 && 0 < pools[i].claimPeriod < pools[i].duration
      ensures Valid() && this.pools == pools && tokens == 0 && voters == map[]
    {
      this.pools := pools;
      this.slot, this.begin, this.end, this.minCreate := slot, begin, end, minCreate;
      voters, namebids, tokens, pay := map[], 0, 0, DEFAULT_PAY;
    }

    method ChangePay(change: PayChange) returns (ok: bool)
      requires GoodPay(pay)
      modifies `pay
      ensures ok <==> GoodPay(Changed(old(pay), change))
      ensures ok ==> pay == Changed(old(pay), change)
    {
      if change.prodRate.Some? {
        if !(change.prodRate.value >= 0.0 && change.prodRate.value < 1.0) {
          return false;
        }
        pay := pay.(prodRate := change.prodRate.value);
      }
      if change.voterRate.Some? {
        if !(change.voterRate.value >= 0.0 && change.voterRate.value < 1.0) {
          return false;
        }
        pay := pay.(voterRate := change.voterRate.value);
      }
      if change.maxNumPay.Some? {
        pay := pay.(maxNumPay := change.maxNumPay.value);
      }
      if change.maxVoteRatio.Some? {
        if !(change.maxVoteRatio.value >= 0.0 && change.maxVoteRatio.value <= 1.0) {
          return false;
        }
        pay := pay.(maxVoteRatio := change.maxVoteRatio.value);
      }
      return true;
    }

    /** cfgsrpool after first use: settings outside their range are refused. */
    method CfgSrpool(begin: Option<int>, end: Option<int>, change: PayChange, minCreate: Option<int>) returns (ok: bool)
      requires Valid()
      modifies `begin, `end, `minCreate, `pay
      ensures ok <==> P.Configure(old(S()), begin, end, minCreate).Some? && GoodPay(Changed(old(pay), change))
      ensures ok ==> P.Configure(old(S()), begin, end, minCreate) == Some(S()) && pay == Changed(old(pay), change) && Valid()
    {
      hide Inv, P.Shaped, GoodPay;
      ghost var s := S();
      if P.Configure(s, begin, end, minCreate).Some? {
        ConfigureKeeps(s, begin, end, minCreate, 0);
      }
      if begin.Some? {
        this.begin := begin.value;
      }
      if end.Some? {
        this.end := end.value;
      }
      if !(this.begin <= this.end) {
        return false;
      }
      ok := ChangePay(change);
      if !ok { return; }
      if minCreate.Some? {
        if !(minCreate.value >= 0) {
          return false;
        }
        this.minCreate := minCreate.value;
      }
      return true;
    }

    /** The loop of updatepay that pays every pool with shares the same. */
    method PayEachPool(perPool: int, ghost vals: seq<P.Pool>) returns (total: int)
      requires Distinct() && vals == Values() && forall j | 0 <= j < |vals| :: 0.0 <= vals[j].shares
      modifies pools
      ensures Values() == P.PayEach(vals, perPool) && total == P.Active(vals) * perPool
    {
      hide Rank, P.PayEach, P.Active;
      RankEnds(vals);
      total := 0;
      var i := 0;
      while i < |pools|
        invariant 0 <= i <= |pools| && total == Rank(vals, i) * perPool
        invariant forall j | 0 <= j < |pools| :: pools[j].Value() ==
                    if j < i && 0.0 < vals[j].shares then vals[j].(balance := vals[j].balance + perPool) else vals[j]
      {
        RankNext(vals, i);
        Timesing(Rank(vals, i), perPool);
        if pools[i].shares != 0.0 {
          pools[i].Adjust(perPool);
          total := total + perPool;
        }
        i := i + 1;
      }
      PaidEach(vals, Values(), perPool);
    }

    /** What updatepay pays to the voters. */
    method PayVoters(perPool: int)
      requires Valid() && 0 <= perPool
      modifies `tokens, pools
      ensures P.VoterPay(old(S()), perPool) == Some(S()) && Valid()
    {
      ghost var s := S();
      PaidState(s, perPool);
      PoolsValid(s);
      SharesStay(Values());
      hide Inv, P.Shaped, GoodPay, P.ValidPool, ValidPools, P.PayEach, P.Active, P.VoterPay;
      var total := PayEachPool(perPool, Values());
      tokens := tokens + total;
    }

    /** get_or_create_pool_voter. */
    method GetOrCreateVoter(owner: Name)
      modifies `voters
      ensures owner in voters && voters == old(voters)[owner := P.VoterOf(old(S()), owner)]
    {
      if owner !in voters {
        voters := voters[owner := P.Voter(seq(|pools|, i => 0), seq(|pools|, i => 0.0))];
      }
      assert voters[owner] == P.VoterOf(old(S()), owner);
    }

    /** Writes an owner's stake after the pool object has been updated. */
    method SaveStake(owner: Name, i: nat, owned: real, next: int, ghost before: P.State)
      requires P.Shaped(before) && i < |pools| && |before.pools| == |pools|
      requires S() == before.(pools := before.pools[i := pools[i].Value()], voters := before.voters[owner := P.VoterOf(before, owner)])
      modifies `voters
      ensures S() == P.PutStake(before, owner, i, P.Stake(pools[i].Value(), owned, next))
    {
      var v := voters[owner];
      voters := voters[owner := v.(nextClaim := v.nextClaim[i := next], owned := v.owned[i := owned])];
      assert voters == P.PutStake(before, owner, i, P.Stake(pools[i].Value(), owned, next)).voters;
    }

    method DepositFor(owner: Name, i: nat, amount: int) returns (ok: bool)
      requires Valid() && i < |pools| && 0 < amount
      modifies `voters, pools
      ensures var k := P.Deposit(P.StakeOf(old(S()), owner, i), amount, slot);
              ok == k.Some? && (ok ==> S() == P.PutStake(old(S()), owner, i, k.value))
    {
      hide Inv, P.Deposit, P.PutStake;
      ghost var s := S();
      StakeValid(s, owner, i);
      GetOrCreateVoter(owner);
      var owned, next;
      ok, owned, next := DepositPool(pools[i], voters[owner].owned[i], voters[owner].nextClaim[i], amount, slot);
      if !ok { return; }
      OnlyOneChanged(s.pools, Values(), i);
      SaveStake(owner, i, owned, next, s);
    }

    method WithdrawFor(owner: Name, i: nat, requested: int, claiming: bool, newTimer: bool) returns (ok: bool, sold: int)
      requires Valid() && i < |pools| && 0 < requested
      modifies `voters, pools
      ensures var k := P.StakeOf(old(S()), owner, i);
              var w := P.Withdraw(k.pool, k.owned, requested, claiming);
              && ok == w.Some?
              && (ok ==>
                    && sold == w.value.sold && pools[i].Value() == w.value.pool
                    && S() == P.PutStake(old(S()), owner, i, P.Stake(w.value.pool, w.value.owned,
                                  if newTimer then slot + k.pool.claimPeriod * 2 else k.nextClaim)))
    {
      hide Inv, P.Withdraw, P.PutStake;
      ghost var s := S();
      StakeValid(s, owner, i);
      GetOrCreateVoter(owner);
      var owned;
      ok, owned, sold := WithdrawPool(pools[i], voters[owner].owned[i], requested, claiming);
      if !ok { return; }
      OnlyOneChanged(s.pools, Values(), i);
      SaveStake(owner, i, owned, if newTimer then slot + pools[i].claimPeriod * 2 else voters[owner].nextClaim[i], s);
    }

    method StakeToPool(owner: Name, i: nat, amount: int) returns (ok: bool)
      requires Valid()
      modifies `voters, `tokens, `namebids, pools
      ensures ok == P.StakeToPool(old(S()), owner, i, amount).Some?
      ensures ok ==> P.StakeToPool(old(S()), owner, i, amount) == Some(S()) && Valid()
    {
      hide Inv, P.Deposit, P.PutStake;
      if !(i < |pools|) || !(amount > 0) {
        return false;
      }
      StakeKeeps(S(), owner, i, amount, owner);
      ok := DepositFor(owner, i, amount);
      tokens := tokens + amount;
    }

    method TransferStake(from: Name, to: Name, i: nat, requested: int) returns (ok: bool)
      requires Valid()
      modifies `voters, `tokens, `namebids, pools
      ensures ok == P.TransferStake(old(S()), from, to, i, requested).Some?
      ensures ok ==> P.TransferStake(old(S()), from, to, i, requested) == Some(S()) && Valid()
    {
      hide Inv, P.Deposit, P.PutStake, P.Withdraw, P.Worth, Spares;
      ghost var s := S();
      TransferKeeps(s, from, to, i, requested, from);
      if from == to || !(i < |pools|) || !(requested > 0) || from !in voters {
        return false;
      }
      if to !in voters && !(requested >= minCreate) {
        return false;
      }
      TakeKeeps(s, from, i, requested, from);
      var sold;
      ok, sold := WithdrawFor(from, i, requested, false, false);
      if !ok { return; }
      if !(sold > 0) || !(pools[i].shares >= 0.0) || !(pools[i].balance >= 0) {
        return false;
      }
      ok := DepositFor(to, i, sold);
    }

    method UpgradeStake(owner: Name, i: nat, j: nat, requested: int) returns (ok: bool)
      requires Valid()
      modifies `voters, `tokens, `namebids, pools
      ensures ok == P.UpgradeStake(old(S()), owner, i, j, requested).Some?
      ensures ok ==> P.UpgradeStake(old(S()), owner, i, j, requested) == Some(S()) && Valid()
    {
      hide Inv, P.Deposit, P.PutStake, P.Withdraw, P.Worth, Spares;
      ghost var s := S();
      UpgradeKeeps(s, owner, i, j, requested, owner);
      if !(i < |pools|) || !(j < |pools|) || !(i < j) || !(requested > 0) || owner !in voters {
        return false;
      }
      TakeKeeps(s, owner, i, requested, owner);
      var sold;
      ok, sold := WithdrawFor(owner, i, requested, false, false);
      if !ok { return; }
      if !(sold > 0) || !(pools[i].shares >= 0.0) || !(pools[i].balance >= 0) {
        return false;
      }
      ok := DepositFor(owner, j, sold);
    }

    /** The pools that have shares, in order, with the position of each. */
    method ActivePools() returns (active: seq<TokenPool>, ghost position: seq<int>)
      requires forall j | 0 <= j < |Values()| :: 0.0 <= Values()[j].shares
      ensures IsActive(Values(), |pools|, position) && |active| == |position|
      ensures forall m | 0 <= m < |active| :: 0 <= position[m] < |pools| && active[m] == pools[position[m]]
    {
      hide IsActive;
      active, position := [], [];
      var i := 0;
      NoneActive(Values());
      while i < |pools|
        invariant 0 <= i <= |pools| && IsActive(Values(), i, position) && |active| == |position|
        invariant forall m | 0 <= m < |active| :: 0 <= position[m] < |pools| && active[m] == pools[position[m]]
      {
        OneMore(Values(), i, position);
        assert Values()[i].shares == pools[i].shares;
        if pools[i].shares != 0.0 {
          active := active + [pools[i]];
          position := position + [i];
        }
        i := i + 1;
      }
    }

    /** The loop that hands an amount out to the active pools; the last one gets what rounding left. */
    method DistributeAmong(active: seq<TokenPool>, toPools: int, ghost position: seq<int>, ghost vals: seq<P.Pool>)
      requires Distinct() && vals == Values() && IsActive(vals, |pools|, position) && |active| == |position| && active != []
      requires forall m | 0 <= m < |active| :: 0 <= position[m] < |pools| && active[m] == pools[position[m]]
      modifies pools
      ensures Values() == P.Split(vals, toPools, |active|)
    {
      hide IsActive, Paid, P.Distributed;
      var n := |active|;
      SplitNone(toPools, n);
      NonePaid(vals, toPools, n);
      var distributed := 0;
      var i := 0;
      while i < n
        invariant 0 <= i <= n && distributed == P.Distributed(toPools, i, n)
        invariant forall j | 0 <= j < |pools| :: pools[j].Value() == Paid(vals, j, toPools, i, n)
      {
        PaidStep(vals, position, toPools, i, n);
        NextDistributed(toPools, i, n);
        var amt := toPools * (i + 1) / n - distributed;
        if amt != 0 {
          active[i].Adjust(amt);
        }
        distributed := distributed + amt;
        i := i + 1;
      }
      forall j | 0 <= j < |pools| ensures Values()[j] == P.Split(vals, toPools, n)[j] {
        SplitAt(vals, j, toPools, n);
        EveryonePaid(vals, position, j, toPools, n);
      }
    }

    /** transition_channel_to_pools; returns what is left for REX. */
    method TransitionChannelToPools(amount: int, partial: bool) returns (remaining: int)
      requires Valid() && 0 <= amount
      modifies `voters, `tokens, `namebids, pools
      ensures S() == P.Channel(old(S()), amount, partial) && Valid()
      ensures remaining == amount - (tokens - old(tokens))
    {
      ghost var s, vals := S(), Values();
      hide Inv, P.ValidPool, P.Split, IsActive, KeepsValue, OnlyGain, TotalBalance, ValidPools, P.Active;
      ChannelKeeps(s, amount, partial);
      PoolsValid(s);
      SharesStay(vals);
      var active, position := ActivePools();
      ActiveCount(vals, position);
      if active == [] {
        return amount;
      }
      var toPools := if partial then Transitions.Part(begin, end, slot, amount) else amount;
      if toPools != 0 {
        tokens := tokens + toPools;
        DistributeAmong(active, toPools, position, vals);
      }
      return amount - toPools;
    }

    method DistributeNamebidsToPools()
      requires Valid()
      modifies `voters, `tokens, `namebids, pools
      ensures S() == P.DistributeNamebids(old(S())) && Valid()
    {
      ghost var s := S();
      NamebidsKeep(s);
      ChannelKeeps(s, if 0 < namebids then namebids else 0, false);
      NotActive(s, namebids);
      hide Inv, P.Channel;
      if namebids > 0 {
        namebids := TransitionChannelToPools(namebids, false);
      }
    }

    method ClaimStake(owner: Name, i: nat, requested: int, votes: bool) returns (ok: bool)
      requires Valid() && TotalBalance(Values()) <= tokens
      modifies `voters, `tokens, `namebids, pools
      ensures ok == P.ClaimStake(old(S()), owner, i, requested, votes).Some?
      ensures ok ==> P.ClaimStake(old(S()), owner, i, requested, votes) == Some(S()) && Valid()
    {
      hide Inv, P.PutStake, P.Withdraw, P.Worth, Spares, P.Portion, TotalBalance, P.DistributeNamebids, KeepsValue, OnlyGain;
      NamebidsKeep(S());
      ClaimKeeps(S(), owner, i, requested, votes, owner);
      if !(i < |pools|) || !(requested > 0) || !votes {
        return false;
      }
      DistributeNamebidsToPools();
      if !(slot >= NextClaimOf(owner, i)) {
        return false;
      }
      var sold;
      ok, sold := WithdrawFor(owner, i, requested, true, true);
      if !ok { return; }
      if !(pools[i].shares >= 0.0) || !(pools[i].balance >= 0) || !(sold <= tokens) {
        return false;
      }
      tokens := tokens - sold;
    }

    function NextClaimOf(owner: Name, i: nat): int
      reads this
      requires owner in voters ==> i < |voters[owner].nextClaim|
    {
      if owner in voters then voters[owner].nextClaim[i] else 0
    }
  }

  lemma Timesing(k: int, amount: int)
    ensures (k + 1) * amount == k * amount + amount
  {
  }

  lemma {:induction false} PayEachAt(vals: seq<P.Pool>, j: nat, amount: int)
    requires j < |vals|
    ensures P.PayEach(vals, amount)[j] == if 0.0 < vals[j].shares then vals[j].(balance := vals[j].balance + amount) else vals[j]
  {
    if j < |vals| - 1 {
      PayEachAt(vals[..|vals| - 1], j, amount);
    }
  }

  lemma PaidState(s: P.State, perPool: int)
    requires Inv(s) && P.Shaped(s) && 0 <= perPool
    ensures var s' := s.(pools := P.PayEach(s.pools, perPool), tokens := s.tokens + P.Active(s.pools) * perPool);
            P.VoterPay(s, perPool) == Some(s') && Inv(s') && P.Shaped(s')
  {
    PayKeeps(s, perPool, 0);
  }

  lemma PaidEach(vals: seq<P.Pool>, after: seq<P.Pool>, amount: int)
    requires |after| == |vals|
    requires forall j | 0 <= j < |vals| ::
               after[j] == if 0.0 < vals[j].shares then vals[j].(balance := vals[j].balance + amount) else vals[j]
    ensures after == P.PayEach(vals, amount)
  {
    forall j | 0 <= j < |vals| ensures after[j] == P.PayEach(vals, amount)[j] {
      PayEachAt(vals, j, amount);
    }
  }

  /** The number of pools with shares before the j-th. */
  ghost function Rank(vals: seq<P.Pool>, j: nat): int
    requires j <= |vals|
  {
    P.Active(vals[..j])
  }

  lemma RankEnds(vals: seq<P.Pool>)
    ensures Rank(vals, 0) == 0 && Rank(vals, |vals|) == P.Active(vals)
  {
    assert vals[..|vals|] == vals;
  }

  lemma RankNext(vals: seq<P.Pool>, i: nat)
    requires i < |vals|
    ensures Rank(vals, i + 1) == Rank(vals, i) + (if 0.0 < vals[i].shares then 1 else 0)
    ensures 0 <= Rank(vals, i)
  {
    assert vals[..i + 1][..i] == vals[..i];
    ActiveBounds(vals[..i]);
  }

  /** Every entry of `position` is a pool before `i` that has shares, at its rank. */
  ghost predicate Listed(vals: seq<P.Pool>, i: nat, position: seq<int>)
    requires i <= |vals|
  {
    forall m | 0 <= m < |position| ::
      0 <= position[m] < i && vals[position[m]].shares > 0.0 && Rank(vals, position[m]) == m
  }

  /** Every pool before `i` that has shares is listed. */
  ghost predicate Indexed(vals: seq<P.Pool>, i: nat, position: seq<int>)
    requires i <= |vals|
  {
    forall j | 0 <= j < i && vals[j].shares > 0.0 :: 0 <= Rank(vals, j) < |position| && position[Rank(vals, j)] == j
  }

  /** `position` lists, in order, the pools before `i` that have shares. */
  ghost predicate IsActive(vals: seq<P.Pool>, i: nat, position: seq<int>)
    requires i <= |vals|
  {
    |position| == Rank(vals, i) && Listed(vals, i, position) && Indexed(vals, i, position)
  }

  /** A pool once the first `i` of `n` active pools have been paid. */
  ghost function Paid(vals: seq<P.Pool>, j: nat, amount: int, i: int, n: nat): P.Pool
    requires j < |vals| && 0 < n
  {
    var k := Rank(vals, j);
    if 0.0 < vals[j].shares && k < i
    then vals[j].(balance := vals[j].balance + P.Distributed(amount, k + 1, n) - P.Distributed(amount, k, n))
    else vals[j]
  }

  lemma SharesStay(vals: seq<P.Pool>)
    requires ValidPools(vals)
    ensures forall j | 0 <= j < |vals| :: 0.0 <= vals[j].shares
  {
  }

  lemma {:induction false} SplitAt(vals: seq<P.Pool>, j: nat, amount: int, n: nat)
    requires j < |vals| && 0 < n
    ensures P.Split(vals, amount, n)[j] ==
            if 0.0 < vals[j].shares then Paid(vals, j, amount, Rank(vals, j) + 1, n) else vals[j]
  {
    var init := vals[..|vals| - 1];
    if j < |vals| - 1 {
      SplitAt(init, j, amount, n);
      assert init[..j] == vals[..j];
    }
  }

  lemma NoneActive(vals: seq<P.Pool>)
    ensures IsActive(vals, 0, [])
  {
  }

  lemma OneMoreListed(vals: seq<P.Pool>, i: nat, position: seq<int>)
    requires i < |vals| && Listed(vals, i, position) && |position| == Rank(vals, i)
    ensures Listed(vals, i + 1, position)
    ensures 0.0 < vals[i].shares ==> Listed(vals, i + 1, position + [i])
  {
    hide Rank;
  }

  lemma OneMoreIndexed(vals: seq<P.Pool>, i: nat, position: seq<int>)
    requires i < |vals| && Indexed(vals, i, position) && |position| == Rank(vals, i)
    ensures 0.0 < vals[i].shares ==> Indexed(vals, i + 1, position + [i])
    ensures !(0.0 < vals[i].shares) ==> Indexed(vals, i + 1, position)
  {
    hide Rank;
  }

  lemma OneMore(vals: seq<P.Pool>, i: nat, position: seq<int>)
    requires i < |vals| && IsActive(vals, i, position) && 0.0 <= vals[i].shares
    ensures IsActive(vals, i + 1, if vals[i].shares != 0.0 then position + [i] else position)
  {
    RankNext(vals, i);
    OneMoreListed(vals, i, position);
    OneMoreIndexed(vals, i, position);
    hide Rank, Listed, Indexed;
  }

  lemma NonePaid(vals: seq<P.Pool>, amount: int, n: nat)
    requires 0 < n
    ensures forall j | 0 <= j < |vals| :: Paid(vals, j, amount, 0, n) == vals[j]
  {
    forall j | 0 <= j < |vals| ensures Paid(vals, j, amount, 0, n) == vals[j] {
      ActiveBounds(vals[..j]);
    }
  }

  /** Paying the i-th active pool changes that pool only. */
  lemma PaidStep(vals: seq<P.Pool>, position: seq<int>, amount: int, i: nat, n: nat)
    requires IsActive(vals, |vals|, position) && i < |position| && 0 < n
    ensures 0 <= position[i] < |vals|
    ensures forall j | 0 <= j < |vals| :: Paid(vals, j, amount, i + 1, n) ==
              if j == position[i]
              then Paid(vals, j, amount, i, n).(balance := Paid(vals, j, amount, i, n).balance
                                                           + P.Distributed(amount, i + 1, n) - P.Distributed(amount, i, n))
              else Paid(vals, j, amount, i, n)
  {
    hide P.Distributed;
  }

  lemma NextDistributed(amount: int, i: nat, n: nat)
    requires 0 < n
    ensures amount * (i + 1) / n == P.Distributed(amount, i + 1, n)
  {
  }

  lemma EveryonePaid(vals: seq<P.Pool>, position: seq<int>, j: nat, amount: int, n: nat)
    requires IsActive(vals, |vals|, position) && j < |vals| && n == |position| && 0 < n
    ensures Paid(vals, j, amount, n, n) ==
            if 0.0 < vals[j].shares then Paid(vals, j, amount, Rank(vals, j) + 1, n) else vals[j]
  {
    hide P.Distributed;
  }

  lemma ActiveCount(vals: seq<P.Pool>, position: seq<int>)
    requires IsActive(vals, |vals|, position)
    ensures |position| == P.Active(vals)
  {
    assert vals[..|vals|] == vals;
  }

  lemma NotActive(s: P.State, amount: int)
    ensures P.Active(s.pools) <= 0 ==> P.Channel(s, amount, false) == s
  {
  }

  lemma OnlyOneChanged(before: seq<P.Pool>, after: seq<P.Pool>, i: nat)
    requires |after| == |before| && i < |before|
    requires forall j | 0 <= j < |before| && j != i :: after[j] == before[j]
    ensures after == before[i := after[i]]
  {
  }
}
