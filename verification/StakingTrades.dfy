/** What each action on stake moves, exactly: tokens, shares, and the time of the next claim. */
module StakingTrades {
  import opened Tables
  import opened Totals
  import opened Resources
  import opened StakingPools
  import opened StakingInvariants
  import Bancor
  import Transitions

  // ----- one pool -----

  /** Shares are worth their part of the pool's tokens, rounded down. */
  lemma WorthExact(p: Pool, shares: real)
    requires ValidPool(p) && 0.0 <= shares <= p.shares && 0.0 < p.shares
    ensures Worth(p, shares) as real * p.shares <= shares * p.balance as real < (Worth(p, shares) as real + 1.0) * p.shares
  {
    WorthBounds(p, shares);
    if shares == p.shares {
      AllShares(p.balance, p.shares);
    } else if shares == 0.0 {
      NoShares(p.balance as real, p.shares);
    } else {
      FloorShare(shares, p.balance as real, p.shares);
      assert Worth(p, shares) == Share(shares, p.balance as real, p.shares).Floor;
    }
  }

  lemma AllShares(balance: int, shares: real)
    requires 0.0 < shares
    ensures balance as real * shares <= shares * balance as real < (balance as real + 1.0) * shares
  {
    RealBelow(balance as real, balance as real + 1.0, shares);
  }

  lemma NoShares(balance: real, shares: real)
    requires 0.0 < shares
    ensures 0 as real * shares <= 0.0 * balance < (0 as real + 1.0) * shares
  {
  }

  lemma FloorShare(x: real, b: real, s: real)
    requires 0.0 < x < s && 0.0 < b
    ensures Share(x, b, s).Floor as real * s <= x * b < (Share(x, b, s).Floor as real + 1.0) * s
  {
    hide Share;
    ShareBounds(x, b, s);
    FloorTimes(Share(x, b, s), s, x * b);
  }

  lemma FloorTimes(exact: real, s: real, product: real)
    requires 0.0 < s && exact * s == product
    ensures exact.Floor as real * s <= product < (exact.Floor as real + 1.0) * s
  {
    Bracketed(exact.Floor as real, exact, exact.Floor as real + 1.0, s);
  }

  lemma Bracketed(f: real, x: real, g: real, s: real)
    requires 0.0 < s && f <= x < g
    ensures f * s <= x * s < g * s
  {
    RealBelow(f, x, s);
    RealBelow(x, g, s);
  }

  /** The claimable part is claim_period / duration of the stake, rounded down. */
  lemma PortionExact(balance: int, p: Pool)
    requires ValidPool(p)
    ensures Portion(balance, p) * p.duration <= balance * p.claimPeriod < (Portion(balance, p) + 1) * p.duration
  {
    Bancor.DivBounds(balance * p.claimPeriod, p.duration);
  }

  /** Buying into an empty pool yields a share per token, and otherwise shares at the pool's value. */
  ghost predicate FairShares(p: Pool, amount: int, shares: real) {
    if p.shares == 0.0 then shares == amount as real else shares * p.balance as real == amount as real * p.shares
  }

  lemma BuysFairly(p: Pool, amount: int)
    requires ValidPool(p) && 0 < amount
    ensures FairShares(p, amount, SharesBought(p, amount))
  {
  }

  /** A withdrawal takes all shares and pays what they are worth, or takes exactly the shares of what it pays. */
  lemma TakesFairly(p: Pool, owned: real, requested: int, claiming: bool)
    requires ValidPool(p) && 0.0 <= owned <= p.shares && 0 < requested && Withdraw(p, owned, requested, claiming).Some?
    ensures var w, worth := Withdraw(p, owned, requested, claiming).value, Worth(p, owned);
            if !claiming && worth <= requested then w.owned == 0.0 && w.sold == worth
            else && FairShares(p, w.sold, owned - w.owned) && 0 < w.sold
                 && w.sold == Min(if claiming then Portion(worth, p) else worth, requested)
  {
    hide Worth, SharesFor, Portion, ValidPool, Sell, FairShares;
    WithdrawMeaning(p, owned, requested, claiming);
    WorthBounds(p, owned);
    var balance := Worth(p, owned);
    PortionBounds(balance, p);
    if claiming || requested < balance {
      var amount := Min(if claiming then Portion(balance, p) else balance, requested);
      SharesForExact(p, owned, amount);
      FairIfExact(p, amount, SharesFor(p, amount));
    }
  }

  lemma FairIfExact(p: Pool, amount: int, shares: real)
    requires 0.0 < shares <= p.shares && shares * p.balance as real == amount as real * p.shares
    ensures FairShares(p, amount, shares)
  {
  }

  // ----- the claim timer -----

  /** `result` is the average of `next` and `latest`, weighted by the tokens that were there and those that came, rounded down:
      the new tokens' part of the way from `next` to `latest`. */
  ghost predicate DelayedTo(next: int, balance: int, latest: int, amount: int, result: int) {
    (result - next) * (balance + amount) <= (latest - next) * amount < (result - next + 1) * (balance + amount)
  }

  lemma BlendExact(next: int, balance: int, latest: int, amount: int)
    requires 0 <= balance && 0 < amount
    ensures DelayedTo(next, balance, latest, amount, Blend(next, balance, latest, amount))
  {
    var d, n, r := balance + amount, next * balance + latest * amount, Blend(next, balance, latest, amount);
    Bancor.DivBounds(n, d);
    assert (latest - next) * amount == n - next * d;
    assert (r - next) * d == r * d - next * d;
    assert (r - next + 1) * d == r * d - next * d + d;
  }

  /** What one deposit of `amount` does to a stake: fair shares, and a delay in proportion to the new tokens. */
  ghost predicate Deposited(k: Stake, amount: int, now: int, r: Stake) {
    && r.pool == k.pool.(balance := k.pool.balance + amount, shares := k.pool.shares + r.owned - k.owned)
    && FairShares(k.pool, amount, r.owned - k.owned)
    && DelayedTo(Max(k.nextClaim, now), Worth(k.pool, k.owned), now + 2 * k.pool.claimPeriod, amount, r.nextClaim)
  }

  lemma DepositExact(k: Stake, amount: int, now: int)
    requires ValidPool(k.pool) && 0.0 <= k.owned <= k.pool.shares && 0 < amount
    ensures Deposit(k, amount, now).Some? && Deposited(k, amount, now, Deposit(k, amount, now).value)
  {
    BuyValid(k.pool, amount);
    BuysFairly(k.pool, amount);
    WorthBounds(k.pool, k.owned);
    BlendExact(Max(k.nextClaim, now), Worth(k.pool, k.owned), now + k.pool.claimPeriod * 2, amount);
    hide Worth, FairShares, SharesBought, DelayedTo, Blend;
  }

  // ----- actions -----

  /** Only one owner's entries for one pool, and that pool, differ. */
  ghost predicate OnlyStake(s: State, s': State, owner: Name, i: nat, k: Stake)
    requires Shaped(s) && i < |s.pools|
  {
    && s'.pools == s.pools[i := k.pool]
    && Shaped(s') && StakeOf(s', owner, i) == k
    && (forall j: nat | j < |s.pools| && j != i :: StakeOf(s', owner, j) == StakeOf(s, owner, j))
    && (forall n | n in s.voters && n != owner :: n in s'.voters && s'.voters[n] == s.voters[n])
    && s'.voters.Keys == s.voters.Keys + {owner}
  }

  lemma PutIsOnlyStake(s: State, owner: Name, i: nat, k: Stake, tokens: int)
    requires Shaped(s) && i < |s.pools|
    ensures OnlyStake(s, PutStake(s, owner, i, k).(tokens := tokens), owner, i, k)
  {
    var s' := PutStake(s, owner, i, k);
    forall j: nat | j < |s.pools| && j != i ensures StakeOf(s', owner, j) == StakeOf(s, owner, j) {
    }
  }

  /** Staking takes the tokens, and deposits them for the owner. */
  lemma StakeExact(s: State, owner: Name, i: nat, amount: int)
    requires Inv(s) && Shaped(s) && i < |s.pools| && 0 < amount
    ensures var r := StakeToPool(s, owner, i, amount);
            && r.Some? && Shaped(r.value) && |r.value.pools| == |s.pools|
            && var k := StakeOf(r.value, owner, i);
               && Deposited(StakeOf(s, owner, i), amount, s.slot, k) && OnlyStake(s, r.value, owner, i, k)
               && r.value.tokens == s.tokens + amount
  {
    hide Deposited, Deposit, OnlyStake;
    var k := StakeOf(s, owner, i);
    StakeValid(s, owner, i);
    DepositExact(k, amount, s.slot);
    PutIsOnlyStake(s, owner, i, Deposit(k, amount, s.slot).value, s.tokens + amount);
    OnlyStakeIs(s, StakeToPool(s, owner, i, amount).value, owner, i, Deposit(k, amount, s.slot).value);
    hide Inv;
  }

  lemma OnlyStakeIs(s: State, s': State, owner: Name, i: nat, k: Stake)
    requires Shaped(s) && i < |s.pools| && OnlyStake(s, s', owner, i, k)
    ensures Shaped(s') && |s'.pools| == |s.pools| && StakeOf(s', owner, i) == k
  {
  }

  /** A claim first lets the pools have the name bids that wait; then it pays the claimable part or what is asked for, if that
      is less, for a fair number of shares, and the next claim is claim_period seconds away. */
  lemma ClaimExact(s: State, owner: Name, i: nat, requested: int, votes: bool)
    requires Inv(s) && Shaped(s) && ClaimStake(s, owner, i, requested, votes).Some?
    ensures i < |s.pools|
    ensures var s1, s' := DistributeNamebids(s), ClaimStake(s, owner, i, requested, votes).value;
            && Shaped(s') && |s'.pools| == |s.pools| == |s1.pools|
            && var k, k' := StakeOf(s1, owner, i), StakeOf(s', owner, i);
               var paid := s1.tokens - s'.tokens;
               && paid == Min(Portion(Worth(k.pool, k.owned), k.pool), requested) && 0 < paid
               && FairShares(k.pool, paid, k.owned - k'.owned)
               && k'.pool == k.pool.(balance := k.pool.balance - paid, shares := k.pool.shares - (k.owned - k'.owned))
               && k'.nextClaim == s.slot + 2 * k.pool.claimPeriod
               && OnlyStake(s1, s', owner, i, k')
  {
    hide ValidPools, ValidVoters, SharesAreOwned, KeepsValue, Withdraw, DistributeNamebids, Worth, Portion, TotalBalance, FairShares,
         OnlyStake;
    NamebidsKeep(s);
    var s1 := DistributeNamebids(s);
    var k := StakeOf(s1, owner, i);
    StakeValid(s1, owner, i);
    WithdrawMeaning(k.pool, k.owned, requested, true);
    TakesFairly(k.pool, k.owned, requested, true);
    var w := Withdraw(k.pool, k.owned, requested, true).value;
    var k' := Stake(w.pool, w.owned, s.slot + k.pool.claimPeriod * 2);
    PutIsOnlyStake(s1, owner, i, k', s1.tokens - w.sold);
    OnlyStakeIs(s1, ClaimStake(s, owner, i, requested, votes).value, owner, i, k');
  }

  /** Waiting name bids go to the pools as soon as one of them has shares. */
  lemma NamebidsGo(s: State)
    requires Inv(s)
    ensures var s1, go := DistributeNamebids(s), 0 < s.namebids && 0 < Active(s.pools);
            && s1.tokens == s.tokens + (if go then s.namebids else 0)
            && s1.namebids == (if go then 0 else s.namebids)
            && (!go ==> s1 == s)
  {
    hide ValidPools, ValidVoters, SharesAreOwned, Active, Split;
    if 0 < s.namebids {
      ChannelKeeps(s, s.namebids, false);
    }
  }

  /** Stake leaves an owner's entry without touching the timer. */
  lemma TakeExact(s: State, owner: Name, i: nat, requested: int)
    requires Inv(s) && Shaped(s) && i < |s.pools| && 0 < requested && TakeStake(s, owner, i, requested).Some?
    ensures var (s1, taken) := TakeStake(s, owner, i, requested).value;
            && Shaped(s1) && |s1.pools| == |s.pools| && Inv(s1)
            && var k, k1 := StakeOf(s, owner, i), StakeOf(s1, owner, i);
               && taken == Min(Worth(k.pool, k.owned), requested) && 0 < taken
               && (if Worth(k.pool, k.owned) <= requested then k1.owned == 0.0 else FairShares(k.pool, taken, k.owned - k1.owned))
               && k1.pool == k.pool.(balance := k.pool.balance - taken, shares := k.pool.shares - (k.owned - k1.owned))
               && k1.nextClaim == k.nextClaim
               && OnlyStake(s, s1, owner, i, k1) && s1.tokens == s.tokens && s1.slot == s.slot
  {
    hide ValidPools, ValidVoters, SharesAreOwned, KeepsValue, Withdraw, Worth, FairShares, TotalBalance, OnlyStake;
    TakeKeeps(s, owner, i, requested, owner);
    var k := StakeOf(s, owner, i);
    StakeValid(s, owner, i);
    WithdrawMeaning(k.pool, k.owned, requested, false);
    TakesFairly(k.pool, k.owned, requested, false);
    var w := Withdraw(k.pool, k.owned, requested, false).value;
    var k1 := Stake(w.pool, w.owned, k.nextClaim);
    PutIsOnlyStake(s, owner, i, k1, s.tokens);
    OnlyStakeIs(s, TakeStake(s, owner, i, requested).value.0, owner, i, k1);
  }

  /** A transfer takes stake out, without moving the sender's timer, and deposits just these tokens for the receiver. */
  lemma TransferExact(s: State, from: Name, to: Name, i: nat, requested: int)
    requires Inv(s) && Shaped(s) && TransferStake(s, from, to, i, requested).Some?
    ensures i < |s.pools| && TakeStake(s, from, i, requested).Some?
    ensures var s', (s1, taken) := TransferStake(s, from, to, i, requested).value, TakeStake(s, from, i, requested).value;
            && Shaped(s') && Shaped(s1) && |s'.pools| == |s1.pools| == |s.pools|
            && taken == Min(Worth(s.pools[i], StakeOf(s, from, i).owned), requested)
            && Deposited(StakeOf(s1, to, i), taken, s.slot, StakeOf(s', to, i))
            && OnlyStake(s1, s', to, i, StakeOf(s', to, i))
            && OnlyStake(s, s1, from, i, StakeOf(s1, from, i))
            && StakeOf(s1, from, i).nextClaim == StakeOf(s, from, i).nextClaim
            && s'.tokens == s.tokens
  {
    hide ValidPools, ValidVoters, SharesAreOwned, KeepsValue, TakeStake, Worth, TotalBalance, OnlyStake, Deposited, Deposit;
    TakeExact(s, from, i, requested);
    var (s1, taken) := TakeStake(s, from, i, requested).value;
    var k := StakeOf(s1, to, i);
    StakeValid(s1, to, i);
    DepositExact(k, taken, s.slot);
    PutIsOnlyStake(s1, to, i, Deposit(k, taken, s.slot).value, s.tokens);
    OnlyStakeIs(s1, TransferStake(s, from, to, i, requested).value, to, i, Deposit(k, taken, s.slot).value);
  }

  /** An upgrade takes stake out of the shorter pool, without moving its timer, and deposits just these tokens in the longer
      one. */
  lemma UpgradeExact(s: State, owner: Name, i: nat, j: nat, requested: int)
    requires Inv(s) && Shaped(s) && UpgradeStake(s, owner, i, j, requested).Some?
    ensures i < j < |s.pools| && TakeStake(s, owner, i, requested).Some?
    ensures var s', (s1, taken) := UpgradeStake(s, owner, i, j, requested).value, TakeStake(s, owner, i, requested).value;
            && Shaped(s') && Shaped(s1) && |s'.pools| == |s1.pools| == |s.pools|
            && taken == Min(Worth(s.pools[i], StakeOf(s, owner, i).owned), requested)
            && Deposited(StakeOf(s1, owner, j), taken, s.slot, StakeOf(s', owner, j))
            && OnlyStake(s1, s', owner, j, StakeOf(s', owner, j))
            && OnlyStake(s, s1, owner, i, StakeOf(s1, owner, i))
            && StakeOf(s1, owner, i).nextClaim == StakeOf(s, owner, i).nextClaim
            && s'.tokens == s.tokens
  {
    hide ValidPools, ValidVoters, SharesAreOwned, KeepsValue, TakeStake, Worth, TotalBalance, OnlyStake, Deposited, Deposit;
    TakeExact(s, owner, i, requested);
    var (s1, taken) := TakeStake(s, owner, i, requested).value;
    var k := StakeOf(s1, owner, j);
    StakeValid(s1, owner, j);
    DepositExact(k, taken, s.slot);
    PutIsOnlyStake(s1, owner, j, Deposit(k, taken, s.slot).value, s.tokens);
    OnlyStakeIs(s1, UpgradeStake(s, owner, i, j, requested).value, owner, j, Deposit(k, taken, s.slot).value);
  }

  // ----- fees -----

  /** Of a winning bid the pools are credited the elapsed part of the transition, if any of them has shares. */
  lemma NamebidExact(s: State, bid: int)
    requires 0 < bid && s.begin <= s.end
    ensures var r := ChannelNamebid(s, bid);
            && r.Some? && r.value == s.(namebids := r.value.namebids)
            && var part := r.value.namebids - s.namebids;
               if Active(s.pools) <= 0 || (s.slot <= s.begin && s.slot < s.end) then part == 0
               else if s.end <= s.slot then part == bid
               else part * (s.end - s.begin) <= bid * (s.slot - s.begin) < (part + 1) * (s.end - s.begin)
  {
    Transitions.PartExact(s.begin, s.end, s.slot, bid);
    hide Active;
  }

  /** Settings that are given take effect, others stay; the transition may not end before it begins. */
  lemma SettingsExact(s: State, begin: int, end: int, minCreate: int)
    ensures Configure(s, None, None, None).Some? <==> s.begin <= s.end
    ensures Configure(s, None, None, None).Some? ==> Configure(s, None, None, None).value == s
    ensures Configure(s, Some(begin), Some(end), Some(minCreate)).Some? <==> begin <= end && 0 <= minCreate
    ensures begin <= end && 0 <= minCreate ==>
              Configure(s, Some(begin), Some(end), Some(minCreate)).value == s.(begin := begin, end := end, minCreate := minCreate)
  {
  }

  /** The split is even: the parts of any two active pools differ by at most one. */
  lemma {:induction false} SplitIsEven(pools: seq<Pool>, amount: int, n: int, i: nat)
    requires 0 < n && i < |pools|
    ensures var gain := Split(pools, amount, n)[i].balance - pools[i].balance;
            if 0.0 < pools[i].shares then gain * n <= amount + n - 1 && amount - n + 1 <= gain * n else gain == 0
  {
    var init, last := pools[..|pools| - 1], |pools| - 1;
    SplitLast(pools, amount, n);
    if i < last {
      SplitIsEven(init, amount, n, i);
      assert Split(pools, amount, n)[i] == Split(init, amount, n)[i];
    } else {
      StepIsEven(amount, Active(init), n);
    }
    hide Distributed, Split;
  }

  lemma StepIsEven(amount: int, k: int, n: int)
    requires 0 < n
    ensures var gain := Distributed(amount, k + 1, n) - Distributed(amount, k, n);
            gain * n <= amount + n - 1 && amount - n + 1 <= gain * n
  {
    Bancor.DivBounds(amount * k, n);
    Bancor.DivBounds(amount * (k + 1), n);
    var u, v := Distributed(amount, k, n), Distributed(amount, k + 1, n);
    assert amount * (k + 1) == amount * k + amount;
    assert (v - u) * n == v * n - u * n;
  }

  /** Voter pay is the same for every pool that has shares. */
  lemma {:induction false} PayIsEven(pools: seq<Pool>, amount: int, i: nat)
    requires i < |pools|
    ensures PayEach(pools, amount)[i] == pools[i].(balance := pools[i].balance + if 0.0 < pools[i].shares then amount else 0)
  {
    var init := pools[..|pools| - 1];
    if i < |pools| - 1 {
      PayIsEven(init, amount, i);
      assert PayEach(pools, amount)[i] == PayEach(init, amount)[i];
    }
  }

  /** Of a fee the pools get the part of the transition, or all of it, if any of them has shares. */
  lemma ChannelExact(s: State, amount: int, partial: bool)
    requires Inv(s) && 0 < amount && s.begin <= s.end
    ensures var toPools := Channel(s, amount, partial).tokens - s.tokens;
            if Active(s.pools) <= 0 then toPools == 0
            else if !partial || s.end <= s.slot then toPools == amount
            else if s.slot <= s.begin then toPools == 0
            else toPools * (s.end - s.begin) <= amount * (s.slot - s.begin) < (toPools + 1) * (s.end - s.begin)
  {
    Transitions.PartExact(s.begin, s.end, s.slot, amount);
    hide Split, Active;
  }
}
