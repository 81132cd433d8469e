/** Staking pools are solvent, never dilute their owners, and limit how fast stake can be claimed. */
module StakingInvariants {
  import opened Tables
  import opened Totals
  import opened Resources
  import opened StakingPools
  import Bancor
  import Transitions

  ghost function OwnedIn(i: nat): (Name, Voter) -> real {
    (n: Name, v: Voter) => if i < |v.owned| then v.owned[i] else 0.0
  }

  function TotalBalance(pools: seq<Pool>): int {
    if pools == [] then 0 else TotalBalance(pools[..|pools| - 1]) + pools[|pools| - 1].balance
  }

  ghost predicate ValidPools(pools: seq<Pool>) {
    forall i | 0 <= i < |pools| :: ValidPool(pools[i])
  }

  /** No one's next claim lies further ahead than two claim periods' worth of slots. */
  ghost predicate ValidVoter(v: Voter, pools: seq<Pool>, slot: int) {
    && |v.owned| == |pools| && |v.nextClaim| == |pools|
    && forall i | 0 <= i < |pools| :: 0.0 <= v.owned[i] && v.nextClaim[i] <= slot + 2 * pools[i].claimPeriod
  }

  ghost predicate ValidVoters(s: State) {
    forall n | n in s.voters :: ValidVoter(s.voters[n], s.pools, s.slot)
  }

  /** A pool's shares are exactly those its owners hold. */
  ghost predicate SharesAreOwned(s: State) {
    forall i: nat | i < |s.pools| :: s.pools[i].shares == Total(s.voters, OwnedIn(i))
  }

  ghost predicate Inv(s: State) {
    && 0 <= s.slot && ValidPools(s.pools) && ValidVoters(s) && SharesAreOwned(s) && 0 <= s.namebids
  }

  // ----- one pool -----

  /** With shares s out of S, the exact value of the shares. */
  lemma WorthBounds(p: Pool, shares: real)
    requires ValidPool(p) && 0.0 <= shares <= p.shares
    ensures 0 <= Worth(p, shares) <= p.balance
    ensures Worth(p, shares) as real * p.shares <= shares * p.balance as real
    ensures Worth(p, shares) == p.balance <==> shares == p.shares
  {
    if 0.0 < shares < p.shares {
      ShareBounds(shares, p.balance as real, p.shares);
      var exact := Share(shares, p.balance as real, p.shares);
      RealBelow(Worth(p, shares) as real, exact, p.shares);
    }
  }

  lemma ShareBounds(x: real, b: real, s: real)
    requires 0.0 < x < s && 0.0 < b
    ensures 0.0 <= Share(x, b, s) < b && Share(x, b, s) * s == x * b
  {
    var exact := Share(x, b, s);
    assert exact * s == x * b;
    RealBelow(x, s, b);
    RealBelow(0.0, x, b);
    assert s * b == b * s;
    RealBelow(exact, b, s);
    RealBelow(0.0, exact, s);
  }

  lemma RealBelow(x: real, y: real, c: real)
    requires 0.0 < c
    ensures x * c < y * c <==> x < y
    ensures x * c <= y * c <==> x <= y
  {
  }

  /** Buying and selling keep a pool with shares exactly as long as it has tokens: there is no division by zero. */
  lemma BuyValid(p: Pool, amount: int)
    requires ValidPool(p) && 0 < amount
    ensures 0.0 < SharesBought(p, amount) && ValidPool(Buy(p, amount))
    ensures Buy(p, amount).shares == p.shares + SharesBought(p, amount)
    ensures p.balance as real * Buy(p, amount).shares == Buy(p, amount).balance as real * p.shares || p.shares == 0.0
  {
    if p.shares != 0.0 {
      var a, b, x := amount as real, p.balance as real, SharesBought(p, amount);
      assert x * b == a * p.shares;
      assert 0.0 < a * p.shares;
      RealBelow(0.0, x, b);
      assert b * (p.shares + x) == (b + a) * p.shares;
    }
  }

  lemma SellValid(p: Pool, shares: real)
    requires ValidPool(p) && 0.0 <= shares <= p.shares
    ensures ValidPool(Sell(p, shares)) && 0 <= Worth(p, shares)
    ensures p.balance as real * Sell(p, shares).shares <= Sell(p, shares).balance as real * p.shares
  {
    WorthBounds(p, shares);
    var b, w := p.balance as real, Worth(p, shares) as real;
    assert b * (p.shares - shares) == b * p.shares - shares * b;
    assert (b - w) * p.shares == b * p.shares - w * p.shares;
  }

  /** Each share is worth at least as much as before, as long as any are left. */
  ghost predicate KeepsValue(p: Pool, p': Pool) {
    0.0 < p.shares && 0.0 < p'.shares ==> p.balance as real * p'.shares <= p'.balance as real * p.shares
  }

  lemma ValueTransitive(a: Pool, b: Pool, c: Pool)
    requires ValidPool(a) && ValidPool(b) && ValidPool(c) && 0.0 < b.shares
    requires KeepsValue(a, b) && KeepsValue(b, c)
    ensures KeepsValue(a, c)
  {
    if 0.0 < a.shares && 0.0 < c.shares {
      var x, y, z := a.balance as real, b.balance as real, c.balance as real;
      Cross(x, a.shares, y, b.shares, z, c.shares);
    }
  }

  lemma Cross(x: real, s: real, y: real, t: real, z: real, u: real)
    requires 0.0 < s && 0.0 < t && 0.0 < u && x * t <= y * s && y * u <= z * t
    ensures x * u <= z * s
  {
    RealBelow(x * t, y * s, u);
    RealBelow(y * u, z * t, s);
    assert (x * u) * t == (x * t) * u;
    assert (z * s) * t == (z * t) * s;
    assert (y * s) * u == (y * u) * s;
    RealBelow(x * u, z * s, t);
  }

  lemma WorthOf(p: Pool, x: real, amount: int)
    requires 0.0 < x < p.shares && x * p.balance as real == amount as real * p.shares
    ensures Worth(p, x) == amount
  {
    ExactShare(x, p.balance as real, amount as real, p.shares);
  }

  lemma ExactShare(x: real, b: real, a: real, s: real)
    requires s != 0.0 && x * b == a * s
    ensures Share(x, b, s) == a
  {
    assert Share(x, b, s) * s == a * s;
  }

  lemma Ratio(a: real, s: real, b: real)
    requires b != 0.0
    ensures (a * s / b) * b == a * s
  {
  }

  /** Tokens are worth exactly the shares that yield them. */
  lemma SharesForExact(p: Pool, owned: real, amount: int)
    requires ValidPool(p) && 0.0 <= owned <= p.shares && 0 < amount <= Worth(p, owned)
    ensures 0.0 < SharesFor(p, amount) <= owned && Worth(p, SharesFor(p, amount)) == amount
    ensures SharesFor(p, amount) * p.balance as real == amount as real * p.shares
  {
    hide Worth;
    WorthBounds(p, owned);
    var b, a, x, s := p.balance as real, amount as real, SharesFor(p, amount), p.shares;
    var w := Worth(p, owned) as real;
    if amount == p.balance {
      WorthBounds(p, s);
      Bancor.Commutes(amount, p.balance);
    } else {
      Ratio(a, s, b);
      Products(a, w, b, s, x, owned);
      WorthOf(p, x, amount);
    }
  }

  lemma Products(a: real, w: real, b: real, s: real, x: real, owned: real)
    requires 0.0 < a <= w <= b && a < b && 0.0 < s && x * b == a * s && w * s <= owned * b
    ensures 0.0 < x < s && x <= owned
  {
    RealBelow(a, w, s);
    RealBelow(x, owned, b);
    RealBelow(0.0, a, s);
    RealBelow(0.0, x, b);
    RealBelow(a, b, s);
    RealBelow(x, s, b);
  }

  lemma PortionBounds(balance: int, p: Pool)
    requires ValidPool(p) && 0 <= balance
    ensures 0 <= Portion(balance, p) <= balance
    ensures Portion(balance, p) * p.duration <= balance * p.claimPeriod
    ensures 0 < balance ==> Portion(balance, p) < balance
  {
    var n := balance * p.claimPeriod;
    assert 0 <= n;
    Bancor.DivBounds(n, p.duration);
    Bancor.Scaled(p.claimPeriod, p.duration, balance);
    Bancor.Commutes(balance, p.claimPeriod);
    Bancor.Commutes(balance, p.duration);
    Bancor.QuotientAtMost(n, p.duration, balance);
    if 0 < balance {
      Bancor.Scaled(p.claimPeriod + 1, p.duration, balance);
      assert (p.claimPeriod + 1) * balance == n + balance;
      Bancor.QuotientBelow(n, p.duration, balance);
    }
  }

  lemma ShareFacts(p: Pool, owned: real)
    requires ValidPool(p)
    ensures 0.0 < p.shares <==> 0 < p.balance
    ensures 0.0 <= p.shares && 0 <= p.balance
  {
  }

  /** A withdrawal pays exactly the tokens asked for or all there are, and takes exactly the shares it pays for. */
  lemma WithdrawMeaning(p: Pool, owned: real, requested: int, claiming: bool)
    requires ValidPool(p) && 0.0 <= owned <= p.shares && 0 < requested
    ensures var available := if claiming then Portion(Worth(p, owned), p) else Worth(p, owned);
            var r := Withdraw(p, owned, requested, claiming);
            && (r.None? <==> claiming && available == 0)
            && (r.Some? ==>
                 && r.value.sold == Min(available, requested)
                 && 0.0 <= r.value.owned <= owned && ValidPool(r.value.pool)
                 && r.value.pool.shares == p.shares - (owned - r.value.owned)
                 && r.value.pool == p.(balance := p.balance - r.value.sold, shares := r.value.pool.shares)
                 && KeepsValue(p, r.value.pool))
  {
    hide Worth, SharesFor, Portion, ValidPool;
    ShareFacts(p, owned);
    WorthBounds(p, owned);
    var balance := Worth(p, owned);
    PortionBounds(balance, p);
    if !claiming && balance <= requested {
      SellValid(p, owned);
    } else {
      var amount := Min(if claiming then Portion(balance, p) else balance, requested);
      if 0 < amount {
        SharesForExact(p, owned, amount);
        SellValid(p, SharesFor(p, amount));
      }
    }
  }

  /** A claim leaves at least the fraction 1 - claim_period / duration of the shares. */
  lemma ClaimLeaves(p: Pool, owned: real, requested: int)
    requires ValidPool(p) && 0.0 <= owned <= p.shares && 0 < requested && Withdraw(p, owned, requested, true).Some?
    ensures Withdraw(p, owned, requested, true).value.owned >= owned * KeepRate(p)
  {
    WithdrawMeaning(p, owned, requested, true);
    WorthBounds(p, owned);
    var balance := Worth(p, owned);
    PortionBounds(balance, p);
    var amount := Min(Portion(balance, p), requested);
    SharesForExact(p, owned, amount);
    ClaimedShares(p, owned, amount, SharesFor(p, amount));
  }

  function KeepRate(p: Pool): real
    requires p.duration != 0
  {
    1.0 - p.claimPeriod as real / p.duration as real
  }

  lemma ClaimedShares(p: Pool, owned: real, amount: int, x: real)
    requires ValidPool(p) && 0.0 < x <= owned <= p.shares && 0 < amount
    requires amount <= Portion(Worth(p, owned), p) && x * p.balance as real == amount as real * p.shares
    ensures owned - x >= owned * KeepRate(p)
  {
    hide Worth, Portion;
    WorthBounds(p, owned);
    var w := Worth(p, owned);
    PortionBounds(w, p);
    var b, a, c, d := p.balance as real, amount as real, p.claimPeriod as real, p.duration as real;
    Bancor.Scaled(amount, Portion(w, p), p.duration);
    assert (amount * p.duration) as real == a * d;
    assert (w * p.claimPeriod) as real == w as real * c;
    ClaimProducts(a, d, w as real, c, p.shares, x, b, owned);
    KeepArithmetic(owned, x, c, d);
  }

  lemma ClaimProducts(a: real, d: real, w: real, c: real, s: real, x: real, b: real, owned: real)
    requires 0.0 < s && 0.0 < b && 0.0 < c && a * d <= w * c && x * b == a * s && w * s <= owned * b
    ensures x * d <= owned * c
  {
    RealBelow(a * d, w * c, s);
    RealBelow(w * s, owned * b, c);
    assert (x * d) * b == (a * d) * s;
    assert (w * c) * s == (w * s) * c;
    assert (owned * c) * b == (owned * b) * c;
    RealBelow(x * d, owned * c, b);
  }

  lemma KeepArithmetic(owned: real, x: real, c: real, d: real)
    requires 0.0 < d && x * d <= owned * c
    ensures owned - x >= owned * (1.0 - c / d)
  {
    assert owned * (c / d) * d == owned * c;
    RealBelow(x, owned * (c / d), d);
  }

  // ----- claim timers -----

  /** The next claim moves forward, but never beyond the latest allowed. */
  lemma BlendBounds(next: int, balance: int, latest: int, amount: int)
    requires 0 <= balance && 0 < amount && next <= latest
    ensures next <= Blend(next, balance, latest, amount) <= latest
  {
    var d, n := balance + amount, next * balance + latest * amount;
    Bancor.Scaled(next, latest, amount);
    Bancor.Scaled(next, latest, balance);
    assert next * d == next * balance + next * amount;
    assert latest * d == latest * balance + latest * amount;
    FloorBetween(n, d, next, latest);
  }

  lemma FloorBetween(n: int, d: int, lo: int, hi: int)
    requires 0 < d && lo * d <= n <= hi * d
    ensures lo <= n / d <= hi
  {
    Bancor.DivBounds(n, d);
    Bancor.Scaled(hi + 1, n / d, d);
    Bancor.Scaled(n / d + 1, lo, d);
  }

  /** Depositing gives the owner exactly the new shares and delays the next claim. */
  lemma DepositMeaning(k: Stake, amount: int, now: int)
    requires ValidPool(k.pool) && 0.0 <= k.owned <= k.pool.shares && 0 < amount
    requires k.nextClaim <= now + 2 * k.pool.claimPeriod
    ensures var r := Deposit(k, amount, now);
            && r.Some? && ValidPool(r.value.pool) && KeepsValue(k.pool, r.value.pool)
            && r.value.pool == k.pool.(balance := k.pool.balance + amount, shares := r.value.pool.shares)
            && r.value.pool.shares - k.pool.shares == r.value.owned - k.owned && k.owned < r.value.owned
            && k.nextClaim <= r.value.nextClaim <= now + 2 * k.pool.claimPeriod
            && now <= r.value.nextClaim
  {
    BuyValid(k.pool, amount);
    WorthBounds(k.pool, k.owned);
    BlendBounds(Max(k.nextClaim, now), Worth(k.pool, k.owned), now + k.pool.claimPeriod * 2, amount);
  }

  // ----- tables -----

  lemma {:induction false} BalancePut(pools: seq<Pool>, i: nat, p: Pool)
    requires i < |pools|
    ensures TotalBalance(pools[i := p]) == TotalBalance(pools) - pools[i].balance + p.balance
  {
    var init := pools[..|pools| - 1];
    if i < |pools| - 1 {
      BalancePut(init, i, p);
      assert pools[i := p][..|pools| - 1] == init[i := p];
    } else {
      assert pools[i := p][..|pools| - 1] == init;
    }
  }

  lemma {:induction false} BalanceAtLeast(pools: seq<Pool>, i: nat)
    requires ValidPools(pools) && i < |pools|
    ensures pools[i].balance <= TotalBalance(pools)
  {
    BalanceNonNegative(pools[..|pools| - 1]);
    if i < |pools| - 1 {
      BalanceAtLeast(pools[..|pools| - 1], i);
    }
  }

  lemma {:induction false} BalanceNonNegative(pools: seq<Pool>)
    requires ValidPools(pools)
    ensures 0 <= TotalBalance(pools)
  {
    if pools != [] {
      BalanceNonNegative(pools[..|pools| - 1]);
    }
  }

  /** An owner's stake is part of the pool's shares. */
  lemma StakeValid(s: State, owner: Name, i: nat)
    requires Inv(s) && Shaped(s) && i < |s.pools|
    ensures var k := StakeOf(s, owner, i);
            && ValidPool(k.pool) && 0.0 <= k.owned <= k.pool.shares && k.nextClaim <= s.slot + 2 * k.pool.claimPeriod
            && k.pool == s.pools[i]
  {
    if owner in s.voters {
      TotalAtLeast<Name, Voter>(s.voters, owner, OwnedIn(i));
    }
  }

  /** Rewriting an owner's stake together with the pool keeps shares owned. */
  lemma PutStakeKeeps(s: State, owner: Name, i: nat, k: Stake)
    requires Inv(s) && Shaped(s) && i < |s.pools|
    requires ValidPool(k.pool) && 0.0 <= k.owned && k.nextClaim <= s.slot + 2 * k.pool.claimPeriod
    requires k.pool == s.pools[i].(balance := k.pool.balance, shares := k.pool.shares)
    requires k.pool.shares - s.pools[i].shares == k.owned - StakeOf(s, owner, i).owned
    ensures var s' := PutStake(s, owner, i, k);
            && Inv(s') && TotalBalance(s'.pools) == TotalBalance(s.pools) + k.pool.balance - s.pools[i].balance
            && s' == s.(pools := s.pools[i := k.pool], voters := s.voters[owner := s'.voters[owner]])
  {
    BalancePut(s.pools, i, k.pool);
    var s' := PutStake(s, owner, i, k);
    forall j: nat | j < |s.pools| ensures s'.pools[j].shares == Total(s'.voters, OwnedIn(j)) {
      TotalPut<Name, Voter>(s.voters, owner, s'.voters[owner], OwnedIn(j));
    }
  }

  // ----- fees -----

  /** Pools that only gained tokens, and only if they have shares. */
  ghost predicate OnlyGain(pools: seq<Pool>, pools': seq<Pool>) {
    && |pools'| == |pools|
    && forall i | 0 <= i < |pools| ::
         && pools'[i] == pools[i].(balance := pools'[i].balance)
         && pools[i].balance <= pools'[i].balance
         && (pools[i].shares == 0.0 ==> pools'[i] == pools[i])
  }

  lemma DistributedGrows(amount: int, k: int, n: int)
    requires 0 <= amount && 0 <= k && 0 < n
    ensures 0 <= Distributed(amount, k, n) <= Distributed(amount, k + 1, n)
  {
    assert 0 <= amount * k;
    assert amount * (k + 1) == amount * k + amount;
    Bancor.DivBounds(amount * k, n);
    Bancor.QuotientAtLeast(amount * (k + 1), n, amount * k / n);
  }

  lemma {:induction false} ActiveBounds(pools: seq<Pool>)
    ensures 0 <= Active(pools) <= |pools|
  {
    if pools != [] {
      ActiveBounds(pools[..|pools| - 1]);
    }
  }

  /** The split hands out exactly the amount: nothing is lost to rounding. */
  lemma {:induction false} SplitMeaning(pools: seq<Pool>, amount: int, n: int)
    requires ValidPools(pools) && 0 <= amount && 0 < n
    ensures OnlyGain(pools, Split(pools, amount, n))
    ensures TotalBalance(Split(pools, amount, n)) == TotalBalance(pools) + Distributed(amount, Active(pools), n)
  {
    hide Distributed, ValidPool, Split, Active, OnlyGain;
    if pools == [] {
      SplitNone(amount, n);
    } else {
      var init := pools[..|pools| - 1];
      ActiveBounds(init);
      SharesNotNegative(pools[|pools| - 1]);
      SplitMeaning(init, amount, n);
      DistributedGrows(amount, Active(init), n);
      SplitLast(pools, amount, n);
      GainLast(pools, Split(pools, amount, n));
    }
  }

  lemma SplitNone(amount: int, n: int)
    requires 0 < n
    ensures Split([], amount, n) == [] && OnlyGain([], []) && Distributed(amount, Active([]), n) == 0
  {
    assert amount * 0 == 0;
  }

  lemma SplitLast(pools: seq<Pool>, amount: int, n: int)
    requires pools != [] && 0 < n
    ensures var init, last, r := pools[..|pools| - 1], pools[|pools| - 1], Split(pools, amount, n);
            var share := Distributed(amount, Active(init) + 1, n) - Distributed(amount, Active(init), n);
            && |r| == |pools| && r[..|pools| - 1] == Split(init, amount, n)
            && Active(pools) == Active(init) + (if 0.0 < last.shares then 1 else 0)
            && r[|pools| - 1] == if 0.0 < last.shares then last.(balance := last.balance + share) else last
  {
    hide Distributed;
    var init := pools[..|pools| - 1];
    assert Split(pools, amount, n)[..|pools| - 1] == Split(init, amount, n);
  }

  lemma GainLast(pools: seq<Pool>, r: seq<Pool>)
    requires pools != [] && |r| == |pools| && OnlyGain(pools[..|pools| - 1], r[..|pools| - 1])
    requires var p, q := pools[|pools| - 1], r[|pools| - 1];
             q == p.(balance := q.balance) && p.balance <= q.balance && (p.shares == 0.0 ==> q == p)
    ensures OnlyGain(pools, r)
  {
    assert forall i | 0 <= i < |pools| - 1 :: pools[i] == pools[..|pools| - 1][i] && r[i] == r[..|pools| - 1][i];
  }

  lemma SharesNotNegative(p: Pool)
    requires ValidPool(p)
    ensures 0.0 <= p.shares
  {
  }

  lemma DistributedAll(amount: int, n: int)
    requires 0 < n
    ensures Distributed(amount, n, n) == amount
  {
    Bancor.QuotientAtLeast(amount * n, n, amount);
    Bancor.DivBounds(amount * n, n);
    Bancor.Scaled(amount + 1, amount * n / n, n);
  }

  lemma {:induction false} PayEachMeaning(pools: seq<Pool>, amount: int)
    requires ValidPools(pools) && 0 <= amount
    ensures OnlyGain(pools, PayEach(pools, amount))
    ensures TotalBalance(PayEach(pools, amount)) == TotalBalance(pools) + Active(pools) * amount
  {
    if pools != [] {
      var init := pools[..|pools| - 1];
      PayEachMeaning(init, amount);
      var r := PayEach(pools, amount);
      assert r[..|pools| - 1] == PayEach(init, amount);
      assert (Active(init) + 1) * amount == Active(init) * amount + amount;
    }
  }

  lemma GainKeeps(s: State, pools: seq<Pool>)
    requires Inv(s) && OnlyGain(s.pools, pools)
    ensures Inv(s.(pools := pools)) && forall i | 0 <= i < |pools| :: KeepsValue(s.pools[i], pools[i])
  {
    forall i | 0 <= i < |pools| ensures KeepsValue(s.pools[i], pools[i]) {
      var p := s.pools[i];
      if 0.0 < p.shares {
        RealBelow(p.balance as real, pools[i].balance as real, p.shares);
      }
    }
  }

  /** The part of a fee that goes to the pools. */
  lemma TransitionBounds(s: State, amount: int)
    requires 0 <= amount
    ensures 0 <= Transition(s, amount) <= amount
  {
    Transitions.PartGrows(s.begin, s.end, s.slot, s.slot, amount);
  }

  /** Channelling moves exactly the pools' part into the pools, as tokens and as balances. */
  lemma ChannelKeeps(s: State, amount: int, partial: bool)
    requires Inv(s) && 0 <= amount
    ensures var s' := Channel(s, amount, partial);
            && Inv(s') && s' == s.(pools := s'.pools, tokens := s'.tokens) && OnlyGain(s.pools, s'.pools)
            && s'.tokens - TotalBalance(s'.pools) == s.tokens - TotalBalance(s.pools)
            && (0 < Active(s.pools) && !partial ==> s'.tokens == s.tokens + amount)
            && forall i | 0 <= i < |s.pools| :: KeepsValue(s.pools[i], s'.pools[i])
  {
    TransitionBounds(s, amount);
    var n := Active(s.pools);
    if 0 < n {
      var toPools := if partial then Transition(s, amount) else amount;
      SplitMeaning(s.pools, toPools, n);
      DistributedAll(toPools, n);
      GainKeeps(s, Split(s.pools, toPools, n));
    }
    GainKeeps(s, s.pools);
  }

  lemma NamebidsKeep(s: State)
    requires Inv(s)
    ensures var s' := DistributeNamebids(s);
            && Inv(s') && s' == s.(pools := s'.pools, tokens := s'.tokens, namebids := s'.namebids) && OnlyGain(s.pools, s'.pools)
            && s'.tokens - TotalBalance(s'.pools) == s.tokens - TotalBalance(s.pools)
            && forall i | 0 <= i < |s.pools| :: KeepsValue(s.pools[i], s'.pools[i])
  {
    hide ValidPools, ValidVoters, SharesAreOwned, Channel, KeepsValue, OnlyGain;
    GainKeeps(s, s.pools);
    SameGain(s.pools);
    if 0 < s.namebids {
      ChannelKeeps(s, s.namebids, false);
      NamebidsIrrelevant(Channel(s, s.namebids, false), 0, s.slot);
    }
  }

  lemma SameGain(pools: seq<Pool>)
    ensures OnlyGain(pools, pools)
  {
  }

  lemma NamebidsIrrelevant(s: State, namebids: int, slot: int)
    requires Inv(s) && 0 <= namebids && s.slot <= slot
    ensures Inv(s.(namebids := namebids)) && Inv(s.(slot := slot))
  {
  }

  // ----- every action -----

  /** Actions that leave an owner's stake alone. */
  predicate Bystander(a: Action, n: Name) {
    match a
    case StakeCall(owner, _, _) => n != owner
    case ClaimCall(owner, _, _, _) => n != owner
    case TransferCall(owner, to, _, _) => n != owner && n != to
    case UpgradeCall(owner, _, _, _) => n != owner
    case _ => true
  }

  function OwnedOf(s: State, n: Name, i: nat): real {
    if n in s.voters && i < |s.voters[n].owned| then s.voters[n].owned[i] else 0.0
  }

  function NextOf(s: State, n: Name, i: nat): int {
    if n in s.voters && i < |s.voters[n].nextClaim| then s.voters[n].nextClaim[i] else 0
  }

  /** What every action keeps, seen from the pools: valid tables, no token lost, the same pools. */
  ghost predicate Conserves(s: State, s': State, gift: int) {
    && Inv(s') && Shaped(s') && s.slot <= s'.slot
    && s'.tokens - TotalBalance(s'.pools) == s.tokens - TotalBalance(s.pools) + gift
    && |s'.pools| == |s.pools|
    && (forall i | 0 <= i < |s.pools| ::
          s'.pools[i].duration == s.pools[i].duration && s'.pools[i].claimPeriod == s.pools[i].claimPeriod)
  }

  /** Seen from a bystander: the same shares, at the same or a later value. */
  ghost predicate Spares(s: State, s': State, n: Name) {
    |s'.pools| == |s.pools| && forall i: nat | i < |s.pools| ::
      && OwnedOf(s', n, i) == OwnedOf(s, n, i) && NextOf(s', n, i) == NextOf(s, n, i)
      && (0.0 < OwnedOf(s, n, i) ==> KeepsValue(s.pools[i], s'.pools[i]))
  }

  lemma PutSpares(s: State, owner: Name, i: nat, k: Stake, n: Name)
    requires Shaped(s) && i < |s.pools| && n != owner && KeepsValue(s.pools[i], k.pool)
    ensures Spares(s, PutStake(s, owner, i, k), n)
  {
  }

  /** Someone who holds shares keeps the pool from running empty in between. */
  lemma SparesTransitive(a: State, b: State, c: State, n: Name)
    requires Inv(a) && Inv(b) && Inv(c) && Spares(a, b, n) && Spares(b, c, n)
    ensures Spares(a, c, n)
  {
    forall i: nat | i < |a.pools| && 0.0 < OwnedOf(a, n, i) ensures KeepsValue(a.pools[i], c.pools[i]) {
      TotalAtLeast<Name, Voter>(b.voters, n, OwnedIn(i));
      ValueTransitive(a.pools[i], b.pools[i], c.pools[i]);
    }
  }

  lemma FeesSpare(s: State, s': State, n: Name)
    requires s'.voters == s.voters && |s'.pools| == |s.pools|
    requires forall i | 0 <= i < |s.pools| :: KeepsValue(s.pools[i], s'.pools[i])
    ensures Spares(s, s', n)
  {
  }

  lemma StakeKeeps(s: State, owner: Name, i: nat, amount: int, n: Name)
    requires Inv(s) && Shaped(s)
    ensures StakeToPool(s, owner, i, amount).Some? <==> i < |s.pools| && 0 < amount
    ensures var r := StakeToPool(s, owner, i, amount);
            r.Some? ==> Conserves(s, r.value, 0) && (n != owner ==> Spares(s, r.value, n))
  {
    hide ValidPools, ValidVoters, SharesAreOwned, KeepsValue, Deposit, ValidPool;
    if i < |s.pools| && 0 < amount {
      var k := StakeOf(s, owner, i);
      StakeValid(s, owner, i);
      DepositMeaning(k, amount, s.slot);
      var k' := Deposit(k, amount, s.slot).value;
      PutStakeKeeps(s, owner, i, k');
      TokensIrrelevant(PutStake(s, owner, i, k'), s.tokens + amount);
      if n != owner {
        PutSpares(s, owner, i, k', n);
      }
    }
  }

  lemma TokensIrrelevant(s: State, tokens: int)
    requires Inv(s)
    ensures Inv(s.(tokens := tokens))
  {
  }

  /** A claim is refused only for its arguments, its timer, or because nothing can be claimed: the contract's checks for
      negative pools are dead, and eosio.srpool can always pay. */
  lemma ClaimKeeps(s: State, owner: Name, i: nat, requested: int, votes: bool, n: Name)
    requires Inv(s) && Shaped(s) && TotalBalance(s.pools) <= s.tokens
    ensures ClaimStake(s, owner, i, requested, votes).Some? <==>
            && i < |s.pools| && 0 < requested && votes
            && StakeOf(s, owner, i).nextClaim <= s.slot
            && 0 < Portion(Worth(DistributeNamebids(s).pools[i], StakeOf(s, owner, i).owned), s.pools[i])
    ensures var r := ClaimStake(s, owner, i, requested, votes);
            r.Some? ==> Conserves(s, r.value, 0) && (n != owner ==> Spares(s, r.value, n))
    ensures var r := ClaimStake(s, owner, i, requested, votes);
            r.Some? ==> && NextOf(r.value, owner, i) == s.slot + 2 * s.pools[i].claimPeriod
                        && OwnedOf(r.value, owner, i) >= OwnedOf(s, owner, i) * KeepRate(s.pools[i])
  {
    hide ValidPools, ValidVoters, SharesAreOwned, KeepsValue, Withdraw, DistributeNamebids, Worth, Portion, TotalBalance;
    if i < |s.pools| && 0 < requested {
      NamebidsKeep(s);
      var s1 := DistributeNamebids(s);
      var k := StakeOf(s1, owner, i);
      StakeValid(s1, owner, i);
      WithdrawMeaning(k.pool, k.owned, requested, true);
      PortionDepends(s.pools[i], k.pool, Worth(k.pool, k.owned));
      PoolsValid(s1);
      BalanceAtLeast(s1.pools, i);
      PortionWithin(k.pool, k.owned);
      var w := Withdraw(k.pool, k.owned, requested, true);
      if w.Some? {
        ClaimLeaves(k.pool, k.owned, requested);
        var k' := Stake(w.value.pool, w.value.owned, s.slot + k.pool.claimPeriod * 2);
        PutStakeKeeps(s1, owner, i, k');
        var s2 := PutStake(s1, owner, i, k');
        TokensIrrelevant(s2, s1.tokens - w.value.sold);
        if n != owner {
          FeesSpare(s, s1, n);
          PutSpares(s1, owner, i, k', n);
          SparesTransitive(s, s1, s2, n);
        }
      }
    }
  }

  lemma PoolsValid(s: State)
    requires Inv(s)
    ensures ValidPools(s.pools)
  {
  }

  lemma PortionDepends(p: Pool, q: Pool, balance: int)
    requires p.duration == q.duration && p.claimPeriod == q.claimPeriod
    ensures Portion(balance, p) == Portion(balance, q)
  {
  }

  lemma PortionWithin(p: Pool, owned: real)
    requires ValidPool(p) && 0.0 <= owned <= p.shares
    ensures 0 <= Portion(Worth(p, owned), p) <= p.balance
  {
    WorthBounds(p, owned);
    PortionBounds(Worth(p, owned), p);
  }

  /** Taking stake out of a pool never fails for a positive request that the stake covers in part. */
  lemma TakeKeeps(s: State, owner: Name, i: nat, requested: int, n: Name)
    requires Inv(s) && Shaped(s) && i < |s.pools| && 0 < requested
    ensures TakeStake(s, owner, i, requested).Some? <==> 0 < Worth(s.pools[i], StakeOf(s, owner, i).owned)
    ensures var r := TakeStake(s, owner, i, requested);
            r.Some? ==>
              && Inv(r.value.0) && 0 < r.value.1 == Min(Worth(s.pools[i], StakeOf(s, owner, i).owned), requested)
              && r.value.0 == s.(pools := r.value.0.pools, voters := r.value.0.voters)
              && TotalBalance(r.value.0.pools) == TotalBalance(s.pools) - r.value.1
              && r.value.0.pools == s.pools[i := s.pools[i].(balance := r.value.0.pools[i].balance, shares := r.value.0.pools[i].shares)]
              && (forall m: Name, j: nat | j < |s.pools| :: NextOf(r.value.0, m, j) == NextOf(s, m, j))
              && (forall m: Name, j: nat | j < |s.pools| && (m != owner || j != i) :: OwnedOf(r.value.0, m, j) == OwnedOf(s, m, j))
              && (n != owner ==> Spares(s, r.value.0, n))
  {
    hide ValidPools, ValidVoters, SharesAreOwned, KeepsValue, Withdraw, Worth, TotalBalance, ValidPool;
    var k := StakeOf(s, owner, i);
    StakeValid(s, owner, i);
    WithdrawMeaning(k.pool, k.owned, requested, false);
    ValidIsNotNegative(Withdraw(k.pool, k.owned, requested, false).value.pool);
    WorthBounds(k.pool, k.owned);
    var w := Withdraw(k.pool, k.owned, requested, false);
    if 0 < w.value.sold {
      var k' := Stake(w.value.pool, w.value.owned, k.nextClaim);
      PutStakeKeeps(s, owner, i, k');
      if n != owner {
        PutSpares(s, owner, i, k', n);
      }
    }
  }

  lemma ValidIsNotNegative(p: Pool)
    requires ValidPool(p)
    ensures NotNegative(p)
  {
  }

  /** Depositing on behalf of an owner. */
  lemma PutDepositKeeps(s: State, owner: Name, i: nat, amount: int, n: Name)
    requires Inv(s) && Shaped(s) && i < |s.pools| && 0 < amount
    ensures var k := Deposit(StakeOf(s, owner, i), amount, s.slot);
            && k.Some?
            && var s' := PutStake(s, owner, i, k.value);
               && Inv(s') && TotalBalance(s'.pools) == TotalBalance(s.pools) + amount
               && s' == s.(pools := s'.pools, voters := s'.voters)
               && s'.pools == s.pools[i := s.pools[i].(balance := s'.pools[i].balance, shares := s'.pools[i].shares)]
               && (forall m: Name, j: nat | j < |s.pools| ::
                     NextOf(s, m, j) <= NextOf(s', m, j) && OwnedOf(s, m, j) <= OwnedOf(s', m, j))
               && (n != owner ==> Spares(s, s', n))
  {
    hide ValidPools, ValidVoters, SharesAreOwned, KeepsValue, Deposit, TotalBalance, ValidPool;
    var k := StakeOf(s, owner, i);
    StakeValid(s, owner, i);
    DepositMeaning(k, amount, s.slot);
    var k' := Deposit(k, amount, s.slot).value;
    PutStakeKeeps(s, owner, i, k');
    if n != owner {
      PutSpares(s, owner, i, k', n);
    }
  }

  lemma SamePools(s: State, s': State, gift: int)
    requires Inv(s') && Shaped(s') && s'.slot == s.slot && |s'.pools| == |s.pools|
    requires s'.tokens - TotalBalance(s'.pools) == s.tokens - TotalBalance(s.pools) + gift
    requires forall i | 0 <= i < |s.pools| :: s'.pools[i] == s.pools[i].(balance := s'.pools[i].balance, shares := s'.pools[i].shares)
    ensures Conserves(s, s', gift)
  {
  }

  /** A transfer moves exactly the tokens taken; what the receiver's next claim gains in delay is never taken back. */
  lemma TransferKeeps(s: State, from: Name, to: Name, i: nat, requested: int, n: Name)
    requires Inv(s) && Shaped(s)
    ensures TransferStake(s, from, to, i, requested).Some? <==>
            && from != to && i < |s.pools| && 0 < requested && from in s.voters
            && (to in s.voters || s.minCreate <= requested)
            && 0 < Worth(s.pools[i], StakeOf(s, from, i).owned)
    ensures var r := TransferStake(s, from, to, i, requested);
            r.Some? ==>
              && Conserves(s, r.value, 0)
              && TotalBalance(r.value.pools) == TotalBalance(s.pools)
              && (n != from && n != to ==> Spares(s, r.value, n))
              && (forall m: Name, j: nat | j < |s.pools| :: NextOf(s, m, j) <= NextOf(r.value, m, j))
              && (forall m: Name, j: nat | j < |s.pools| && (m != from || j != i) :: OwnedOf(s, m, j) <= OwnedOf(r.value, m, j))
  {
    hide Inv, KeepsValue, Deposit, TakeStake, Worth, TotalBalance, Spares, PutStake, StakeOf;
    if from != to && i < |s.pools| && 0 < requested {
      TakeKeeps(s, from, i, requested, n);
      if TakeStake(s, from, i, requested).Some? {
        var taken := TakeStake(s, from, i, requested).value;
        PutDepositKeeps(taken.0, to, i, taken.1, n);
        var s' := PutStake(taken.0, to, i, Deposit(StakeOf(taken.0, to, i), taken.1, s.slot).value);
        SamePools(s, s', 0);
        if n != from && n != to {
          SparesTransitive(s, taken.0, s', n);
        }
      }
    }
  }

  lemma UpgradeKeeps(s: State, owner: Name, i: nat, j: nat, requested: int, n: Name)
    requires Inv(s) && Shaped(s)
    ensures UpgradeStake(s, owner, i, j, requested).Some? <==>
            && i < j < |s.pools| && 0 < requested && owner in s.voters
            && 0 < Worth(s.pools[i], StakeOf(s, owner, i).owned)
    ensures var r := UpgradeStake(s, owner, i, j, requested);
            r.Some? ==>
              && Conserves(s, r.value, 0)
              && TotalBalance(r.value.pools) == TotalBalance(s.pools)
              && (n != owner ==> Spares(s, r.value, n))
              && (forall m: Name, h: nat | h < |s.pools| :: NextOf(s, m, h) <= NextOf(r.value, m, h))
              && (forall m: Name, h: nat | h < |s.pools| && (m != owner || h != i) :: OwnedOf(s, m, h) <= OwnedOf(r.value, m, h))
  {
    hide Inv, KeepsValue, Deposit, TakeStake, Worth, TotalBalance, Spares, PutStake, StakeOf;
    if i < j < |s.pools| && 0 < requested {
      TakeKeeps(s, owner, i, requested, n);
      if TakeStake(s, owner, i, requested).Some? {
        var taken := TakeStake(s, owner, i, requested).value;
        PutDepositKeeps(taken.0, owner, j, taken.1, n);
        var s' := PutStake(taken.0, owner, j, Deposit(StakeOf(taken.0, owner, j), taken.1, s.slot).value);
        SamePools(s, s', 0);
        if n != owner {
          SparesTransitive(s, taken.0, s', n);
        }
      }
    }
  }

  function Gift(a: Action): int {
    if a.Donate? then a.amount else 0
  }

  /** Every action keeps the invariant and loses no token; the stake of everyone not involved keeps its shares, and they
      are worth at least what they were. */
  lemma StepKeeps(s: State, a: Action, n: Name)
    requires Inv(s) && Shaped(s) && TotalBalance(s.pools) <= s.tokens && Step(s, a).Some?
    ensures Conserves(s, Step(s, a).value, Gift(a))
    ensures Bystander(a, n) ==> Spares(s, Step(s, a).value, n)
  {
    hide Inv, KeepsValue, StakeToPool, ClaimStake, TransferStake, UpgradeStake, TotalBalance, Channel, OnlyGain, Worth, Portion,
         StakeOf, DistributeNamebids, PayEach, Spares;
    SparesSelf(s, n);
    match a
    case StakeCall(owner, i, amount) => StakeKeeps(s, owner, i, amount, n);
    case ClaimCall(owner, i, requested, votes) => ClaimKeeps(s, owner, i, requested, votes, n);
    case TransferCall(owner, to, i, requested) => TransferKeeps(s, owner, to, i, requested, n);
    case UpgradeCall(owner, i, j, requested) => UpgradeKeeps(s, owner, i, j, requested, n);
    case FeeCall(amount, partial) => FeeKeeps(s, amount, partial, n);
    case NamebidCall(bid) => NamebidKeeps(s, bid, n);
    case PayCall(perPool) => PayKeeps(s, perPool, n);
    case CfgCall(begin, end, minCreate) => ConfigureKeeps(s, begin, end, minCreate, n);
    case Donate(amount) => DonateKeeps(s, amount, n);
    case Advance(slot) => AdvanceKeeps(s, slot, n);
  }

  lemma SparesSelf(s: State, n: Name)
    ensures Spares(s, s, n)
  {
  }

  lemma FeeKeeps(s: State, amount: int, partial: bool, n: Name)
    requires Inv(s) && Shaped(s) && 0 < amount
    ensures Conserves(s, Channel(s, amount, partial), 0) && Spares(s, Channel(s, amount, partial), n)
  {
    hide ValidPools, ValidVoters, SharesAreOwned, KeepsValue, Channel, TotalBalance;
    ChannelKeeps(s, amount, partial);
    FeesSpare(s, Channel(s, amount, partial), n);
    SamePools(s, Channel(s, amount, partial), 0);
  }

  lemma PayKeeps(s: State, perPool: int, n: Name)
    requires Inv(s) && Shaped(s) && 0 <= perPool
    ensures var s' := s.(pools := PayEach(s.pools, perPool), tokens := s.tokens + Active(s.pools) * perPool);
            Conserves(s, s', 0) && Spares(s, s', n)
  {
    hide ValidVoters, SharesAreOwned, KeepsValue, PayEach, TotalBalance, Active;
    PayEachMeaning(s.pools, perPool);
    GainKeeps(s, PayEach(s.pools, perPool));
    var s' := s.(pools := PayEach(s.pools, perPool), tokens := s.tokens + Active(s.pools) * perPool);
    TokensIrrelevant(s.(pools := PayEach(s.pools, perPool)), s'.tokens);
    FeesSpare(s, s', n);
    SamePools(s, s', 0);
  }

  lemma NamebidKeeps(s: State, bid: int, n: Name)
    requires Inv(s) && Shaped(s) && ChannelNamebid(s, bid).Some?
    ensures Conserves(s, ChannelNamebid(s, bid).value, 0) && Spares(s, ChannelNamebid(s, bid).value, n)
  {
    hide ValidPools, ValidVoters, SharesAreOwned, KeepsValue, TotalBalance, Active, Transition;
    TransitionBounds(s, bid);
    NamebidsIrrelevant(s, s.namebids + Transition(s, bid), s.slot);
    SamePools(s, ChannelNamebid(s, bid).value, 0);
    GainKeeps(s, s.pools);
  }

  lemma ConfigureKeeps(s: State, begin: Option<int>, end: Option<int>, minCreate: Option<int>, n: Name)
    requires Inv(s) && Shaped(s) && Configure(s, begin, end, minCreate).Some?
    ensures Conserves(s, Configure(s, begin, end, minCreate).value, 0) && Spares(s, Configure(s, begin, end, minCreate).value, n)
  {
    hide ValidPools, KeepsValue, TotalBalance;
    GainKeeps(s, s.pools);
  }

  lemma DonateKeeps(s: State, amount: int, n: Name)
    requires Inv(s) && Shaped(s)
    ensures Conserves(s, s.(tokens := s.tokens + amount), amount) && Spares(s, s.(tokens := s.tokens + amount), n)
  {
    hide ValidPools, ValidVoters, SharesAreOwned, KeepsValue, TotalBalance;
    GainKeeps(s, s.pools);
    TokensIrrelevant(s, s.tokens + amount);
  }

  lemma AdvanceKeeps(s: State, slot: int, n: Name)
    requires Inv(s) && Shaped(s) && s.slot <= slot
    ensures Conserves(s, s.(slot := slot), 0) && Spares(s, s.(slot := slot), n)
  {
    hide ValidPools, ValidVoters, SharesAreOwned, KeepsValue, TotalBalance;
    GainKeeps(s, s.pools);
    NamebidsIrrelevant(s, s.namebids, slot);
  }

  /** No action moves anyone's next claim backwards. */
  lemma TimersNeverGoBack(s: State, a: Action, n: Name, i: nat)
    requires Inv(s) && Shaped(s) && TotalBalance(s.pools) <= s.tokens && Step(s, a).Some? && i < |s.pools|
    ensures NextOf(s, n, i) <= NextOf(Step(s, a).value, n, i)
  {
    hide Inv, KeepsValue, StakeToPool, ClaimStake, TransferStake, UpgradeStake, TotalBalance, Channel, Worth, Portion,
         StakeOf, DistributeNamebids, PayEach, Spares, Conserves;
    StepKeeps(s, a, n);
    match a
    case StakeCall(owner, j, amount) => StakeTimer(s, owner, j, amount, n, i);
    case ClaimCall(owner, j, requested, votes) => ClaimTimer(s, owner, j, requested, votes, n, i);
    case TransferCall(owner, to, j, requested) => TransferKeeps(s, owner, to, j, requested, n);
    case UpgradeCall(owner, j, h, requested) => UpgradeKeeps(s, owner, j, h, requested, n);
    case _ => SparedTimer(s, Step(s, a).value, n, i);
  }

  lemma SparedTimer(s: State, s': State, n: Name, i: nat)
    requires Spares(s, s', n) && i < |s.pools|
    ensures NextOf(s, n, i) == NextOf(s', n, i) && OwnedOf(s, n, i) == OwnedOf(s', n, i)
  {
  }

  lemma StakeTimer(s: State, owner: Name, j: nat, amount: int, n: Name, i: nat)
    requires Inv(s) && Shaped(s) && StakeToPool(s, owner, j, amount).Some? && i < |s.pools|
    ensures NextOf(s, n, i) <= NextOf(StakeToPool(s, owner, j, amount).value, n, i)
    ensures OwnedOf(s, n, i) <= OwnedOf(StakeToPool(s, owner, j, amount).value, n, i)
  {
    hide Inv, KeepsValue, Deposit, TotalBalance, PutStake, StakeOf;
    PutDepositKeeps(s, owner, j, amount, n);
  }

  lemma ClaimTimer(s: State, owner: Name, j: nat, requested: int, votes: bool, n: Name, i: nat)
    requires Inv(s) && Shaped(s) && ClaimStake(s, owner, j, requested, votes).Some? && i < |s.pools|
    ensures NextOf(s, n, i) <= NextOf(ClaimStake(s, owner, j, requested, votes).value, n, i)
    ensures !(n == owner && i == j) ==> OwnedOf(s, n, i) == OwnedOf(ClaimStake(s, owner, j, requested, votes).value, n, i)
  {
    hide ValidPools, ValidVoters, SharesAreOwned, KeepsValue, Withdraw, DistributeNamebids, TotalBalance;
    NamebidsKeep(s);
    PeriodPositive(s, j);
  }

  lemma PeriodPositive(s: State, i: nat)
    requires Inv(s) && i < |s.pools|
    ensures 0 < s.pools[i].claimPeriod < s.pools[i].duration
  {
  }
}
