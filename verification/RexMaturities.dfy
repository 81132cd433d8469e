/** When an owner's REX matures. A balance stands for a schedule, the REX that is matured by each time to come; this module says
    what every operation does to the schedule, whatever buckets it is kept in. Times are whole seconds. */
module RexMaturities {
  import opened Tables
  import opened RexReturns
  import opened RexBalances

  function SumDue(buckets: seq<Bucket>, t: int): int {
    if buckets == [] then 0
    else SumDue(buckets[..|buckets| - 1], t) + if buckets[|buckets| - 1].time <= t then buckets[|buckets| - 1].amount else 0
  }

  /** The REX that will be matured at time `t` if the owner does nothing. Savings never are. */
  function MaturedBy(b: Balance, t: int): int {
    b.matured + SumDue(b.maturities, t)
  }

  /** The midnight from which REX acquired at `now` can be sold: more than four days ahead, five at most. */
  predicate MaturesAt(now: int, m: int) {
    m % 86_400 == 0 && now + 4 * 86_400 < m <= now + 5 * 86_400
  }

  lemma MaturityExact(now: int, m: int)
    requires MaturesAt(now, m)
    ensures m == RexMaturity(now)
  {
  }

  lemma MaturityExists(now: int)
    ensures MaturesAt(now, RexMaturity(now))
  {
    assert RexMaturity(now) == 86_400 * (now / 86_400 + 5);
  }

  // ----- buckets -----

  lemma DueBack(buckets: seq<Bucket>, b: Bucket, t: int)
    ensures SumDue(buckets + [b], t) == SumDue(buckets, t) + if b.time <= t then b.amount else 0
  {
    assert (buckets + [b])[..|buckets|] == buckets;
  }

  lemma {:induction false} DueFront(buckets: seq<Bucket>, t: int)
    requires buckets != []
    ensures SumDue(buckets, t) == (if buckets[0].time <= t then buckets[0].amount else 0) + SumDue(buckets[1..], t)
  {
    if |buckets| > 1 {
      var init := buckets[..|buckets| - 1];
      DueFront(init, t);
      assert buckets[1..][..|buckets| - 2] == init[1..];
    }
  }

  lemma {:induction false} NothingDue(buckets: seq<Bucket>, t: int)
    requires forall i | 0 <= i < |buckets| :: t < buckets[i].time
    ensures SumDue(buckets, t) == 0
  {
    if buckets != [] {
      NothingDue(buckets[..|buckets| - 1], t);
    }
  }

  lemma {:induction false} AllDue(buckets: seq<Bucket>, t: int)
    requires forall i | 0 <= i < |buckets| :: buckets[i].time <= t
    ensures SumDue(buckets, t) == Total(buckets)
  {
    if buckets != [] {
      AllDue(buckets[..|buckets| - 1], t);
    }
  }

  lemma {:induction false} DueAtMost(buckets: seq<Bucket>, t: int)
    requires forall i | 0 <= i < |buckets| :: 0 <= buckets[i].amount
    ensures 0 <= SumDue(buckets, t) <= Total(buckets)
  {
    if buckets != [] {
      DueAtMost(buckets[..|buckets| - 1], t);
    }
  }

  lemma PushSchedule(b: Balance, time: int, amount: int, t: int)
    ensures MaturedBy(PushBucket(b, time, amount), t) == MaturedBy(b, t) + if time <= t then amount else 0
  {
    if b.maturities != [] && Back(b).time == time {
      var init, last := b.maturities[..|b.maturities| - 1], Bucket(time, Back(b).amount + amount);
      assert b.maturities[|b.maturities| - 1 := last] == init + [last];
      DueBack(init, last, t);
    } else {
      DueBack(b.maturities, Bucket(time, amount), t);
    }
  }

  lemma SavingsSchedule(b: Balance, savings: int, t: int)
    requires t < TIME_MAX
    ensures MaturedBy(WithoutSavings(b), t) == MaturedBy(b, t)
    ensures MaturedBy(PutSavings(b, savings), t) == MaturedBy(b, t)
  {
    PushSchedule(b, TIME_MAX, savings, t);
  }

  // ----- time -----

  /** Maturing buckets changes nothing that is to come. */
  lemma {:induction false} ProcessSchedule(b: Balance, now: int, t: int)
    requires now <= t
    ensures MaturedBy(ProcessMaturities(b, now), t) == MaturedBy(b, t)
    decreases |b.maturities|
  {
    if b.maturities != [] && b.maturities[0].time <= now {
      DueFront(b.maturities, t);
      ProcessSchedule(Balance(b.rex, b.matured + b.maturities[0].amount, b.maturities[1..]), now, t);
    }
  }

  /** After maturing, all that is due is matured, and nothing else. */
  lemma ProcessMaturesDue(b: Balance, now: int)
    requires RexBalances.Valid(b, now) && ValidTime(now)
    ensures ProcessMaturities(b, now).matured == MaturedBy(b, now)
  {
    ProcessedCore(b, now);
    ProcessPast(b, now);
    var p := ProcessMaturities(WithoutSavings(b), now);
    ProcessSchedule(WithoutSavings(b), now, now);
    SavingsSchedule(b, 0, now);
    NothingDue(p.maturities, now);
  }

  lemma ProcessPast(b: Balance, now: int)
    requires RexBalances.Valid(b, now) && ValidTime(now)
    ensures ProcessMaturities(b, now).matured == ProcessMaturities(WithoutSavings(b), now).matured
  {
    MaturityMonotone(now, now);
    ProcessPastSavings(b, now);
  }

  // ----- operations -----

  lemma PushedMatures(b: Balance, amount: int, savings: int, now: int, t: int)
    requires now <= t < TIME_MAX
    ensures MaturedBy(PutSavings(PushBucket(ProcessMaturities(WithoutSavings(b), now), RexMaturity(now), amount), savings), t)
         == MaturedBy(b, t) + if RexMaturity(now) <= t then amount else 0
  {
    hide ProcessMaturities, PushBucket, PutSavings, WithoutSavings, RexMaturity, MaturedBy;
    var p := ProcessMaturities(WithoutSavings(b), now);
    SavingsSchedule(b, 0, t);
    ProcessSchedule(WithoutSavings(b), now, t);
    PushSchedule(p, RexMaturity(now), amount, t);
    SavingsSchedule(PushBucket(p, RexMaturity(now), amount), savings, t);
  }

  /** REX bought now matures at the fifth midnight to come; the rest of the schedule stays. */
  lemma BoughtMatures(b: Balance, received: int, now: int, m: int, t: int)
    requires MaturesAt(now, m) && now <= t < TIME_MAX
    ensures MaturedBy(Buy(b, received, now), t) == MaturedBy(b, t) + if m <= t then received else 0
  {
    hide MaturesAt, MaturedBy, ProcessMaturities, PushBucket, PutSavings, WithoutSavings, RexMaturity, Buy;
    MaturityExact(now, m);
    PushedMatures(b, received, SavingsOf(b), now, t);
    BuyIs(b, received, now);
    SameSchedule(b, received, now, t);
  }

  /** The total of a balance does not matter to its schedule. */
  lemma SameSchedule(b: Balance, received: int, now: int, t: int)
    ensures MaturedBy(PutSavings(PushBucket(ProcessMaturities(WithoutSavings(b), now).(rex := b.rex + received),
                                            RexMaturity(now), received), SavingsOf(b)), t)
         == MaturedBy(PutSavings(PushBucket(ProcessMaturities(WithoutSavings(b), now), RexMaturity(now), received), SavingsOf(b)), t)
  {
    hide ProcessMaturities, SumDue, RexMaturity, WithoutSavings, SavingsOf;
  }

  /** REX taken from savings matures like REX bought now. */
  lemma FromSavingsMatures(b: Balance, rex: int, now: int, m: int, t: int)
    requires MaturesAt(now, m) && now <= t < TIME_MAX
    ensures MaturedBy(MoveFromSavings(b, rex, now), t) == MaturedBy(b, t) + if m <= t then rex else 0
  {
    hide MaturesAt, MaturedBy, ProcessMaturities, PushBucket, PutSavings, WithoutSavings, RexMaturity;
    MaturityExact(now, m);
    PushedMatures(b, rex, SavingsOf(b) - rex, now, t);
  }

  /** Consolidating delays everything outside savings and the open sell order to the fifth midnight to come. */
  lemma ConsolidatedMatures(b: Balance, inSellOrder: int, now: int, m: int, t: int)
    requires RexBalances.Valid(b, now) && ValidTime(now) && 0 <= inSellOrder <= b.matured
    requires MaturesAt(now, m) && now <= t < TIME_MAX
    ensures MaturedBy(Consolidate(b, inSellOrder, now), t)
         == inSellOrder + if m <= t then b.rex - SavingsOf(b) - inSellOrder else 0
  {
    hide MaturesAt, RexMaturity, MaturedBy;
    MaturityExact(now, m);
    SavingsTotal(b);
    var free := b.matured - inSellOrder + Total(WithoutSavings(b).maturities);
    assert free == b.rex - SavingsOf(b) - inSellOrder;
    FreeNonNegative(b, inSellOrder, now);
    hide RexBalances.Valid, Total, WithoutSavings, SavingsOf, PutSavings;
    var b1 := Balance(b.rex, inSellOrder, if free > 0 then [Bucket(m, free)] else []);
    OneBucket(b1, free, m, t);
    SavingsSchedule(b1, SavingsOf(b), t);
  }

  lemma FreeNonNegative(b: Balance, inSellOrder: int, now: int)
    requires RexBalances.Valid(b, now) && inSellOrder <= b.matured
    ensures 0 <= b.matured - inSellOrder + Total(WithoutSavings(b).maturities)
  {
    TotalNonNegative(WithoutSavings(b).maturities);
  }

  lemma OneBucket(b: Balance, amount: int, m: int, t: int)
    requires 0 <= amount && b.maturities == if amount > 0 then [Bucket(m, amount)] else []
    ensures MaturedBy(b, t) == b.matured + if m <= t then amount else 0
  {
    if 0 < amount {
      DueBack([], Bucket(m, amount), t);
      assert b.maturities == [] + [Bucket(m, amount)];
    }
  }

  /** Taking from the back leaves the early part of the schedule, and caps it at what is left. */
  lemma {:induction false} TakeBackSchedule(buckets: seq<Bucket>, want: int, now: int, t: int)
    requires RexBalances.ValidBuckets(buckets, now) && 0 <= want <= Total(buckets)
    ensures SumDue(TakeBack(buckets, want), t) == Min(SumDue(buckets, t), Total(buckets) - want)
    decreases |buckets|
  {
    hide RexBalances.ValidBuckets, Sorted, Daily;
    ValidIsSorted(buckets, now, t);
    DueAtMost(buckets, t);
    if buckets != [] && 0 < want {
      var last, init := buckets[|buckets| - 1], buckets[..|buckets| - 1];
      DueAtMost(init, t);
      if last.amount <= want {
        TakeBackSchedule(init, want - last.amount, now, t);
      } else {
        LastShrinks(buckets, want, t);
      }
    }
  }

  lemma ValidIsSorted(buckets: seq<Bucket>, now: int, t: int)
    requires RexBalances.ValidBuckets(buckets, now)
    ensures forall i | 0 <= i < |buckets| :: 0 <= buckets[i].amount
    ensures buckets != [] ==> RexBalances.ValidBuckets(buckets[..|buckets| - 1], now)
    ensures buckets != [] && buckets[|buckets| - 1].time <= t ==> SumDue(buckets[..|buckets| - 1], t) == Total(buckets[..|buckets| - 1])
  {
    if buckets != [] && buckets[|buckets| - 1].time <= t {
      AllDue(buckets[..|buckets| - 1], t);
    }
  }

  lemma LastShrinks(buckets: seq<Bucket>, want: int, t: int)
    requires buckets != []
    ensures var last := buckets[|buckets| - 1];
            SumDue(buckets[|buckets| - 1 := Bucket(last.time, last.amount - want)], t)
              == SumDue(buckets[..|buckets| - 1], t) + if last.time <= t then last.amount - want else 0
  {
    var last, init := buckets[|buckets| - 1], buckets[..|buckets| - 1];
    assert buckets[|buckets| - 1 := Bucket(last.time, last.amount - want)] == init + [Bucket(last.time, last.amount - want)];
    DueBack(init, Bucket(last.time, last.amount - want), t);
  }

  /** Savings are taken from what matures last, and from matured REX only when nothing else is left: the schedule is capped at
      the REX that stays outside savings. */
  lemma ToSavingsTakesLast(b: Balance, rex: int, inSellOrder: int, now: int, t: int)
    requires RexBalances.Valid(b, now) && ValidTime(now) && 0 < rex && 0 <= inSellOrder <= b.matured
    requires rex + inSellOrder + SavingsOf(b) <= b.rex && now <= t < TIME_MAX
    ensures var r := MoveToSavings(b, rex, inSellOrder, now);
            r.Some? && MaturedBy(r.value, t) == Min(MaturedBy(b, t), b.rex - SavingsOf(b) - rex)
  {
    hide ProcessMaturities, TakeBack, PutSavings, Total, WithoutSavings, SavingsOf, SumDue;
    MoveToSavingsSucceeds(b, rex, inSellOrder, now);
    var b1 := ProcessMaturities(WithoutSavings(b), now);
    ProcessedCore(b, now);
    var left, short := TakenFrom(b1, rex, now);
    SavingsSchedule(b, 0, t);
    ProcessSchedule(WithoutSavings(b), now, t);
    DueAtMost(b1.maturities, t);
    TotalNonNegative(b1.maturities);
    if rex <= Total(b1.maturities) {
      TakeBackSchedule(b1.maturities, rex, now, t);
    } else {
      TakeBackMoves(b1.maturities, rex, now);
      DueAtMost(left, t);
    }
    SavingsSchedule(b1.(maturities := left, matured := b1.matured - short), SavingsOf(b) + rex, t);
  }
}
