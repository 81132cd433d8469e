/** A REX owner's balance: matured REX, daily maturity buckets, and a savings bucket that never
    matures by itself. Times are whole seconds. */
module RexBalances {
  import opened Tables
  import opened RexReturns

  const MATURITY_BUCKETS := 5

  datatype Bucket = Bucket(time: int, amount: int)

  datatype Balance = Balance(rex: int, matured: int, maturities: seq<Bucket>)

  /** REX bought now matures four days after the end of the day. */
  function RexMaturity(now: int): int {
    now - now % SECONDS_PER_DAY + MATURITY_BUCKETS * SECONDS_PER_DAY
  }

  function Total(buckets: seq<Bucket>): int {
    if buckets == [] then 0 else Total(buckets[..|buckets| - 1]) + buckets[|buckets| - 1].amount
  }

  function Back(b: Balance): Bucket
    requires b.maturities != []
  {
    b.maturities[|b.maturities| - 1]
  }

  predicate HasSavings(b: Balance) {
    b.maturities != [] && Back(b).time == TIME_MAX
  }

  // ----- operations -----

  function ProcessMaturities(b: Balance, now: int): Balance
    decreases |b.maturities|
  {
    if b.maturities != [] && b.maturities[0].time <= now
    then ProcessMaturities(Balance(b.rex, b.matured + b.maturities[0].amount, b.maturities[1..]), now)
    else b
  }

  function SavingsOf(b: Balance): int {
    if HasSavings(b) then Back(b).amount else 0
  }

  function WithoutSavings(b: Balance): Balance {
    if HasSavings(b) then b.(maturities := b.maturities[..|b.maturities| - 1]) else b
  }

  /** Adds to the last bucket if it has this time, or appends a bucket. */
  function PushBucket(b: Balance, time: int, amount: int): Balance {
    if b.maturities != [] && Back(b).time == time
    then b.(maturities := b.maturities[|b.maturities| - 1 := Bucket(time, Back(b).amount + amount)])
    else b.(maturities := b.maturities + [Bucket(time, amount)])
  }

  function PutSavings(b: Balance, amount: int): Balance {
    if amount == 0 then b else PushBucket(b, TIME_MAX, amount)
  }

  /** REX joins the bucket that matures last; savings stay behind it. */
  function AddUnmatured(b: Balance, amount: int, now: int): Balance {
    PutSavings(PushBucket(ProcessMaturities(WithoutSavings(b), now), RexMaturity(now), amount), SavingsOf(b))
  }

  function Buy(b: Balance, received: int, now: int): Balance {
    AddUnmatured(b.(rex := b.rex + received), received, now)
  }

  /** Takes up to `want` from the last buckets backwards, dropping the buckets it empties. */
  function TakeBack(buckets: seq<Bucket>, want: int): seq<Bucket>
    decreases |buckets|
  {
    if buckets == [] || want <= 0 then buckets else
    var last := buckets[|buckets| - 1];
    if last.amount <= want then TakeBack(buckets[..|buckets| - 1], want - last.amount)
    else buckets[|buckets| - 1 := Bucket(last.time, last.amount - want)]
  }

  function MoveToSavings(b: Balance, rex: int, inSellOrder: int, now: int): Option<Balance> {
    var b1 := ProcessMaturities(WithoutSavings(b), now);
    var left := TakeBack(b1.maturities, rex);
    var short := rex - (Total(b1.maturities) - Total(left));
    var _ :- Need(short <= 0 || inSellOrder <= b1.matured - short);
    var _ :- Need(0 <= short);
    Some(PutSavings(b1.(maturities := left, matured := b1.matured - short), SavingsOf(b) + rex))
  }

  function MoveFromSavings(b: Balance, rex: int, now: int): Balance {
    PutSavings(PushBucket(ProcessMaturities(WithoutSavings(b), now), RexMaturity(now), rex), SavingsOf(b) - rex)
  }

  /** All REX outside savings and the open sell order goes into one bucket. */
  function Consolidate(b: Balance, inSellOrder: int, now: int): Balance {
    var free := b.matured - inSellOrder + Total(WithoutSavings(b).maturities);
    PutSavings(Balance(b.rex, inSellOrder, if free > 0 then [Bucket(RexMaturity(now), free)] else []), SavingsOf(b))
  }

  // ----- invariant -----

  predicate Sorted(buckets: seq<Bucket>) {
    forall i, j | 0 <= i < j < |buckets| :: buckets[i].time < buckets[j].time
  }

  /** A daily bucket ends at midnight, at most five days ahead. */
  predicate Daily(bucket: Bucket, now: int) {
    bucket.time % SECONDS_PER_DAY == 0 && bucket.time <= RexMaturity(now)
  }

  predicate ValidBuckets(buckets: seq<Bucket>, now: int) {
    && Sorted(buckets)
    && forall i | 0 <= i < |buckets| :: 0 <= buckets[i].amount && Daily(buckets[i], now)
  }

  /** Every unit of REX is either matured, in a daily bucket, or in savings; buckets are strictly
      ordered, savings come last, and there are at most five daily buckets. */
  ghost predicate Valid(b: Balance, now: int) {
    && 0 <= b.matured
    && b.rex == b.matured + Total(b.maturities)
    && ValidBuckets(WithoutSavings(b).maturities, now)
    && |WithoutSavings(b).maturities| <= MATURITY_BUCKETS
    && (HasSavings(b) ==> 0 < SavingsOf(b))
  }

  // ----- totals -----

  lemma TotalSplitBack(buckets: seq<Bucket>, b: Bucket)
    ensures Total(buckets + [b]) == Total(buckets) + b.amount
  {
    assert (buckets + [b])[..|buckets|] == buckets;
  }

  lemma {:induction false} TotalFront(buckets: seq<Bucket>)
    requires buckets != []
    ensures Total(buckets) == buckets[0].amount + Total(buckets[1..])
  {
    if |buckets| > 1 {
      var init := buckets[..|buckets| - 1];
      TotalFront(init);
      assert buckets[1..][..|buckets| - 2] == init[1..];
    }
  }

  lemma {:induction false} TotalNonNegative(buckets: seq<Bucket>)
    requires forall i | 0 <= i < |buckets| :: 0 <= buckets[i].amount
    ensures 0 <= Total(buckets)
  {
    if buckets != [] {
      TotalNonNegative(buckets[..|buckets| - 1]);
    }
  }

  lemma TotalSetBack(buckets: seq<Bucket>, b: Bucket)
    requires buckets != []
    ensures Total(buckets[|buckets| - 1 := b]) == Total(buckets) - buckets[|buckets| - 1].amount + b.amount
  {
    assert buckets[|buckets| - 1 := b][..|buckets| - 1] == buckets[..|buckets| - 1];
  }

  lemma PushTotal(b: Balance, time: int, amount: int)
    ensures Total(PushBucket(b, time, amount).maturities) == Total(b.maturities) + amount
  {
    if b.maturities != [] && Back(b).time == time {
      TotalSetBack(b.maturities, Bucket(time, Back(b).amount + amount));
    } else {
      TotalSplitBack(b.maturities, Bucket(time, amount));
    }
  }

  lemma SavingsTotal(b: Balance)
    ensures Total(b.maturities) == Total(WithoutSavings(b).maturities) + SavingsOf(b)
  {
  }

  // ----- each operation keeps the invariant -----

  /** A balance without savings, between the two halves of an operation. */
  ghost predicate Core(b: Balance, now: int) {
    && 0 <= b.matured
    && ValidBuckets(b.maturities, now)
    && |b.maturities| <= MATURITY_BUCKETS
  }

  /** At most `n` midnights lie in a window of n days. */
  lemma {:induction false} Spaced(buckets: seq<Bucket>, now: int)
    requires ValidBuckets(buckets, now) && buckets != []
    ensures buckets[0].time + (|buckets| - 1) * SECONDS_PER_DAY <= buckets[|buckets| - 1].time
  {
    if |buckets| > 1 {
      var init := buckets[..|buckets| - 1];
      Spaced(init, now);
      var a, b := init[|init| - 1].time, buckets[|buckets| - 1].time;
      assert a / SECONDS_PER_DAY < b / SECONDS_PER_DAY;
    }
  }

  /** After processing, no daily bucket is due, so at most five remain and one more may be pushed only
      onto the last. */
  lemma {:induction false} ProcessKeeps(b: Balance, before: int, now: int)
    requires Core(b, before) && before <= now && ValidTime(before) && ValidTime(now)
    ensures var p := ProcessMaturities(b, now);
            && Core(p, now) && p.rex == b.rex
            && b.matured <= p.matured
            && p.matured + Total(p.maturities) == b.matured + Total(b.maturities)
            && (p.maturities == [] || now < p.maturities[0].time)
    decreases |b.maturities|
  {
    assert RexMaturity(before) <= RexMaturity(now) by { MaturityMonotone(before, now); }
    if b.maturities != [] && b.maturities[0].time <= now {
      TotalFront(b.maturities);
      ProcessKeeps(Balance(b.rex, b.matured + b.maturities[0].amount, b.maturities[1..]), before, now);
    }
  }

  lemma MaturityMonotone(a: int, b: int)
    requires 0 <= a <= b
    ensures RexMaturity(a) <= RexMaturity(b)
    ensures RexMaturity(b) % SECONDS_PER_DAY == 0 && b < RexMaturity(b) < b + 6 * SECONDS_PER_DAY
  {
    var qa, qb := a / SECONDS_PER_DAY, b / SECONDS_PER_DAY;
    assert RexMaturity(a) == SECONDS_PER_DAY * (qa + MATURITY_BUCKETS);
    assert RexMaturity(b) == SECONDS_PER_DAY * (qb + MATURITY_BUCKETS);
  }

  /** Daily buckets that are not due lie within the next five midnights. */
  lemma FiveDays(buckets: seq<Bucket>, now: int)
    requires ValidBuckets(buckets, now) && 0 <= now
    requires buckets != [] && now < buckets[0].time
    ensures |buckets| <= MATURITY_BUCKETS
  {
    Spaced(buckets, now);
    var q, first := now / SECONDS_PER_DAY, buckets[0].time / SECONDS_PER_DAY;
    assert q < first;
    assert buckets[0].time == SECONDS_PER_DAY * first;
    assert RexMaturity(now) == SECONDS_PER_DAY * (q + MATURITY_BUCKETS);
  }

  lemma PushKeeps(b: Balance, amount: int, now: int)
    requires Core(b, now) && ValidTime(now) && 0 <= amount
    requires b.maturities == [] || now < b.maturities[0].time
    ensures var p := PushBucket(b, RexMaturity(now), amount);
            && Core(p, now) && p.rex == b.rex && p.matured == b.matured
            && Total(p.maturities) == Total(b.maturities) + amount
  {
    MaturityMonotone(now, now);
    PushTotal(b, RexMaturity(now), amount);
    var p := PushBucket(b, RexMaturity(now), amount);
    PushSorted(b.maturities, RexMaturity(now), amount, now);
    FiveDays(p.maturities, now);
  }

  lemma PushSorted(buckets: seq<Bucket>, time: int, amount: int, now: int)
    requires ValidBuckets(buckets, now) && time == RexMaturity(now) && 0 <= amount
    requires time % SECONDS_PER_DAY == 0
    ensures ValidBuckets(PushBucket(Balance(0, 0, buckets), time, amount).maturities, now)
  {
  }

  lemma PutSavingsKeeps(b: Balance, savings: int, now: int)
    requires Core(b, now) && ValidTime(now) && 0 <= savings
    requires b.rex == b.matured + Total(b.maturities) + savings
    ensures Valid(PutSavings(b, savings), now) && SavingsOf(PutSavings(b, savings)) == savings
    ensures WithoutSavings(PutSavings(b, savings)) == b
    ensures PutSavings(b, savings).rex == b.rex && PutSavings(b, savings).matured == b.matured
  {
    MaturityMonotone(now, now);
    assert !HasSavings(b);
    if savings != 0 {
      PushTotal(b, TIME_MAX, savings);
      assert (b.maturities + [Bucket(TIME_MAX, savings)])[..|b.maturities|] == b.maturities;
    }
  }

  /** Validity survives the passage of time. */
  lemma LaterValid(b: Balance, before: int, now: int)
    requires Valid(b, before) && before <= now && ValidTime(before)
    ensures Valid(b, now)
  {
    MaturityMonotone(before, now);
  }

  lemma ProcessValid(b: Balance, now: int)
    requires Valid(b, now) && ValidTime(now)
    ensures Valid(ProcessMaturities(b, now), now)
    ensures ProcessMaturities(b, now).rex == b.rex && b.matured <= ProcessMaturities(b, now).matured
  {
    ProcessPastSavings(b, now);
    ProcessedCore(b, now);
    PutSavingsKeeps(ProcessMaturities(WithoutSavings(b), now), SavingsOf(b), now);
  }

  /** Processing never reaches the savings bucket. */
  lemma {:induction false} ProcessPastSavings(b: Balance, now: int)
    requires now < TIME_MAX && (HasSavings(b) ==> SavingsOf(b) != 0)
    requires forall i | 0 <= i < |WithoutSavings(b).maturities| :: b.maturities[i].time != TIME_MAX
    ensures ProcessMaturities(b, now) == PutSavings(ProcessMaturities(WithoutSavings(b), now), SavingsOf(b))
    decreases |b.maturities|
  {
    var w := WithoutSavings(b);
    if b.maturities != [] && b.maturities[0].time <= now {
      var c := Balance(b.rex, b.matured + b.maturities[0].amount, b.maturities[1..]);
      FirstGoes(b, c);
      hide HasSavings, WithoutSavings, SavingsOf, PutSavings;
      ProcessPastSavings(c, now);
    } else {
      SavingsBack(b);
    }
  }

  /** The first bucket goes; savings, if any, stay last. */
  lemma FirstGoes(b: Balance, c: Balance)
    requires b.maturities != [] && b.maturities[0].time != TIME_MAX
    requires c == Balance(b.rex, b.matured + b.maturities[0].amount, b.maturities[1..])
    ensures HasSavings(c) == HasSavings(b) && SavingsOf(c) == SavingsOf(b) && WithoutSavings(b).maturities != []
    ensures WithoutSavings(c).maturities == WithoutSavings(b).maturities[1..] && WithoutSavings(b).maturities[0] == b.maturities[0]
    ensures WithoutSavings(c) == Balance(b.rex, b.matured + b.maturities[0].amount, WithoutSavings(c).maturities)
    ensures WithoutSavings(b) == Balance(b.rex, b.matured, WithoutSavings(b).maturities)
    ensures forall i | 0 <= i < |WithoutSavings(c).maturities| :: c.maturities[i] == b.maturities[i + 1]
    ensures |WithoutSavings(b).maturities| == |WithoutSavings(c).maturities| + 1
  {
  }

  lemma SavingsBack(b: Balance)
    requires HasSavings(b) ==> SavingsOf(b) != 0
    requires forall i | 0 <= i < |WithoutSavings(b).maturities| :: b.maturities[i].time != TIME_MAX
    ensures PutSavings(WithoutSavings(b), SavingsOf(b)) == b
  {
    if HasSavings(b) {
      assert b.maturities == WithoutSavings(b).maturities + [Back(b)];
    }
  }

  /** The daily buckets once due ones have matured. */
  lemma ProcessedCore(b: Balance, now: int)
    requires Valid(b, now) && ValidTime(now)
    ensures var p := ProcessMaturities(WithoutSavings(b), now);
            && Core(p, now) && p.rex == b.rex && b.matured <= p.matured
            && p.matured + Total(p.maturities) + SavingsOf(b) == b.rex
            && (p.maturities == [] || now < p.maturities[0].time)
  {
    SavingsTotal(b);
    ProcessKeeps(WithoutSavings(b), now, now);
  }

  lemma {:induction false} ProcessFramesRex(b: Balance, rex: int, now: int)
    ensures ProcessMaturities(b.(rex := rex), now) == ProcessMaturities(b, now).(rex := rex)
    decreases |b.maturities|
  {
    if b.maturities != [] && b.maturities[0].time <= now {
      ProcessFramesRex(Balance(b.rex, b.matured + b.maturities[0].amount, b.maturities[1..]), rex, now);
    }
  }

  lemma BuyIs(b: Balance, received: int, now: int)
    ensures var p := ProcessMaturities(WithoutSavings(b), now).(rex := b.rex + received);
            Buy(b, received, now) == PutSavings(PushBucket(p, RexMaturity(now), received), SavingsOf(b))
  {
    ProcessFramesRex(WithoutSavings(b), b.rex + received, now);
    assert WithoutSavings(b.(rex := b.rex + received)) == WithoutSavings(b).(rex := b.rex + received);
  }

  /** Newly bought REX keeps the balance valid and enters it unmatured. */
  lemma BuyValid(b: Balance, received: int, now: int)
    requires Valid(b, now) && ValidTime(now) && 0 <= received
    ensures Valid(Buy(b, received, now), now)
    ensures Buy(b, received, now).rex == b.rex + received && b.matured <= Buy(b, received, now).matured
  {
    assert Core(ProcessMaturities(WithoutSavings(b), now), now) by { ProcessedCore(b, now); }
    var p := ProcessMaturities(WithoutSavings(b), now).(rex := b.rex + received);
    ProcessedCore(b, now);
    PushKeeps(p, received, now);
    var p' := PushBucket(p, RexMaturity(now), received);
    assert p'.rex == p'.matured + Total(p'.maturities) + SavingsOf(b);
    SavingsNonNegative(b, now);
    PutSavingsKeeps(p', SavingsOf(b), now);
    BuyIs(b, received, now);
  }

  lemma SavingsNonNegative(b: Balance, now: int)
    requires Valid(b, now)
    ensures 0 <= SavingsOf(b)
  {
  }

  /** Taking back moves exactly what was asked for, or everything there is. */
  lemma {:induction false} TakeBackMoves(buckets: seq<Bucket>, want: int, now: int)
    requires ValidBuckets(buckets, now) && 0 <= want
    ensures ValidBuckets(TakeBack(buckets, want), now) && |TakeBack(buckets, want)| <= |buckets|
    ensures Total(TakeBack(buckets, want)) == Max(0, Total(buckets) - want)
    decreases |buckets|
  {
    TotalNonNegative(buckets);
    if buckets != [] && 0 < want {
      var last, init := buckets[|buckets| - 1], buckets[..|buckets| - 1];
      TotalNonNegative(init);
      if last.amount <= want {
        TakeBackMoves(init, want - last.amount, now);
      } else {
        TotalSetBack(buckets, Bucket(last.time, last.amount - want));
      }
    }
  }

  /** Both error checks in mvtosavings are dead: an affordable move always succeeds, the owner's savings
      grow by exactly `rex`, and what the open sell order needs stays matured. */
  lemma MoveToSavingsSucceeds(b: Balance, rex: int, inSellOrder: int, now: int)
    requires Valid(b, now) && ValidTime(now) && 0 < rex
    requires 0 <= inSellOrder <= b.matured
    requires rex + inSellOrder + SavingsOf(b) <= b.rex
    ensures var r := MoveToSavings(b, rex, inSellOrder, now);
            && r.Some? && Valid(r.value, now) && r.value.rex == b.rex
            && inSellOrder <= r.value.matured
            && SavingsOf(r.value) == SavingsOf(b) + rex
  {
    hide ProcessMaturities, TakeBack, ValidBuckets, PutSavings, Total, WithoutSavings, SavingsOf;
    var b1 := ProcessMaturities(WithoutSavings(b), now);
    ProcessedCore(b, now);
    SavingsNonNegative(b, now);
    var left, short := TakenFrom(b1, rex, now);
    PutSavingsKeeps(b1.(maturities := left, matured := b1.matured - short), SavingsOf(b) + rex, now);
  }

  lemma TakenFrom(b: Balance, rex: int, now: int) returns (left: seq<Bucket>, short: int)
    requires Core(b, now) && 0 <= rex
    ensures left == TakeBack(b.maturities, rex) && short == rex - (Total(b.maturities) - Total(left))
    ensures ValidBuckets(left, now) && |left| <= |b.maturities|
    ensures short == Max(0, rex - Total(b.maturities))
  {
    left := TakeBack(b.maturities, rex);
    TakeBackMoves(b.maturities, rex, now);
    TotalNonNegative(b.maturities);
    short := rex - (Total(b.maturities) - Total(left));
  }

  lemma MoveFromSavingsValid(b: Balance, rex: int, now: int)
    requires Valid(b, now) && ValidTime(now) && 0 < rex <= SavingsOf(b)
    ensures var r := MoveFromSavings(b, rex, now);
            && Valid(r, now) && r.rex == b.rex && b.matured <= r.matured
            && SavingsOf(r) == SavingsOf(b) - rex
  {
    ProcessedCore(b, now);
    PushKeeps(ProcessMaturities(WithoutSavings(b), now), rex, now);
    PutSavingsKeeps(PushBucket(ProcessMaturities(WithoutSavings(b), now), RexMaturity(now), rex), SavingsOf(b) - rex, now);
  }

  /** Consolidation keeps savings and the REX promised to the open sell order. */
  lemma ConsolidateValid(b: Balance, inSellOrder: int, now: int)
    requires Valid(b, now) && ValidTime(now) && 0 <= inSellOrder <= b.matured
    ensures var r := Consolidate(b, inSellOrder, now);
            && Valid(r, now) && r.rex == b.rex && r.matured == inSellOrder
            && SavingsOf(r) == SavingsOf(b)
  {
    MaturityMonotone(now, now);
    FreeRex(b, inSellOrder, now);
    hide Valid, WithoutSavings, SavingsOf, RexMaturity, PutSavings, HasSavings;
    var free := b.matured - inSellOrder + Total(WithoutSavings(b).maturities);
    var buckets := if free > 0 then [Bucket(RexMaturity(now), free)] else [];
    assert Total(buckets) == Max(0, free);
    PutSavingsKeeps(Balance(b.rex, inSellOrder, buckets), SavingsOf(b), now);
  }

  lemma FreeRex(b: Balance, inSellOrder: int, now: int)
    requires Valid(b, now) && 0 <= inSellOrder <= b.matured
    ensures var free := b.matured - inSellOrder + Total(WithoutSavings(b).maturities);
            0 <= free && b.rex == inSellOrder + free + SavingsOf(b) && 0 <= SavingsOf(b)
  {
    SavingsTotal(b);
    TotalNonNegative(WithoutSavings(b).maturities);
  }

  /** Selling takes matured REX only. */
  function Sell(b: Balance, rex: int): Balance {
    Balance(b.rex - rex, b.matured - rex, b.maturities)
  }

  lemma SellValid(b: Balance, rex: int, now: int)
    requires Valid(b, now) && 0 <= rex <= b.matured
    ensures Valid(Sell(b, rex), now)
  {
  }

  /** At most six entries: five daily buckets and savings. */
  lemma AtMostSix(b: Balance, now: int)
    requires Valid(b, now) && ValidTime(now)
    ensures |b.maturities| <= MATURITY_BUCKETS + 1
    ensures Sorted(b.maturities)
  {
    MaturityMonotone(now, now);
  }
}
