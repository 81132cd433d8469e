/** The REX return pool: fees are collected in 12-hour buckets, and each bucket is paid out
    to the REX pool over 30 days in 10-minute intervals. The contract keeps one aggregate rate and one
    aggregate balance; this module defines what they stand for, bucket by bucket.
    All times here are whole seconds (time_point_sec). */
module RexReturns {
  import opened Tables

  const SECONDS_PER_DAY := 86400
  const TOTAL_INTERVALS := 30 * 144
  const DIST_INTERVAL := 10 * 60
  const BUCKET_INTERVAL := 12 * 3600
  const PAYOUT_TIME := TOTAL_INTERVALS * DIST_INTERVAL
  const TIME_MIN := 0
  const TIME_MAX := 0xFFFF_FFFF

  /** One row of rexretpool together with its row of retbuckets; `buckets` maps the opening time
      of a bucket to its payout per interval. */
  datatype ReturnPool = ReturnPool(
    lastDist: int,
    pendingTime: int,
    oldest: int,
    pendingProceeds: int,
    rate: int,
    proceeds: int,
    buckets: map<int, int>)

  function Effective(now: int): int {
    now - now % DIST_INTERVAL
  }

  /** The boundary at which fees collected at `now` open as a bucket. */
  function NextBucketTime(now: int): int {
    now - now % BUCKET_INTERVAL + BUCKET_INTERVAL
  }

  function Elapsed(t1: int, t0: int): int {
    (t1 - t0) / DIST_INTERVAL
  }

  // ----- what the aggregates stand for -----

  ghost function RateOf(): (int, int) -> int {
    (start: int, rate: int) => rate
  }

  /** What a bucket still has to pay after the distribution at `time`. */
  ghost function UnpaidOf(time: int): (int, int) -> int {
    (start: int, rate: int) => rate * (TOTAL_INTERVALS - Elapsed(time, start))
  }

  ghost function TotalRate(buckets: map<int, int>): int {
    Sum(buckets, RateOf())
  }

  ghost function TotalUnpaid(buckets: map<int, int>, time: int): int {
    Sum(buckets, UnpaidOf(time))
  }

  function Oldest(buckets: map<int, int>): int {
    if buckets == map[] then TIME_MIN else Least(buckets.Keys)
  }

  /** A bucket pays from its opening until PAYOUT_TIME later. */
  predicate Live(start: int, time: int) {
    time - PAYOUT_TIME < start
  }

  ghost predicate ValidBuckets(buckets: map<int, int>, last: int) {
    forall k | k in buckets :: k % BUCKET_INTERVAL == 0 && Live(k, last) && k <= last && 0 <= buckets[k]
  }

  /** What holds of the return pool between actions, at time `now`. */
  ghost predicate Valid(rp: ReturnPool, now: int) {
    && PAYOUT_TIME <= rp.lastDist && rp.lastDist % DIST_INTERVAL == 0
    && ValidBuckets(rp.buckets, rp.lastDist)
    && (rp.pendingTime == TIME_MAX ==> rp.pendingProceeds == 0 && rp.lastDist <= now)
    && (rp.pendingTime != TIME_MAX ==>
          && rp.pendingTime % BUCKET_INTERVAL == 0
          && rp.lastDist <= rp.pendingTime <= now + BUCKET_INTERVAL
          && (rp.pendingTime == rp.lastDist ==> rp.buckets == map[])
          && forall k | k in rp.buckets :: k < rp.pendingTime)
    && (rp.lastDist <= now || (rp.buckets == map[] && rp.lastDist == rp.pendingTime))
    && 0 <= rp.pendingProceeds
    && rp.rate == TotalRate(rp.buckets)
    && rp.proceeds == rp.pendingProceeds + TotalUnpaid(rp.buckets, rp.lastDist)
    && rp.oldest == Oldest(rp.buckets)
  }

  // ----- the distribution, bucket by bucket -----

  /** All buckets once the pending one has start, if it is due. */
  function WithPending(rp: ReturnPool, time: int): map<int, int> {
    if rp.pendingTime <= time
    then rp.buckets[rp.pendingTime := rp.pendingProceeds / TOTAL_INTERVALS]
    else rp.buckets
  }

  function LiveBuckets(buckets: map<int, int>, time: int): map<int, int> {
    map k | k in buckets && Live(k, time) :: buckets[k]
  }

  function Expired(buckets: map<int, int>, time: int): map<int, int> {
    map k | k in buckets && !Live(k, time) :: buckets[k]
  }

  /** The return pool after a distribution at `now`. */
  ghost function Distribute(rp: ReturnPool, now: int): ReturnPool {
    var time := Effective(now);
    if time <= rp.lastDist then rp else
    var due := rp.pendingTime <= time;
    var live := LiveBuckets(WithPending(rp, time), time);
    var pending := if due then 0 else rp.pendingProceeds;
    ReturnPool(time, if due then TIME_MAX else rp.pendingTime, Oldest(live), pending,
               TotalRate(live), pending + TotalUnpaid(live, time), live)
  }

  /** What a distribution pays to the REX pool. */
  ghost function Released(rp: ReturnPool, now: int): int {
    rp.proceeds - Distribute(rp, now).proceeds
  }

  /** A fee joins the pending bucket, or starts one. */
  function Collect(rp: ReturnPool, fee: int, now: int): ReturnPool {
    rp.(pendingProceeds := rp.pendingProceeds + fee,
        proceeds := rp.proceeds + fee,
        pendingTime := if rp.pendingTime == TIME_MAX then NextBucketTime(now) else rp.pendingTime)
  }

  /** The first fee creates the pool; nothing is distributed before its bucket opens. */
  function FirstFee(fee: int, now: int): ReturnPool {
    var time := NextBucketTime(now);
    ReturnPool(time, time, TIME_MIN, fee, 0, fee, map[])
  }

  /** Times the model covers: past 30 days since the epoch, and 32-bit seconds. */
  predicate ValidTime(now: int) {
    PAYOUT_TIME <= now && now + 31 * SECONDS_PER_DAY < TIME_MAX
  }

  /** Distributions happen on ten-minute boundaries; buckets open at noon or midnight, at the first of them that is still
      ahead. */
  lemma TimeFacts(now: int)
    requires 0 <= now
    ensures Effective(now) % 600 == 0 && Effective(now) <= now < Effective(now) + 600
    ensures NextBucketTime(now) % 43_200 == 0 && now < NextBucketTime(now) <= now + 43_200
    ensures Effective(now) < NextBucketTime(now)
  {
    var q, r := now / BUCKET_INTERVAL, now % BUCKET_INTERVAL;
    assert NextBucketTime(now) == BUCKET_INTERVAL * (q + 1);
  }

  lemma HalfDaysAreIntervals(t: int)
    requires t % BUCKET_INTERVAL == 0
    ensures t % DIST_INTERVAL == 0
  {
    var q := t / BUCKET_INTERVAL;
    assert t == 600 * (72 * q);
    MultipleOfTen(72 * q);
  }

  lemma MultipleOfTen(x: int)
    ensures (600 * x) % 600 == 0
  {
  }

  /** The pending bucket opens at the first noon or midnight ahead; only the first bucket ever, which is also the last
      distribution, may be up to ten minutes old. */
  predicate OpensNext(rp: ReturnPool, now: int) {
    && rp.pendingTime % 43_200 == 0
    && if rp.pendingTime == rp.lastDist then rp.buckets == map[] && rp.pendingTime - 43_200 <= now < rp.pendingTime + 600
       else now < rp.pendingTime <= now + 43_200
  }

  /** A collected fee waits for the first noon or midnight ahead, together with the fees collected before it. */
  lemma FeeJoinsNextBucket(rp: ReturnPool, fee: int, now: int)
    requires Valid(rp, now) && ValidTime(now) && 0 < fee
    ensures var d := Distribute(rp, now);
            var r := Collect(d, fee, now);
            && r == d.(pendingProceeds := d.pendingProceeds + fee, proceeds := d.proceeds + fee, pendingTime := r.pendingTime)
            && OpensNext(r, now) && (d.pendingTime != TIME_MAX ==> r.pendingTime == d.pendingTime)
  {
    TimeFacts(now);
    DistributeValid(rp, now, now);
    assert Effective(now) <= Distribute(rp, now).lastDist;
    PendingIsAhead(Distribute(rp, now), now);
    hide Distribute, TotalRate, TotalUnpaid, ValidBuckets, Oldest;
  }

  /** After a distribution nothing that is due is pending any more. */
  lemma PendingIsAhead(d: ReturnPool, now: int)
    requires Valid(d, now) && ValidTime(now) && Effective(now) <= d.lastDist
    ensures d.pendingTime % 43_200 == 0 || d.pendingTime == TIME_MAX
    ensures d.lastDist < d.pendingTime ==> now < d.pendingTime
    ensures d.pendingTime == d.lastDist ==> d.pendingTime < now + 43_201 && now < d.pendingTime + 600 && d.buckets == map[]
  {
    hide ValidBuckets, TotalRate, TotalUnpaid, Oldest;
    TimeFacts(now);
    if d.pendingTime != TIME_MAX {
      HalfDaysAreIntervals(d.pendingTime);
    }
  }

  // ----- totals over buckets -----

  lemma SumFilter(buckets: map<int, int>, time: int, f: (int, int) -> int)
    ensures Sum(buckets, f) == Sum(LiveBuckets(buckets, time), f) + Sum(Expired(buckets, time), f)
  {
    SumSplit(buckets, LiveBuckets(buckets, time), Expired(buckets, time), f);
  }

  /** Advancing the clock lowers what is unpaid by the rate times the elapsed intervals. */
  lemma UnpaidShift(buckets: map<int, int>, t0: int, t1: int)
    requires t0 % DIST_INTERVAL == 0 && t1 % DIST_INTERVAL == 0
    requires forall k | k in buckets :: k % BUCKET_INTERVAL == 0
    ensures TotalUnpaid(buckets, t1) == TotalUnpaid(buckets, t0) - Elapsed(t1, t0) * TotalRate(buckets)
  {
    var c := Elapsed(t1, t0);
    forall k | k in buckets
      ensures UnpaidOf(t1)(k, buckets[k]) == UnpaidOf(t0)(k, buckets[k]) - c * RateOf()(k, buckets[k])
    {
      HalfDaysAreIntervals(k);
      assert Elapsed(t1, k) == Elapsed(t0, k) + c;
      var r, x := buckets[k], TOTAL_INTERVALS - Elapsed(t0, k);
      assert r * (x - c) == r * x - c * r;
    }
    SumLinear(buckets, UnpaidOf(t0), RateOf(), UnpaidOf(t1), c);
  }

  /** Every live bucket still owes a non-negative amount. */
  lemma UnpaidNonNegative(buckets: map<int, int>, time: int)
    requires ValidBuckets(buckets, time)
    ensures 0 <= TotalUnpaid(buckets, time) && 0 <= TotalRate(buckets)
  {
    forall k | k in buckets ensures 0 <= UnpaidOf(time)(k, buckets[k]) {
      var r, x := buckets[k], TOTAL_INTERVALS - Elapsed(time, k);
      assert 0 <= r * x;
    }
    SumNonNegative(buckets, UnpaidOf(time));
    SumNonNegative(buckets, RateOf());
  }

  // ----- properties -----

  /** A bucket never opens at a time that already has one, so opening never overwrites. */
  lemma PendingIsFresh(rp: ReturnPool, now: int)
    requires Valid(rp, now) && ValidTime(now)
    ensures rp.pendingTime !in rp.buckets
  {
  }

  /** The fee balance never goes below zero. */
  lemma ProceedsNonNegative(rp: ReturnPool, now: int)
    requires Valid(rp, now)
    ensures 0 <= rp.proceeds && 0 <= rp.rate
  {
    UnpaidNonNegative(rp.buckets, rp.lastDist);
  }

  lemma DistributeValid(rp: ReturnPool, now: int, later: int)
    requires Valid(rp, now) && now <= later && ValidTime(now) && ValidTime(later)
    ensures Valid(Distribute(rp, later), later)
  {
    TimeFacts(later);
    var time := Effective(later);
    if rp.lastDist < time {
      var live := LiveBuckets(WithPending(rp, time), time);
      assert ValidBuckets(live, time);
      UnpaidNonNegative(live, time);
    }
  }

  /** Validity survives the passage of time. */
  lemma LaterValid(rp: ReturnPool, now: int, later: int)
    requires Valid(rp, now) && now <= later
    ensures Valid(rp, later)
  {
  }

  lemma CollectValid(rp: ReturnPool, fee: int, now: int)
    requires Valid(rp, now) && ValidTime(now) && 0 < fee
    ensures Valid(Collect(rp, fee, now), now)
  {
    TimeFacts(now);
  }

  lemma FirstFeeValid(fee: int, now: int)
    requires ValidTime(now) && 0 < fee
    ensures var rp := FirstFee(fee, now);
            && Valid(rp, now) && OpensNext(rp, now)
            && rp.lastDist == rp.pendingTime && rp.proceeds == rp.pendingProceeds == fee && rp.buckets == map[]
  {
    TimeFacts(now);
  }

  /** What opening a bucket of `amount` at `start` releases by `time`: the remainder of the division at once,
      the rest in 4320 equal parts, one every ten minutes; everything after 30 days. */
  function PaidBy(amount: int, start: int, time: int): int
    requires start <= time
  {
    amount % 4320 + amount / 4320 * Min((time - start) / 600, 4320)
  }

  /** Each distribution pays, for every bucket, exactly its share of the elapsed intervals. */
  ghost function PaymentOf(last: int, time: int): (int, int) -> int {
    (start: int, rate: int) => rate * (Min((time - start) / 600, 4320) - (last - start) / 600)
  }

  lemma ReleasedBucketByBucket(rp: ReturnPool, now: int, later: int)
    requires Valid(rp, now) && now <= later && ValidTime(now) && ValidTime(later)
    requires rp.lastDist < Effective(later)
    ensures Released(rp, later) ==
            Sum(rp.buckets, PaymentOf(rp.lastDist, Effective(later)))
            + (if rp.pendingTime <= Effective(later)
               then PaidBy(rp.pendingProceeds, rp.pendingTime, Effective(later)) else 0)
  {
    TimeFacts(later);
    var time := Effective(later);
    OpenBucketsPay(rp.buckets, rp.lastDist, time);
    if rp.pendingTime <= time {
      PendingIsFresh(rp, now);
      OpeningPays(rp, time);
    } else {
      assert WithPending(rp, time) == rp.buckets;
    }
  }

  /** What the open buckets pay is the drop in what they owe, counting only those still live. */
  lemma OpenBucketsPay(buckets: map<int, int>, last: int, time: int)
    requires ValidBuckets(buckets, last)
    ensures TotalUnpaid(LiveBuckets(buckets, time), time)
         == TotalUnpaid(buckets, last) - Sum(buckets, PaymentOf(last, time))
  {
    var live, gone, left := LiveBuckets(buckets, time), Expired(buckets, time), LeftOf(time);
    SumFilter(buckets, time, left);
    SumSame(live, left, UnpaidOf(time));
    SumLinear(gone, RateOf(), RateOf(), left, 1);
    forall k | k in buckets
      ensures left(k, buckets[k]) == UnpaidOf(last)(k, buckets[k]) - 1 * PaymentOf(last, time)(k, buckets[k])
    {
      BucketPays(k, buckets[k], last, time);
    }
    SumLinear(buckets, UnpaidOf(last), PaymentOf(last, time), left, 1);
  }

  lemma BucketPays(start: int, rate: int, last: int, time: int)
    ensures LeftOf(time)(start, rate) == UnpaidOf(last)(start, rate) - PaymentOf(last, time)(start, rate)
  {
    var a, b := Elapsed(last, start), Min(Elapsed(time, start), TOTAL_INTERVALS);
    assert rate * (TOTAL_INTERVALS - b) == rate * (TOTAL_INTERVALS - a) - rate * (b - a);
    if Live(start, time) {
      assert UnpaidOf(time)(start, rate) == rate * (TOTAL_INTERVALS - b);
    } else {
      assert b == TOTAL_INTERVALS;
    }
  }

  ghost function LeftOf(time: int): (int, int) -> int {
    (start: int, rate: int) => if Live(start, time) then UnpaidOf(time)(start, rate) else 0
  }

  /** A bucket that just opened still owes what PaidBy has not released. */
  lemma OpenedOwes(amount: int, start: int, time: int)
    requires start <= time && start % BUCKET_INTERVAL == 0 && time % DIST_INTERVAL == 0
    ensures amount == PaidBy(amount, start, time)
                      + (if Live(start, time) then UnpaidOf(time)(start, amount / TOTAL_INTERVALS) else 0)
  {
    var rate, e := amount / TOTAL_INTERVALS, Elapsed(time, start);
    assert rate * (TOTAL_INTERVALS - e) == rate * TOTAL_INTERVALS - rate * e;
    assert amount == rate * TOTAL_INTERVALS + amount % TOTAL_INTERVALS;
  }

  lemma OpeningPays(rp: ReturnPool, time: int)
    requires rp.pendingTime !in rp.buckets && rp.pendingTime <= time
    requires rp.pendingTime % BUCKET_INTERVAL == 0 && time % DIST_INTERVAL == 0
    ensures rp.pendingProceeds - TotalUnpaid(LiveBuckets(WithPending(rp, time), time), time) ==
            PaidBy(rp.pendingProceeds, rp.pendingTime, time) - TotalUnpaid(LiveBuckets(rp.buckets, time), time)
  {
    var k, rate := rp.pendingTime, rp.pendingProceeds / TOTAL_INTERVALS;
    OpenedOwes(rp.pendingProceeds, k, time);
    var live := LiveBuckets(rp.buckets, time);
    if Live(k, time) {
      assert LiveBuckets(WithPending(rp, time), time) == live[k := rate];
      SumPut(live, k, rate, UnpaidOf(time));
    } else {
      assert LiveBuckets(WithPending(rp, time), time) == live;
    }
  }

  lemma PaymentNonNegative(buckets: map<int, int>, last: int, time: int)
    requires ValidBuckets(buckets, last) && last <= time && last % DIST_INTERVAL == 0
    ensures 0 <= Sum(buckets, PaymentOf(last, time))
  {
    forall k | k in buckets ensures 0 <= PaymentOf(last, time)(k, buckets[k]) {
      var r, d := buckets[k], Min(Elapsed(time, k), TOTAL_INTERVALS) - Elapsed(last, k);
      assert 0 <= d;
      assert 0 <= r * d;
    }
    SumNonNegative(buckets, PaymentOf(last, time));
  }

  lemma PaidByNonNegative(amount: int, start: int, time: int)
    requires 0 <= amount && start <= time
    ensures 0 <= PaidBy(amount, start, time)
  {
    assert 0 <= amount / TOTAL_INTERVALS * Min(Elapsed(time, start), TOTAL_INTERVALS);
  }

  /** A distribution never takes tokens back. */
  lemma ReleasedNonNegative(rp: ReturnPool, now: int, later: int)
    requires Valid(rp, now) && now <= later && ValidTime(now) && ValidTime(later)
    ensures 0 <= Released(rp, later)
  {
    var time := Effective(later);
    if rp.lastDist < time {
      ReleasedBucketByBucket(rp, now, later);
      PaymentNonNegative(rp.buckets, rp.lastDist, time);
      if rp.pendingTime <= time {
        PaidByNonNegative(rp.pendingProceeds, rp.pendingTime, time);
      }
    }
  }

  /** Thirty days after the newest bucket opens, every fee has been paid out in full. */
  lemma PaidInFull(rp: ReturnPool, now: int, later: int)
    requires Valid(rp, now) && now <= later && ValidTime(now) && ValidTime(later)
    requires rp.pendingTime == TIME_MAX || rp.pendingTime + 30 * 86_400 <= Effective(later)
    requires forall k | k in rp.buckets :: k + 30 * 86_400 <= Effective(later)
    requires rp.lastDist < Effective(later)
    ensures Distribute(rp, later).proceeds == 0 && Released(rp, later) == rp.proceeds
    ensures Distribute(rp, later).buckets == map[]
  {
    assert LiveBuckets(WithPending(rp, Effective(later)), Effective(later)) == map[];
  }

  /** Lazy equals eager: a distribution at t1 followed by one at t2 leaves the pool that one
      distribution at t2 leaves, and the two pay the same in total. */
  lemma LazyEqualsEager(rp: ReturnPool, t0: int, t1: int, t2: int)
    requires Valid(rp, t0) && t0 <= t1 <= t2 && ValidTime(t0) && ValidTime(t1) && ValidTime(t2)
    ensures Distribute(Distribute(rp, t1), t2) == Distribute(rp, t2)
    ensures Released(rp, t1) + Released(Distribute(rp, t1), t2) == Released(rp, t2)
  {
    EffectiveGrows(t1, t2);
    if rp.lastDist < Effective(t1) < Effective(t2) {
      SameLive(rp, t1, Effective(t2));
    }
    hide Effective, WithPending, LiveBuckets, Oldest, TotalRate, TotalUnpaid, Valid;
  }

  lemma EffectiveGrows(t1: int, t2: int)
    requires ValidTime(t1) && ValidTime(t2) && t1 <= t2
    ensures Effective(t1) <= Effective(t2) < TIME_MAX
  {
  }

  /** What is live later is the same whether or not a distribution happened in between. */
  lemma SameLive(rp: ReturnPool, t1: int, e2: int)
    requires rp.lastDist < Effective(t1) <= e2 < TIME_MAX
    ensures LiveBuckets(WithPending(Distribute(rp, t1), e2), e2) == LiveBuckets(WithPending(rp, e2), e2)
  {
    hide Oldest, TotalRate, TotalUnpaid, Effective;
  }

  lemma PendingNonNegative(rp: ReturnPool, now: int)
    requires Valid(rp, now)
    ensures 0 <= rp.pendingProceeds
  {
  }

  // ----- how many buckets there are -----

  /** In a window of `n` half days there are at most `n` noons and midnights. */
  lemma {:induction false} HalfDaysInWindow(times: set<int>, last: int, n: nat)
    requires forall k | k in times :: k % BUCKET_INTERVAL == 0 && last - n * BUCKET_INTERVAL < k <= last
    ensures |times| <= n
    decreases n
  {
    if n == 0 {
      if times != {} {
        var k := SomeMember(times);
        assert false;
      }
    } else {
      var top := last - last % BUCKET_INTERVAL;
      HalfDaysInWindow(times - {top}, last - BUCKET_INTERVAL, n - 1);
      assert top !in times ==> times - {top} == times;
    }
  }

  /** Buckets open at noons and midnights only, so at most sixty are live at a time. */
  lemma BucketsAreHalfDays(rp: ReturnPool, now: int)
    requires Valid(rp, now)
    ensures forall k | k in rp.buckets :: k % 43_200 == 0 && rp.lastDist - 30 * 86_400 < k <= rp.lastDist
    ensures rp.pendingTime == TIME_MAX || rp.pendingTime % 43_200 == 0
    ensures |rp.buckets| <= 60
  {
    assert |rp.buckets.Keys| == |rp.buckets|;
    HalfDaysInWindow(rp.buckets.Keys, rp.lastDist, 60);
  }
}
