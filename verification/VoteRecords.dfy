/** The totpoolvotes table: for each producer with pool votes a recorded weighted sum of them, which may be out of date, and
    which the election reads. */
module VoteRecords {
  import opened Tables
  import opened Totals
  import opened Resources
  import opened Election
  import S = StakingPools
  import SG = StakingGuarantees
  import V = PoolVotes
  import VI = PoolVotesInvariants
  import W = VoteWeight
  import C = PoolSystem

  /** `weights` are the vote weights of the pools, which never change. */
  datatype State = State(chain: C.Chain, weights: seq<real>, records: Rows)

  /** calc_votes. */
  function Weighted(weights: seq<real>, votes: seq<real>): real
    requires |weights| == |votes|
  {
    if votes == [] then 0.0 else
    var n := |votes| - 1;
    Weighted(weights[..n], votes[..n]) + votes[n] * weights[n]
  }

  /** A producer's votes can be recorded if it has a record, and pool votes for every pool. */
  predicate Recordable(records: Rows, producers: map<Name, V.Producer>, weights: seq<real>, q: Name) {
    && q in records && q in producers && producers[q].votes.Some? && |producers[q].votes.value| == |weights|
  }

  /** Records the current votes of the producers in `list`. */
  function Record(records: Rows, producers: map<Name, V.Producer>, weights: seq<real>, list: seq<Name>): Rows
    requires forall q | q in list :: Recordable(records, producers, weights, q)
  {
    map q | q in records ::
      if q in list then
        assert Recordable(records, producers, weights, q);
        records[q].(votes := Weighted(weights, producers[q].votes.value))
      else records[q]
  }

  /** What registering a producer does to the table; a missing or a second row would abort. */
  function Enable(records: Rows, producers: map<Name, V.Producer>, q: Name): Option<Rows> {
    var upgraded := q in producers && producers[q].votes.Some?;
    var _ :- Need(q in records <==> upgraded);
    Some(records[q := Candidate(true, if upgraded then records[q].votes else 0.0)])
  }

  function Deactivate(records: Rows, q: Name): Rows {
    if q in records then records[q := records[q].(active := false)] else records
  }

  datatype Action =
    | PoolCall(a: C.Action)
    | UpdateVotes(producer: Name)
    | UpdatePay(idx: seq<Name>, n: nat)

  /** `idx` is the table's byvotes index. */
  ghost function Step(s: State, a: Action): Option<State>
    requires S.Shaped(s.chain.pools) && V.WellFormed(s.chain.votes)
  {
    var producers := s.chain.votes.producers;
    match a
    case PoolCall(p) =>
      var chain :- C.Step(s.chain, p);
      var records :- if p.Enable? then Enable(s.records, producers, p.producer) else Some(s.records);
      Some(s.(chain := chain, records := if p.Deactivate? then Deactivate(records, p.producer) else records))
    case UpdateVotes(q) =>
      var _ :- Need(q in producers && producers[q].active && producers[q].votes.Some?);
      var _ :- Need(Recordable(s.records, producers, s.weights, q));
      Some(s.(records := Record(s.records, producers, s.weights, [q])))
    case UpdatePay(idx, n) =>
      var top := Scan(idx, s.records, {}, n);
      var _ :- Need(IsIndex(idx, s.records) && forall q | q in top :: Recordable(s.records, producers, s.weights, q));
      Some(s.(records := Record(s.records, producers, s.weights, top)))
  }

  // ----- what every action keeps -----

  /** One record for each producer with pool votes, as active as the producer, and never negative. */
  ghost predicate Fits(records: Rows, producers: map<Name, V.Producer>) {
    && (forall q :: q in records <==> q in producers && producers[q].votes.Some?)
    && (forall q | q in records :: records[q].active == producers[q].active && 0.0 <= records[q].votes)
  }

  ghost predicate Inv(s: State) {
    && C.Inv(s.chain) && |s.weights| == s.chain.votes.pools
    && (forall i | 0 <= i < |s.weights| :: 0.0 < s.weights[i])
    && Fits(s.records, s.chain.votes.producers)
  }

  lemma {:induction false} WeightedNonNegative(weights: seq<real>, votes: seq<real>)
    requires |weights| == |votes|
    requires forall i | 0 <= i < |votes| :: 0.0 <= votes[i] && 0.0 < weights[i]
    ensures 0.0 <= Weighted(weights, votes)
    decreases |votes|
  {
    if votes != [] {
      var n := |votes| - 1;
      WeightedNonNegative(weights[..n], votes[..n]);
      SG.RealTimes(votes[n], weights[n]);
    }
  }

  // ----- what is recorded -----

  /** A pool's votes count with that pool's weight: changing them moves the weighted sum by the change times the weight. */
  lemma {:induction false} EachPoolCounts(weights: seq<real>, votes: seq<real>, k: nat, x: real)
    requires |weights| == |votes| && k < |votes|
    ensures Weighted(weights, votes[k := x]) == Weighted(weights, votes) + (x - votes[k]) * weights[k]
  {
    var n := |votes| - 1;
    if k < n {
      EachPoolCounts(weights[..n], votes[..n], k, x);
      assert votes[k := x][..n] == votes[..n][k := x];
    } else {
      assert votes[k := x][..n] == votes[..n];
      TimesMinus(x, votes[k], weights[k]);
    }
  }

  lemma TimesMinus(x: real, y: real, w: real)
    ensures (x - y) * w == x * w - y * w
  {
  }

  lemma {:induction false} NoVotesNoWeight(weights: seq<real>, votes: seq<real>)
    requires |weights| == |votes| && forall i | 0 <= i < |votes| :: votes[i] == 0.0
    ensures Weighted(weights, votes) == 0.0
  {
    if votes != [] {
      NoVotesNoWeight(weights[..|votes| - 1], votes[..|votes| - 1]);
    }
  }

  /** What one voter adds to a producer's record. */
  ghost function WeightedFor(q: Name, weights: seq<real>): (Name, V.Voter) -> real {
    (n: Name, v: V.Voter) =>
      if v.proxy.None? && q in v.producers && |v.last| == |weights| then Weighted(weights, v.last) else 0.0
  }

  /** The first `k` pools of it. */
  ghost function PrefixFor(q: Name, weights: seq<real>, k: nat): (Name, V.Voter) -> real
    requires k <= |weights|
  {
    (n: Name, v: V.Voter) =>
      if v.proxy.None? && q in v.producers && |v.last| == |weights| then Weighted(weights[..k], v.last[..k]) else 0.0
  }

  lemma WeightedNext(weights: seq<real>, votes: seq<real>, k: nat)
    requires |weights| == |votes| && k < |votes|
    ensures Weighted(weights[..k + 1], votes[..k + 1]) == Weighted(weights[..k], votes[..k]) + votes[k] * weights[k]
  {
    assert weights[..k + 1][..k] == weights[..k] && votes[..k + 1][..k] == votes[..k];
  }

  /** What a voter adds to a producer's record through one pool. */
  ghost function PoolPart(q: Name, weights: seq<real>, k: nat): (Name, V.Voter) -> real
    requires k < |weights|
  {
    (n: Name, v: V.Voter) => Times(V.Backing(q, k)(n, v), weights[k])
  }

  lemma {:induction false} PrefixIsSum(v: V.State, q: Name, weights: seq<real>, k: nat)
    requires V.Linked(v) && |weights| == v.pools && k <= v.pools && q in v.producers && v.producers[q].votes.Some?
    ensures |v.producers[q].votes.value| == v.pools
    ensures Weighted(weights[..k], v.producers[q].votes.value[..k]) == Total(v.voters, PrefixFor(q, weights, k))
    decreases k
  {
    hide Weighted, V.WellFormed, V.ProxiesLinked, V.Backing;
    VI.ProducerSizes(v, q);
    if k == 0 {
      NoPools(v.voters, q, weights, v.producers[q].votes.value);
    } else {
      PrefixIsSum(v, q, weights, k - 1);
      WeightedNext(weights, v.producers[q].votes.value, k - 1);
      NextPool(v, q, weights, k - 1);
    }
  }

  lemma NoPools(voters: map<Name, V.Voter>, q: Name, weights: seq<real>, votes: seq<real>)
    ensures Weighted(weights[..0], votes[..0]) == 0.0 == Total(voters, PrefixFor(q, weights, 0))
  {
    TotalZero<Name, V.Voter>(voters, PrefixFor(q, weights, 0));
  }

  lemma NextPool(v: V.State, q: Name, weights: seq<real>, k: nat)
    requires V.Linked(v) && |weights| == v.pools && k < v.pools && q in v.producers && v.producers[q].votes.Some?
    requires |v.producers[q].votes.value| == v.pools
    ensures Total(v.voters, PrefixFor(q, weights, k + 1))
         == Total(v.voters, PrefixFor(q, weights, k)) + v.producers[q].votes.value[k] * weights[k]
  {
    hide Weighted, V.WellFormed, V.Linked, V.Backing, PrefixFor, PoolPart, Times;
    LinkedAt(v, q, k);
    TimesIs(v.producers[q].votes.value[k], weights[k]);
    PartIsScaled(v.voters, q, weights, k);
    forall n | n in v.voters
      ensures PrefixFor(q, weights, k + 1)(n, v.voters[n]) == PrefixFor(q, weights, k)(n, v.voters[n]) + PoolPart(q, weights, k)(n, v.voters[n])
    {
      VoterPrefix(v, n, q, weights, k);
    }
    TotalSum<Name, V.Voter>(v.voters, PrefixFor(q, weights, k), PoolPart(q, weights, k), PrefixFor(q, weights, k + 1));
  }

  lemma LinkedAt(v: V.State, q: Name, k: nat)
    requires V.Linked(v) && q in v.producers && v.producers[q].votes.Some? && k < v.pools
    ensures V.WellFormed(v) && |v.producers[q].votes.value| == v.pools
    ensures v.producers[q].votes.value[k] == Total(v.voters, V.Backing(q, k))
  {
    VI.ProducerSizes(v, q);
  }

  lemma PartIsScaled(voters: map<Name, V.Voter>, q: Name, weights: seq<real>, k: nat)
    requires k < |weights|
    ensures Total(voters, PoolPart(q, weights, k)) == Times(Total(voters, V.Backing(q, k)), weights[k])
  {
    hide Times, V.Backing;
    TotalScaled<Name, V.Voter>(voters, V.Backing(q, k), PoolPart(q, weights, k), weights[k]);
  }

  lemma VoterPrefix(v: V.State, n: Name, q: Name, weights: seq<real>, k: nat)
    requires V.WellFormed(v) && n in v.voters && |weights| == v.pools && k < v.pools
    ensures PrefixFor(q, weights, k + 1)(n, v.voters[n]) == PrefixFor(q, weights, k)(n, v.voters[n]) + PoolPart(q, weights, k)(n, v.voters[n])
  {
    assert V.ValidVoter(v, n, v.voters[n]);
    VoterPrefixOf(n, v.voters[n], q, weights, k);
  }

  lemma VoterPrefixOf(n: Name, v: V.Voter, q: Name, weights: seq<real>, k: nat)
    requires |v.last| == |weights| && k < |weights|
    ensures PrefixFor(q, weights, k + 1)(n, v) == PrefixFor(q, weights, k)(n, v) + PoolPart(q, weights, k)(n, v)
  {
    WeightedNext(weights, v.last, k);
    TimesIs(v.last[k], weights[k]);
    TimesZero(weights[k]);
    hide Weighted, Times;
    if v.proxy.None? && q in v.producers {
      assert PrefixFor(q, weights, k + 1)(n, v) == Weighted(weights[..k + 1], v.last[..k + 1]);
      assert PrefixFor(q, weights, k)(n, v) == Weighted(weights[..k], v.last[..k]);
      assert V.Backing(q, k)(n, v) == v.last[k];
      assert PoolPart(q, weights, k)(n, v) == Times(v.last[k], weights[k]);
    } else {
      assert V.Backing(q, k)(n, v) == 0.0;
      assert PoolPart(q, weights, k)(n, v) == 0.0;
    }
  }

  lemma TimesIs(x: real, c: real)
    ensures Times(x, c) == x * c
  {
  }

  /** In every reachable state, recording a producer's votes writes the sum, over the voters that approve it, of the weighted
      shares each of them votes with; nobody else's record changes. */
  lemma RecordIsWeightOfVoters(s: State, actions: seq<Action>, q: Name)
    requires Initial(s) && q in Run(s, actions).records
    ensures var r := Run(s, actions);
            && Recordable(r.records, r.chain.votes.producers, r.weights, q)
            && var records := Record(r.records, r.chain.votes.producers, r.weights, [q]);
               && records[q] == r.records[q].(votes := Total(r.chain.votes.voters, WeightedFor(q, r.weights)))
               && forall p | p in r.records && p != q :: records[p] == r.records[p]
  {
    InitialInv(s);
    RunKeeps(s, actions);
    var r := Run(s, actions);
    CanRecord(r, q);
    RecordedSum(r, q);
    hide Inv, Weighted, Run;
  }

  lemma RecordedSum(s: State, q: Name)
    requires Inv(s) && q in s.chain.votes.producers && s.chain.votes.producers[q].votes.Some?
    requires |s.chain.votes.producers[q].votes.value| == |s.weights| == s.chain.votes.pools
    ensures Weighted(s.weights, s.chain.votes.producers[q].votes.value) == Total(s.chain.votes.voters, WeightedFor(q, s.weights))
  {
    var v, k, votes := s.chain.votes, |s.weights|, s.chain.votes.producers[q].votes.value;
    ChainIsLinked(s.chain);
    hide C.Inv, Fits, Weighted, V.Linked, V.WellFormed, PrefixFor, WeightedFor;
    PrefixIsSum(v, q, s.weights, k);
    assert s.weights[..k] == s.weights && votes[..k] == votes;
    forall n | n in v.voters ensures PrefixFor(q, s.weights, k)(n, v.voters[n]) == WeightedFor(q, s.weights)(n, v.voters[n]) {
      AllPools(n, v.voters[n], q, s.weights);
    }
    TotalSame<Name, V.Voter>(v.voters, PrefixFor(q, s.weights, k), WeightedFor(q, s.weights));
  }

  lemma AllPools(n: Name, v: V.Voter, q: Name, weights: seq<real>)
    ensures PrefixFor(q, weights, |weights|)(n, v) == WeightedFor(q, weights)(n, v)
  {
    assert weights[..|weights|] == weights;
    if |v.last| == |weights| {
      assert v.last[..|weights|] == v.last;
    }
  }

  lemma ChainIsLinked(c: C.Chain)
    requires C.Inv(c)
    ensures V.Linked(c.votes)
  {
    hide SG.Funded, C.Shared;
  }

  /** Every producer with pool votes can be recorded, and what is recorded is not negative. */
  lemma CanRecord(s: State, q: Name)
    requires Inv(s) && q in s.chain.votes.producers && s.chain.votes.producers[q].votes.Some?
    ensures Recordable(s.records, s.chain.votes.producers, s.weights, q)
    ensures 0.0 <= Weighted(s.weights, s.chain.votes.producers[q].votes.value)
  {
    var c := s.chain;
    C.PoolCount(c);
    VI.ProducerSizes(c.votes, q);
    hide C.Inv, V.Inv;
    var votes := c.votes.producers[q].votes.value;
    forall i: nat | i < |votes| ensures 0.0 <= votes[i] {
      C.SameShares(c, i);
      W.ProducerVotesBounded(c.votes, q, i);
    }
    WeightedNonNegative(s.weights, votes);
  }

  lemma RecordKeeps(s: State, list: seq<Name>)
    requires Inv(s) && forall q | q in list :: q in s.records
    ensures forall q | q in list :: Recordable(s.records, s.chain.votes.producers, s.weights, q)
    ensures Inv(s.(records := Record(s.records, s.chain.votes.producers, s.weights, list)))
  {
    hide C.Inv, Weighted;
    forall q | q in list
      ensures Recordable(s.records, s.chain.votes.producers, s.weights, q)
      ensures 0.0 <= Weighted(s.weights, s.chain.votes.producers[q].votes.value)
    {
      CanRecord(s, q);
    }
  }

  lemma ScanIsRecorded(idx: seq<Name>, records: Rows, n: int)
    requires IsIndex(idx, records)
    ensures forall q | q in Scan(idx, records, {}, n) :: q in records
  {
    ScanIsDistinct(idx, records, {}, n);
  }

  lemma SameRegistrationFits(records: Rows, p: map<Name, V.Producer>, r: map<Name, V.Producer>)
    requires Fits(records, p) && C.SameRegistration(p, r)
    ensures Fits(records, r)
  {
  }

  lemma ChainKeeps(c: C.Chain, p: C.Action)
    requires C.Inv(c) && C.Step(c, p).Some?
    ensures C.Inv(C.Step(c, p).value) && C.Step(c, p).value.votes.pools == c.votes.pools
  {
    C.StepKeeps(c, p);
    C.InvReady(c);
    C.InvReady(C.Step(c, p).value);
    C.PoolsTouch(c, p);
  }

  /** The producers after registering or deactivating one. */
  lemma ProducersAfter(c: C.Chain, p: C.Action)
    requires C.Inv(c) && C.Step(c, p).Some?
    ensures p.Enable? ==> C.Step(c, p).value.votes == V.EnableProducer(c.votes, p.producer)
    ensures p.Deactivate? ==> V.DeactivateProducer(c.votes, p.producer) == Some(C.Step(c, p).value.votes)
    ensures !p.Enable? && !p.Deactivate? ==> C.SameRegistration(c.votes.producers, C.Step(c, p).value.votes.producers)
  {
    if !p.Enable? && !p.Deactivate? {
      C.RegistrationStays(c, p);
    }
  }

  lemma EnableFits(records: Rows, v: V.State, q: Name)
    requires Fits(records, v.producers) && Enable(records, v.producers, q).Some?
    ensures Fits(Enable(records, v.producers, q).value, V.EnableProducer(v, q).producers)
  {
  }

  lemma DeactivateFits(records: Rows, v: V.State, q: Name)
    requires Fits(records, v.producers) && V.DeactivateProducer(v, q).Some?
    ensures Fits(Deactivate(records, q), V.DeactivateProducer(v, q).value.producers)
  {
  }

  lemma PoolCallKeeps(s: State, p: C.Action)
    requires Inv(s) && S.Shaped(s.chain.pools) && V.WellFormed(s.chain.votes) && Step(s, PoolCall(p)).Some?
    ensures Inv(Step(s, PoolCall(p)).value)
  {
    hide C.Inv, C.Step, C.SameRegistration, Fits, Enable, Deactivate, V.EnableProducer, V.DeactivateProducer, S.Shaped, V.WellFormed;
    ChainKeeps(s.chain, p);
    ProducersAfter(s.chain, p);
    var producers := s.chain.votes.producers;
    if p.Enable? {
      EnableFits(s.records, s.chain.votes, p.producer);
    } else if p.Deactivate? {
      DeactivateFits(s.records, s.chain.votes, p.producer);
    } else {
      SameRegistrationFits(s.records, producers, C.Step(s.chain, p).value.votes.producers);
    }
  }

  lemma StepKeeps(s: State, a: Action)
    requires Inv(s) && S.Shaped(s.chain.pools) && V.WellFormed(s.chain.votes) && Step(s, a).Some?
    ensures Inv(Step(s, a).value)
  {
    hide Inv, Scan, Record, Recordable;
    match a
    case PoolCall(p) => PoolCallKeeps(s, p);
    case UpdateVotes(q) => UpdateKeeps(s, q);
    case UpdatePay(idx, n) =>
      ScanIsRecorded(idx, s.records, n);
      RecordKeeps(s, Scan(idx, s.records, {}, n));
  }

  lemma UpdateKeeps(s: State, q: Name)
    requires Inv(s) && Recordable(s.records, s.chain.votes.producers, s.weights, q)
    ensures Inv(s.(records := Record(s.records, s.chain.votes.producers, s.weights, [q])))
  {
    RecordKeeps(s, [q]);
  }

  /** Registering a producer keeps a recorded vote and starts a new record at zero; deactivating keeps the vote. */
  lemma RecordsAreKept(records: Rows, producers: map<Name, V.Producer>, q: Name)
    ensures var r := Enable(records, producers, q); r.Some? ==>
              && q in r.value && r.value[q] == Candidate(true, if q in records then records[q].votes else 0.0)
              && forall p | p in records && p != q :: p in r.value && r.value[p] == records[p]
    ensures var r := Deactivate(records, q);
            && r.Keys == records.Keys
            && forall p | p in records :: r[p] == Candidate(records[p].active && p != q, records[p].votes)
  {
  }

  // ----- runs -----

  /** Before anyone has voted or staked; producers registered before have no record yet. */
  ghost predicate Initial(s: State) {
    && C.Initial(s.chain) && |s.weights| == s.chain.votes.pools && s.records == map[]
    && forall i | 0 <= i < |s.weights| :: 0.0 < s.weights[i]
  }

  lemma InitialInv(s: State)
    requires Initial(s)
    ensures Inv(s)
  {
    C.InitialInv(s.chain);
  }

  ghost function Next(s: State, a: Action): State {
    if S.Shaped(s.chain.pools) && V.WellFormed(s.chain.votes) && Step(s, a).Some? then Step(s, a).value else s
  }

  ghost function Run(s: State, actions: seq<Action>): State
    decreases |actions|
  {
    if actions == [] then s else Run(Next(s, actions[0]), actions[1..])
  }

  lemma {:induction false} RunKeeps(s: State, actions: seq<Action>)
    requires Inv(s)
    ensures Inv(Run(s, actions))
    decreases |actions|
  {
    hide Inv, Step, S.Shaped, V.WellFormed;
    if actions != [] {
      if S.Shaped(s.chain.pools) && V.WellFormed(s.chain.votes) && Step(s, actions[0]).Some? {
        StepKeeps(s, actions[0]);
      }
      RunKeeps(Next(s, actions[0]), actions[1..]);
    }
  }

  /** In every reachable state no recorded vote is negative, so the scans of the table find exactly its top. */
  lemma RecordsAreClean(s: State, actions: seq<Action>)
    requires Initial(s)
    ensures Fits(Run(s, actions).records, Run(s, actions).chain.votes.producers) && Clean(Run(s, actions).records)
  {
    InitialInv(s);
    RunKeeps(s, actions);
    NonNegativeIsClean(Run(s, actions).records);
  }

  /** In every reachable state a producer's votes can be recorded exactly if it is active and upgraded to pool votes, and
      registering never fails: the lookups, the new row and the check for corruption are never in the way. */
  lemma RecordingNeverFails(s: State, actions: seq<Action>, q: Name)
    requires Initial(s)
    ensures var r := Run(s, actions);
            && S.Shaped(r.chain.pools) && V.WellFormed(r.chain.votes)
            && (Step(r, UpdateVotes(q)).Some? <==>
                 var p := r.chain.votes.producers; q in p && p[q].active && p[q].votes.Some?)
            && Step(r, PoolCall(C.Enable(q))).Some?
  {
    InitialInv(s);
    RunKeeps(s, actions);
    var r := Run(s, actions);
    C.InvReady(r.chain);
    if q in r.chain.votes.producers && r.chain.votes.producers[q].votes.Some? {
      CanRecord(r, q);
    }
  }

  /** With records as any run leaves them, and no negative votes on inactive rows of the producers table, the elected
      producers are the pools' top choices followed by the top of the rest. */
  lemma ElectedAreTop(s: State, actions: seq<Action>, idx: seq<Name>, rows: Rows, poolIdx: seq<Name>, seats: nat)
    requires Initial(s) && IsIndex(idx, rows) && IsIndex(poolIdx, Run(s, actions).records) && seats <= SCHEDULE
    requires forall a | a in rows && !rows[a].active :: 0.0 <= rows[a].votes
    ensures var records := Run(s, actions).records;
            IsElected(Elected(idx, rows, poolIdx, records, seats), rows, records, seats)
  {
    hide Inv, IsElected, Elected, IsIndex, Clean;
    RecordsAreClean(s, actions);
    NonNegativeIsClean(rows);
    CleanElection(idx, rows, poolIdx, Run(s, actions).records, seats);
  }
}
