/** The totpoolvotes table as the contract updates it. Proved against module VoteRecords. */
module VoteRecordsContract {
  import opened Tables
  import opened Resources
  import opened Election
  import ElectionContract
  import V = PoolVotes
  import R = VoteRecords

  lemma WeightedNext(weights: seq<real>, votes: seq<real>, i: nat)
    requires |weights| == |votes| && i < |votes|
    ensures R.Weighted(weights[..i + 1], votes[..i + 1]) == R.Weighted(weights[..i], votes[..i]) + votes[i] * weights[i]
  {
    assert weights[..i + 1][..i] == weights[..i] && votes[..i + 1][..i] == votes[..i];
  }

  /** calc_votes. */
  method CalcVotes(weights: seq<real>, votes: seq<real>) returns (ok: bool, result: real)
    ensures ok <==> |votes| == |weights|
    ensures ok ==> result == R.Weighted(weights, votes)
  {
    result := 0.0;
    if |votes| != |weights| {
      return false, result;
    }
    var i := 0;
    while i < |weights|
      invariant 0 <= i <= |weights| && result == R.Weighted(weights[..i], votes[..i])
    {
      WeightedNext(weights, votes, i);
      result := result + votes[i] * weights[i];
      i := i + 1;
    }
    assert weights[..i] == weights && votes[..i] == votes;
    ok := true;
  }

  class VoteRecordsContract {
    var producers: map<Name, V.Producer>
    var records: Rows
    const weights: seq<real>

    constructor (weights: seq<real>, producers: map<Name, V.Producer>)
      requires forall q | q in producers :: producers[q].votes.None?
      ensures this.weights == weights && this.producers == producers && records == map[]
      ensures R.Fits(records, this.producers)
    {
      this.weights, this.producers, records := weights, producers, map[];
    }

    /** Recording one producer; a missing row or votes for another number of pools would abort. */
    method RecordVotes(q: Name) returns (ok: bool)
      modifies `records
      ensures ok <==> old(R.Recordable(records, producers, weights, q))
      ensures ok ==> records == old(R.Record(records, producers, weights, [q]))
      ensures !ok ==> records == old(records)
    {
      if q !in records || q !in producers || producers[q].votes.None? {
        return false;
      }
      var result;
      ok, result := CalcVotes(weights, producers[q].votes.value);
      if ok {
        records := records[q := records[q].(votes := result)];
        assert records == old(R.Record(records, producers, weights, [q]));
      }
    }

    /** updatevotes. */
    method UpdateVotes(q: Name) returns (ok: bool)
      requires R.Fits(records, producers) && forall p | p in producers && producers[p].votes.Some? :: |producers[p].votes.value| == |weights|
      modifies `records
      ensures ok <==> q in producers && producers[q].active && producers[q].votes.Some?
      ensures ok ==> old(R.Recordable(records, producers, weights, q)) && records == old(R.Record(records, producers, weights, [q]))
    {
      if q !in producers || !producers[q].active || producers[q].votes.None? {
        return false;
      }
      ok := RecordVotes(q);
    }

    /** update_total_pool_votes: the top of the table, as recorded before, is recorded anew. */
    method UpdateTotalPoolVotes(idx: seq<Name>, n: int)
      requires IsIndex(idx, records)
      requires R.Fits(records, producers) && forall p | p in producers && producers[p].votes.Some? :: |producers[p].votes.value| == |weights|
      modifies `records
      ensures var top := Scan(idx, old(records), {}, n);
              && (forall q | q in top :: old(R.Recordable(records, producers, weights, q)))
              && records == old(R.Record(records, producers, weights, top))
    {
      hide IsIndex, Scan, R.Weighted;
      R.ScanIsRecorded(idx, records, n);
      ghost var before := records;
      var top := ElectionContract.TopActiveProducers(idx, records, n);
      var i := 0;
      while i < |top|
        invariant 0 <= i <= |top| && records.Keys == before.Keys
        invariant records == R.Record(before, producers, weights, top[..i])
      {
        var q := top[i];
        assert q in top && R.Recordable(before, producers, weights, q);
        var ok := RecordVotes(q);
        RecordNext(before, producers, weights, top, i);
        i := i + 1;
      }
      assert top[..i] == top;
    }

    /** enable_prod_pool_votes, with the producer registered. */
    method EnableProducer(q: Name)
      requires R.Fits(records, producers)
      modifies `producers, `records
      ensures R.Enable(old(records), old(producers), q) == Some(records)
      ensures producers.Keys == old(producers).Keys + {q} && producers[q].active && producers[q].votes.Some?
      ensures producers == old(producers)[q := producers[q]]
      ensures q in old(producers) && old(producers)[q].votes.Some? ==> producers[q].votes == old(producers)[q].votes
      ensures R.Fits(records, producers)
    {
      if q in producers && producers[q].votes.Some? {
        records := records[q := records[q].(active := true)];
        producers := producers[q := producers[q].(active := true)];
      } else {
        records := records[q := Candidate(true, 0.0)];
        producers := producers[q := V.Producer(true, Some(seq(|weights|, i => 0.0)))];
      }
    }

    /** deactivate_producer. */
    method DeactivateProducer(q: Name) returns (ok: bool)
      requires R.Fits(records, producers)
      modifies `producers, `records
      ensures ok <==> q in old(producers)
      ensures ok ==> records == R.Deactivate(old(records), q) && producers == old(producers)[q := old(producers)[q].(active := false)]
      ensures R.Fits(records, producers)
    {
      if q !in producers {
        return false;
      }
      producers := producers[q := producers[q].(active := false)];
      if q in records {
        records := records[q := records[q].(active := false)];
      }
      return true;
    }
  }

  lemma RecordNext(before: Rows, producers: map<Name, V.Producer>, weights: seq<real>, top: seq<Name>, i: nat)
    requires i < |top| && forall q | q in top :: R.Recordable(before, producers, weights, q)
    ensures var done := R.Record(before, producers, weights, top[..i]);
            && R.Recordable(done, producers, weights, top[i])
            && R.Record(done, producers, weights, [top[i]]) == R.Record(before, producers, weights, top[..i + 1])
  {
    hide R.Weighted;
    assert top[i] in top && top[..i + 1] == top[..i] + [top[i]];
  }
}
