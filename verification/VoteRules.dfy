/** Which pool votes are accepted, and what an accepted action writes: the voter's own choice, and nobody else's. */
module VoteRules {
  import opened Tables
  import opened Resources
  import opened PoolVotes

  /** A producer that can be voted for anew: registered, active, and with votes for every pool. */
  predicate Votable(s: State, q: Name) {
    q in s.producers && s.producers[q].active && s.producers[q].votes.Some?
  }

  /** votewithpool accepts a vote exactly if it names a registered proxy, other than the voter, and the voter is no proxy, or 21
      to 30 producers in order, each of which is active and has pool votes. */
  lemma VoteIsAccepted(s: State, n: Name, proxy: Option<Name>, producers: seq<Name>)
    requires WellFormed(s)
    ensures Vote(s, n, proxy, producers).Some? <==>
            if proxy.Some? then
              && producers == [] && proxy.value != n
              && proxy.value in s.voters && s.voters[proxy.value].isProxy
              && (n in s.voters ==> !s.voters[n].isProxy)
            else
              && 21 <= |producers| <= 30
              && (forall i, j | 0 <= i < j < |producers| :: producers[i] < producers[j])
              && (forall q | q in producers :: Votable(s, q))
  {
  }

  /** Others' choices, roles and shares are as they were. */
  ghost predicate OthersChoices(s: State, r: State, n: Name) {
    && r.voters.Keys == s.voters.Keys + {n}
    && forall m | m in s.voters && m != n ::
         r.voters[m] == s.voters[m].(proxied := r.voters[m].proxied, last := r.voters[m].last)
  }

  lemma SameGraphOthers(s: State, r: State, n: Name)
    requires SameGraph(s, r) && n in s.voters
    ensures OthersChoices(s, r, n) && r.voters[n] == s.voters[n].(proxied := r.voters[n].proxied, last := r.voters[n].last)
  {
    assert s.voters.Keys + {n} == s.voters.Keys;
  }

  lemma OthersTransitive(a: State, b: State, c: State, n: Name)
    requires OthersChoices(a, b, n) && OthersChoices(b, c, n)
    ensures OthersChoices(a, c, n)
  {
  }

  lemma LeaveOthers(s: State, n: Name)
    requires WellFormed(s) && n in s.voters && s.voters[n].proxy.Some?
    ensures OthersChoices(s, Leave(s, n), n) && Leave(s, n).voters[n] == s.voters[n].(proxy := None)
  {
    assert ValidVoter(s, n, s.voters[n]);
    assert s.voters.Keys + {n} == s.voters.Keys;
  }

  lemma LeftOthers(s: State, n: Name)
    requires WellFormed(s) && n in s.voters
    ensures var l := Left(s, n);
            && OthersChoices(s, l, n)
            && l.voters[n] == s.voters[n].(proxy := None, proxied := l.voters[n].proxied, last := l.voters[n].last)
  {
    if s.voters[n].proxy.Some? {
      LeaveOthers(s, n);
      SameGraphOthers(Leave(s, n), Left(s, n), n);
      OthersTransitive(s, Leave(s, n), Left(s, n), n);
    } else {
      assert s.voters.Keys + {n} == s.voters.Keys;
    }
    hide SameGraph, Leave, Refresh, OthersChoices;
  }

  lemma JoinOthers(s: State, n: Name, proxy: Option<Name>, producers: seq<Name>, votes: Votes)
    requires WellFormed(s) && ValidTarget(s, n, proxy, producers) && s.voters[n].proxy.None? && |votes| == s.pools
    ensures var r := Join(s, n, proxy, producers, votes);
            && OthersChoices(s, r, n)
            && r.voters[n] == s.voters[n].(proxy := proxy, producers := producers, last := votes, proxied := r.voters[n].proxied)
  {
    assert s.voters.Keys + {n} == s.voters.Keys;
    hide SameGraph;
  }

  /** Changing a vote writes the voter's choice, and neither the voter's shares nor role. */
  lemma VoteIsWritten(s: State, n: Name, proxy: Option<Name>, producers: seq<Name>)
    requires WellFormed(s) && ValidTarget(s, n, proxy, producers)
    ensures var r := UpdateVotes(s, n, proxy, producers);
            && OthersChoices(s, r, n)
            && r.voters[n] == s.voters[n].(proxy := proxy, producers := producers, proxied := r.voters[n].proxied, last := r.voters[n].last)
  {
    TargetStays(s, n, proxy, producers);
    LeftOthers(s, n);
    var l := Left(s, n);
    JoinOthers(l, n, proxy, producers, Value(s.voters[n]));
    var j := Join(l, n, proxy, producers, Value(s.voters[n]));
    OthersTransitive(s, l, j, n);
    if proxy.Some? {
      SameGraphOthers(j, Refresh(j, proxy.value), n);
      OthersTransitive(s, j, UpdateVotes(s, n, proxy, producers), n);
    }
    hide Left, Join, Refresh, SameGraph, OthersChoices, WellFormed, ValidTarget;
  }

  /** An accepted vote is recorded as cast. */
  lemma VoteIsRecorded(s: State, n: Name, proxy: Option<Name>, producers: seq<Name>)
    requires WellFormed(s) && Vote(s, n, proxy, producers).Some?
    ensures var r := Vote(s, n, proxy, producers).value;
            && n in r.voters && r.voters[n].proxy == proxy && r.voters[n].producers == producers
            && OthersChoices(s, r, n)
            && (n in s.voters ==> r.voters[n].owned == s.voters[n].owned && r.voters[n].isProxy == s.voters[n].isProxy)
  {
    hide UpdateVotes, WellFormed, ValidTarget, OthersChoices, CanVote;
    VoteReady(s, n, proxy, producers);
    var s1 := Ranked(WithVoter(s, n), proxy);
    VoteIsWritten(s1, n, proxy, producers);
    OnlyRow(s, s1, n);
    OthersTransitive(s, s1, Vote(s, n, proxy, producers).value, n);
  }

  lemma OnlyRow(s: State, s1: State, n: Name)
    requires n in s1.voters && s1.voters == s.voters[n := s1.voters[n]]
    ensures OthersChoices(s, s1, n)
  {
  }

  /** A change of stake writes the new shares and repeats the recorded vote; no choice changes. */
  lemma StakeIsRecorded(s: State, n: Name, owned: Votes)
    requires WellFormed(s) && ChangeStake(s, n, owned).Some?
    ensures var r, v := ChangeStake(s, n, owned).value, WithVoter(s, n).voters[n];
            && n in r.voters && OthersChoices(s, r, n)
            && r.voters[n] == v.(owned := owned, proxied := r.voters[n].proxied, last := r.voters[n].last)
  {
    hide UpdateVotes, WellFormed, ValidTarget, OthersChoices;
    WithVoterWellFormed(s, n);
    var s1 := SetOwned(WithVoter(s, n), n, owned);
    RepeatReady(s1, n);
    VoteIsWritten(s1, n, s1.voters[n].proxy, s1.voters[n].producers);
    OnlyRow(s, s1, n);
    OthersTransitive(s, s1, ChangeStake(s, n, owned).value, n);
  }

  /** An account becomes a proxy exactly if it uses none, may always stop being one, and changes nothing else of anyone's
      choice. */
  lemma RoleIsRecorded(s: State, n: Name, isProxy: bool)
    requires WellFormed(s)
    ensures var r, v := RegProxy(s, n, isProxy), WithVoter(s, n).voters[n];
            && (r.Some? <==> !(isProxy && n in s.voters && s.voters[n].proxy.Some?))
            && (r.Some? ==>
                  && n in r.value.voters && OthersChoices(s, r.value, n)
                  && r.value.voters[n] == v.(isProxy := isProxy, proxied := r.value.voters[n].proxied, last := r.value.voters[n].last))
  {
    hide Refresh, WellFormed, OthersChoices, SameGraph;
    WithVoterWellFormed(s, n);
    var s1 := WithVoter(s, n);
    if !isProxy || s1.voters[n].proxy.None? {
      RegWellFormed(s1, n, isProxy);
      var s2 := PutVoter(s1, n, s1.voters[n].(isProxy := isProxy));
      OnlyRow(s, s2, n);
      SameGraphOthers(s2, Refresh(s2, n), n);
      OthersTransitive(s, s2, Refresh(s2, n), n);
    }
  }

  /** Registering activates a producer without touching votes it has; deactivating keeps them, too. */
  lemma RegistrationIsRecorded(s: State, q: Name, m: Name)
    ensures Votable(EnableProducer(s, q), q)
    ensures q in s.producers && s.producers[q].votes.Some? ==> EnableProducer(s, q).producers[q].votes == s.producers[q].votes
    ensures DeactivateProducer(s, q).Some? <==> q in s.producers
    ensures q in s.producers ==>
              var r := DeactivateProducer(s, q).value;
              q in r.producers && !r.producers[q].active && r.producers[q].votes == s.producers[q].votes
    ensures m in s.producers && m != q ==> EnableProducer(s, q).producers[m] == s.producers[m]
  {
  }
}
