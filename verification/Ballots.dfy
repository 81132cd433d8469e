/** What both ways of voting demand of a ballot: a proxy and no producers, or at most thirty producers in order. */
module Ballots {
  import opened Tables
  import opened Resources

  predicate Sorted(names: seq<Name>) {
    forall i, j | 0 <= i < j < |names| :: names[i] < names[j]
  }

  predicate ValidBallot(n: Name, proxy: Option<Name>, producers: seq<Name>) {
    if proxy.Some? then producers == [] && n != proxy.value
    else |producers| <= 30 && Sorted(producers)
  }

  /** Comparing neighbours is enough. */
  method CheckBallot(n: Name, proxy: Option<Name>, producers: seq<Name>) returns (ok: bool)
    ensures ok == ValidBallot(n, proxy, producers)
  {
    if proxy.Some? {
      return |producers| == 0 && n != proxy.value;
    }
    if 30 < |producers| {
      return false;
    }
    var i := 1;
    while i < |producers|
      invariant 1 <= i && (i <= |producers| || |producers| == 0)
      invariant i <= |producers| ==> Sorted(producers[..i])
    {
      if !(producers[i - 1] < producers[i]) {
        return false;
      }
      i := i + 1;
    }
    assert |producers| > 0 ==> producers[..|producers|] == producers;
    return true;
  }
}
