/** Chains of proxies. A voter may choose a proxy only while the chosen account uses none itself; that alone keeps the graph
    free of cycles, though a chosen account may later stop being a proxy and choose one, so chains can grow. */
module ProxyGraph {
  import opened Tables
  import opened Resources

  /** The proxy each voter uses, if any. */
  type Links = map<Name, Option<Name>>

  /** Every proxy is in the table and ranks below those who use it. */
  predicate Descending(links: Links, rank: Name -> nat) {
    forall n | n in links && links[n].Some? :: links[n].value in links && rank(links[n].value) < rank(n)
  }

  /** A proxy that uses no proxy itself can rank below everyone. */
  function Lowest(rank: Name -> nat, p: Name): Name -> nat {
    (n: Name) => if n == p then 0 else rank(n) + 1
  }

  /** Choosing a proxy that uses none itself keeps the graph descending. */
  lemma ChoosingKeeps(links: Links, rank: Name -> nat, n: Name, p: Name)
    requires Descending(links, rank) && p in links && links[p].None? && n != p
    ensures Descending(links[n := Some(p)], Lowest(rank, p))
  {
  }

  /** The voter that `k` steps along the chain lead to. */
  function Along(links: Links, n: Name, k: nat): Option<Name>
    decreases k
  {
    if k == 0 then Some(n)
    else if n !in links || links[n].None? then None
    else Along(links, links[n].value, k - 1)
  }

  lemma {:induction false} AlongDescends(links: Links, rank: Name -> nat, n: Name, k: nat)
    requires Descending(links, rank) && Along(links, n, k).Some?
    ensures rank(Along(links, n, k).value) + k <= rank(n)
    decreases k
  {
    if k != 0 {
      AlongDescends(links, rank, links[n].value, k - 1);
    }
  }

  /** No chain, however long, comes back to its start. */
  lemma NoCycle(links: Links, rank: Name -> nat, n: Name, k: nat)
    requires Descending(links, rank) && 0 < k
    ensures Along(links, n, k) != Some(n)
  {
    if Along(links, n, k).Some? {
      AlongDescends(links, rank, n, k);
    }
  }

  /** Voters 0 to k, each using the one before. */
  function Line(k: nat): Links {
    if k == 0 then map[0 := None] else Line(k - 1)[k := Some(k - 1)]
  }

  lemma {:induction false} LineHolds(k: nat, n: nat)
    ensures n in Line(k) <==> n <= k
    ensures n in Line(k) ==> Line(k)[n] == if n == 0 then None else Some(n - 1)
    decreases k
  {
    if k != 0 {
      LineHolds(k - 1, n);
    }
  }

  /** Descending graphs have chains of every length: former proxies pass their voters on. */
  lemma ChainsGrow(k: nat)
    ensures Descending(Line(k), (n: Name) => n) && Along(Line(k), k, k) == Some(0)
  {
    forall n | n in Line(k) && Line(k)[n].Some? ensures Line(k)[n].value in Line(k) && Line(k)[n].value < n {
      LineHolds(k, n);
      LineHolds(k, Line(k)[n].value);
    }
    AlongLine(k, k);
  }

  lemma {:induction false} AlongLine(k: nat, j: nat)
    requires j <= k
    ensures Along(Line(k), j, j) == Some(0)
    decreases j
  {
    LineHolds(k, j);
    if j != 0 {
      AlongLine(k, j - 1);
    }
  }
}
