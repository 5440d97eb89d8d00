/** What a volume check decides about a record and the chain it turned out to have, with no medium in sight. */
module FatVerdict {
  import opened FatVolume
  import opened FatTable

  datatype Outcome = Ended | Looped | Crossed | Strayed

  /** A chain as it was walked: how many clusters, the last of them, and the last the record's size accounts for. */
  datatype Walked = Walked(length: nat, last: nat, cutAfter: nat, outcome: Outcome)

  datatype Verdict =
    | Agree
    | ClaimsNothing
    | BeginsNowhere
    | BreaksAt(after: nat, clusters: nat)
    | RunsLong(after: nat, clusters: nat)
    | HoldsUnclaimed
    | RunsShort(clusters: nat)
    | Contested

  /** How many clusters a size occupies: the quotient rounded up, counted a cluster at a time. */
  function ClustersFor(size: nat, clusterSize: nat): nat
    requires clusterSize > 0
    decreases size
  {
    if size == 0 then 0
    else if size <= clusterSize then 1
    else 1 + ClustersFor(size - clusterSize, clusterSize)
  }

  function Decide(first: nat, size: nat, clusterSize: nat, chain: Walked): Verdict
    requires clusterSize > 0
  {
    if first == 0 then
      if size != 0 then ClaimsNothing else Agree
    else match chain.outcome
      case Crossed => Contested
      case Looped => if chain.length == 0 then BeginsNowhere else BreaksAt(chain.last, chain.length)
      case Strayed => if chain.length == 0 then BeginsNowhere else BreaksAt(chain.last, chain.length)
      case Ended =>
        var needed := ClustersFor(size, clusterSize);
        if chain.length > needed then
          if needed == 0 then HoldsUnclaimed else RunsLong(chain.cutAfter, needed)
        else if chain.length < needed then RunsShort(chain.length)
        else Agree
  }

  /** The clusters a size needs: enough, and not one more. */
  lemma {:induction false} ClustersForBounds(size: nat, n: nat)
    requires n > 0
    ensures size <= n * ClustersFor(size, n)
    ensures size > 0 ==> ClustersFor(size, n) > 0 && n * (ClustersFor(size, n) - 1) < size
    decreases size
  {
    if size > n {
      ClustersForBounds(size - n, n);
      var k := ClustersFor(size - n, n);
      assert n * (k + 1) == n * k + n && n * (k - 1) == n * k - n;
    }
  }

  /** The quotient rounded up, as the size of a file is turned into clusters. */
  lemma RoundsUp(size: nat, n: nat)
    requires n > 0
    ensures ClustersFor(size, n) == (size + n - 1) / n
  {
    var q := (size + n - 1) / n;
    var r := (size + n - 1) % n;
    assert size + n - 1 == n * q + r && 0 <= r < n;
    assert n * (q - 1) == n * q - n;
    ClustersForUnique(size, n, q);
  }

  /** A size between two numbers of clusters needs the larger. */
  lemma ClustersForUnique(size: nat, n: nat, k: nat)
    requires n > 0 && size <= n * k && (if k == 0 then true else n * (k - 1) < size)
    ensures ClustersFor(size, n) == k
  {
    ClustersForBounds(size, n);
    var q := ClustersFor(size, n);
    if q < k { TimesGrows(n, q, k - 1); } else if k < q { TimesGrows(n, k, q - 1); }
  }

  // ------------------------------------------------------------------
  // A record and its chain in agreement
  // ------------------------------------------------------------------

  /** A whole chain of just the clusters the size needs. */
  ghost predicate Exact(g: Shape, f: Table, s: Slot, cs: seq<nat>) {
    && g.clusterSize > 0 && SlotSound(g, f, s, cs)
    && (s.Used? ==> |cs| == ClustersFor(s.size, g.clusterSize))
  }

  /** Clusters `cs` walked from `first`, none of them `reached` before, and what was kept of the walk. */
  ghost predicate Trodden(g: Shape, f: Table, first: nat, needed: nat, reached: set<nat>, cs: seq<nat>, w: Walked) {
    true == (
      && Linked(g, f, cs) && (cs != [] ==> cs[0] == first) && (forall i :: 0 <= i < |cs| ==> cs[i] !in reached)
      && |cs| <= g.clusters && w.length == |cs| && w.last == (if cs == [] then 0 else cs[|cs| - 1])
      && (1 <= needed <= |cs| ==> w.cutAfter == cs[needed - 1]))
  }

  /** What following a chain from `first` finds: the clusters `cs`, and why it stopped behind them. */
  ghost predicate Follows(g: Shape, f: Table, first: nat, needed: nat, reached: set<nat>, cs: seq<nat>, w: Walked) {
    && Trodden(g, f, first, needed, reached, cs, w)
    && var next := NextOf(f, first, cs);
       match w.outcome
       case Ended => cs != [] && next >= END_FROM
       case Strayed => !ValidCluster(g, next) && (cs != [] ==> next < END_FROM)
       case Looped => next in cs
       case Crossed => ValidCluster(g, next) && next in reached && next !in cs
  }
}
