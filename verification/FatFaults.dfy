/**
 What the check makes of each record, told from the clusters it leads to and the
 table's own entries, with no verdict in between.
 */
module FatFaults {
  import opened FatVolume
  import opened FatTable
  import opened FatVerdict
  import opened FatRepair
  import opened FatCourse
  import opened FatCheck

  /** The clusters the check left of a record are all of them still, and lead to the record's own file. */
  ghost predicate KeepsAll(g: Shape, f1: Table, data: Clusters, s: Slot, s1: Slot, cs: seq<nat>) {
    && IsChain(g, f1, cs) && s.Used? && s1 == s.(size := g.clusterSize * |cs|)
    && FileOf(s1, data, cs) == File(s.name, Bytes(data, cs))
  }

  /** The first `keep` clusters stay the record's, ended there; the others are free. */
  ghost predicate KeepsFront(g: Shape, f1: Table, s: Slot, s1: Slot, cs: seq<nat>, keep: nat) {
    && s.Used? && 0 < keep <= |cs| && g.clusterSize * (keep - 1) < s.size <= g.clusterSize * keep
    && s1 == s.(size := g.clusterSize * keep) && IsChain(g, f1, cs[..keep])
    && AllFree(f1, cs[keep..])
  }

  ghost predicate AllFree(f: Table, cs: seq<nat>) {
    forall i :: 0 <= i < |cs| ==> cs[i] < |f| && f[cs[i]] == FREE
  }

  /** An uncontested record dealt with, in the verdict's own terms. */
  lemma RecordDealt(g: Shape, f: Table, dir: seq<Slot>, walks: seq<seq<nat>>, f1: Table, dir1: seq<Slot>, k: nat)
    requires GoodShape(g) && CheckedTo(g, f, dir, walks, f1, dir1) && k < |dir| && dir[k].Used? && !Contests(walks, k)
    ensures k < |walks| == |dir1| == |dir| && WalkOf(g, f, dir[k], walks[k]) && |f1| == |f|
    ensures var answer := AnswerOf(g, f, dir[k], walks[k]);
      && dir1[k] == RecordAfter(dir[k], answer, g.clusterSize)
      && Exact(g, f1, dir1[k], KeptAfter(answer, walks[k]))
      && forall c :: c in walks[k] && c !in KeptAfter(answer, walks[k]) && c < |f| ==> f1[c] == FREE
  {
    assert Dealt(g, f, dir, walks, f1, dir1, k);
    assert WalkOf(g, f, dir[k], walks[k]);
  }

  lemma WholeFile(g: Shape, f1: Table, data: Clusters, s: Slot, s1: Slot, cs: seq<nat>)
    requires DataFits(g, data) && s.Used? && s1 == s.(size := |cs| * g.clusterSize) && Exact(g, f1, s1, cs)
    ensures KeepsAll(g, f1, data, s, s1, cs)
  {
    BytesLength(g, data, cs);
  }

  /** A record whose chain breaks keeps every cluster walked: they end in a chain, and are all its file. */
  lemma BreakKept(g: Shape, f: Table, dir: seq<Slot>, walks: seq<seq<nat>>, f1: Table, dir1: seq<Slot>, data: Clusters, k: nat)
    requires GoodShape(g) && CheckedTo(g, f, dir, walks, f1, dir1) && DataFits(g, data)
    requires k < |dir| && dir[k].Used? && !Contests(walks, k) && walks[k] != [] && !EndsWell(f, walks[k])
    ensures KeepsAll(g, f1, data, dir[k], dir1[k], walks[k])
  {
    var cs := walks[k];
    RecordDealt(g, f, dir, walks, f1, dir1, k);
    FaultAnswered(g, f, dir[k], cs);
    WholeFile(g, f1, data, dir[k], dir1[k], cs);
  }

  /** A record that claims more than its whole chain holds is made to claim just that. */
  lemma ClaimCut(g: Shape, f: Table, dir: seq<Slot>, walks: seq<seq<nat>>, f1: Table, dir1: seq<Slot>, data: Clusters, k: nat)
    requires GoodShape(g) && CheckedTo(g, f, dir, walks, f1, dir1) && DataFits(g, data)
    requires k < |dir| && dir[k].Used? && !Contests(walks, k) && EndsWell(f, walks[k]) && g.clusterSize * |walks[k]| < dir[k].size
    ensures KeepsAll(g, f1, data, dir[k], dir1[k], walks[k])
  {
    var cs := walks[k];
    RecordDealt(g, f, dir, walks, f1, dir1, k);
    FaultAnswered(g, f, dir[k], cs);
    WholeFile(g, f1, data, dir[k], dir1[k], cs);
  }

  /** A record whose size needs every cluster of its chain is left as it is. */
  lemma FittingKept(g: Shape, f: Table, dir: seq<Slot>, walks: seq<seq<nat>>, f1: Table, dir1: seq<Slot>, k: nat)
    requires GoodShape(g) && CheckedTo(g, f, dir, walks, f1, dir1)
    requires k < |dir| && dir[k].Used? && !Contests(walks, k) && EndsWell(f, walks[k])
    requires g.clusterSize * (|walks[k]| - 1) < dir[k].size <= g.clusterSize * |walks[k]|
    ensures dir1[k] == dir[k] && IsChain(g, f1, walks[k])
  {
    RecordDealt(g, f, dir, walks, f1, dir1, k);
    FaultAnswered(g, f, dir[k], walks[k]);
  }

  /** A record with bytes, and more clusters than they need, keeps those they need. */
  lemma TailFreed(g: Shape, f: Table, dir: seq<Slot>, walks: seq<seq<nat>>, f1: Table, dir1: seq<Slot>, k: nat) returns (keep: nat)
    requires GoodShape(g) && CheckedTo(g, f, dir, walks, f1, dir1)
    requires k < |dir| && dir[k].Used? && !Contests(walks, k) && EndsWell(f, walks[k])
    requires 0 < dir[k].size <= g.clusterSize * (|walks[k]| - 1)
    ensures keep < |walks[k]| && KeepsFront(g, f1, dir[k], dir1[k], walks[k], keep)
  {
    var cs := walks[k];
    RecordDealt(g, f, dir, walks, f1, dir1, k);
    FaultAnswered(g, f, dir[k], cs);
    keep := ClustersFor(dir[k].size, g.clusterSize);
    ClustersForBounds(dir[k].size, g.clusterSize);
    RestNotFront(cs, keep);
  }

  lemma RestNotFront(cs: seq<nat>, keep: nat)
    requires Distinct(cs) && keep <= |cs|
    ensures forall i :: 0 <= i < |cs| - keep ==> cs[keep..][i] in cs && cs[keep..][i] !in cs[..keep]
  {
  }

  /** A record without bytes gives back whatever whole chain it names. */
  lemma UnclaimedFreed(g: Shape, f: Table, dir: seq<Slot>, walks: seq<seq<nat>>, f1: Table, dir1: seq<Slot>, k: nat)
    requires GoodShape(g) && CheckedTo(g, f, dir, walks, f1, dir1)
    requires k < |dir| && dir[k].Used? && !Contests(walks, k) && EndsWell(f, walks[k]) && dir[k].size == 0
    ensures dir1[k] == dir[k].(first := 0) && AllFree(f1, walks[k])
  {
    RecordDealt(g, f, dir, walks, f1, dir1, k);
  }

  /** A record that leads to no cluster ends empty. */
  lemma NothingKept(g: Shape, f: Table, dir: seq<Slot>, walks: seq<seq<nat>>, f1: Table, dir1: seq<Slot>, k: nat)
    requires GoodShape(g) && CheckedTo(g, f, dir, walks, f1, dir1)
    requires k < |dir| && dir[k].Used? && k < |walks| && walks[k] == []
    ensures dir1[k] == dir[k].(first := 0, size := 0)
  {
    RecordDealt(g, f, dir, walks, f1, dir1, k);
  }

  /** A record whose walk runs into an earlier one is left as it is. */
  lemma ContestedLeft(g: Shape, f: Table, dir: seq<Slot>, walks: seq<seq<nat>>, f1: Table, dir1: seq<Slot>, k: nat)
    requires CheckedTo(g, f, dir, walks, f1, dir1) && k < |dir| && (dir[k].Vacant? || Contests(walks, k))
    ensures dir1[k] == dir[k]
  {
    assert Dealt(g, f, dir, walks, f1, dir1, k);
  }
}
