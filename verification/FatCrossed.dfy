/** Where chains cross: what the check leaves of a record whose own chain was whole, told exactly. */
module FatCrossed {
  import opened FatVolume
  import opened FatTable
  import opened FatVerdict
  import opened FatResize
  import opened FatCourse
  import opened FatCheck
  import opened FatClean

  // ------------------------------------------------------------------
  // Walks that share a cluster with a whole chain
  // ------------------------------------------------------------------

  lemma LinkedRest(g: Shape, f: Table, cs: seq<nat>, i: nat)
    requires Linked(g, f, cs) && i < |cs|
    ensures Linked(g, f, cs[i..])
  {
    var rest := cs[i..];
    forall k | 0 <= k < |rest| - 1
      ensures f[rest[k]] == rest[k + 1]
    {
      LinkedNext(g, f, cs, i + k);
    }
  }

  /** A walk that comes to a cluster of a whole chain goes on as the chain does, as far as it goes. */
  lemma GoesAlong(g: Shape, f: Table, whole: seq<nat>, i: nat, cs: seq<nat>, p: nat)
    requires IsChain(g, f, whole) && i < |whole| && Linked(g, f, cs) && p < |cs| && cs[p] == whole[i]
    ensures |cs| - p <= |whole| - i && cs[p..] == whole[i..i + (|cs| - p)]
  {
    ChainRest(g, f, whole, i);
    LinkedRest(g, f, cs, p);
    WalkIsLongest(g, f, whole[i], whole[i..], cs[p..]);
    assert whole[i..][..|cs| - p] == whole[i..i + (|cs| - p)];
  }

  /** Two clusters are as far apart on a walk as on a chain it shares them with. */
  lemma SameDistance(g: Shape, f: Table, whole: seq<nat>, walk: seq<nat>, p: nat, i: nat, q: nat, t: nat)
    requires IsChain(g, f, whole) && Linked(g, f, walk) && p <= q < |walk| && i < |whole| && t < |whole|
    requires walk[p] == whole[i] && walk[q] == whole[t]
    ensures t == i + (q - p)
  {
    GoesAlong(g, f, whole, i, walk, p);
    assert walk[p..][q - p] == whole[i..i + (|walk| - p)][q - p];
  }

  /** A walk that shares a cluster with a whole chain shares all that follows. */
  lemma SharedTail(g: Shape, f: Table, first: nat, walk: seq<nat>, whole: seq<nat>, p: nat, i: nat)
    requires Walks(g, f, first, walk) && IsChain(g, f, whole) && p < |walk| && i < |whole| && walk[p] == whole[i]
    ensures walk[p..] == whole[i..]
  {
    GoesAlong(g, f, whole, i, walk, p);
    var n := |walk| - p;
    assert walk[p..][n - 1] == whole[i..i + n][n - 1];
    LinkInChain(g, f, whole, i + n - 1);
    if i + n < |whole| {
      var q :| 0 <= q < |walk| && walk[q] == whole[i + n];
      if q >= p { SameDistance(g, f, whole, walk, p, i, q, i + n); } else { SameDistance(g, f, whole, walk, q, i + n, p, i); }
    } else {
      assert whole[i..i + n] == whole[i..];
    }
  }

  // ------------------------------------------------------------------
  // A record whose own chain was whole
  // ------------------------------------------------------------------

  /** The clusters a record needs, or its first if it needs none. */
  function Front(g: Shape, s: Slot, whole: seq<nat>): (front: seq<nat>)
    requires g.clusterSize > 0 && s.Used?
    ensures front <= whole
  {
    if whole == [] then [] else
    var needed := ClustersFor(s.size, g.clusterSize);
    if needed == 0 then whole[..1] else if needed <= |whole| then whole[..needed] else whole
  }

  /** The record still leads to the front of its contents, through clusters that are in use; or it was empty and is. */
  ghost predicate FrontKept(g: Shape, f1: Table, s: Slot, s1: Slot, front: seq<nat>) {
    && s.Used? && s1.Used? && s1.name == s.name
    && if s1.first == 0 then s.size == s1.size == 0 else
         && s1.first == s.first && s.size <= s1.size && Linked(g, f1, front)
         && forall i :: 0 <= i < |front| ==> f1[front[i]] != FREE
  }

  /** No record inspected before this one gives any of these clusters back. */
  ghost predicate Unspent(g: Shape, f: Table, dir: seq<Slot>, walks: seq<seq<nat>>, k: nat, front: seq<nat>) {
    g.clusterSize > 0 &&
    forall j, c {:trigger c in walks[j], c in front} :: 0 <= j < k && j < |walks| && j < |dir| && !Contests(walks, j) && c in front && c in walks[j] ==>
      c in KeptOf(g, f, dir[j], walks[j])
  }

  /** What the front still holds is the contents, and what it leads to are their bytes. */
  lemma FrontShows(g: Shape, f: Table, s: Slot, data: Clusters, whole: seq<nat>)
    requires GoodShape(g) && DataFits(g, data) && s.Used? && SlotSound(g, f, s, whole)
    ensures FileOf(s, data, Front(g, s, whole)) == FileOf(s, data, whole)
  {
    var front := Front(g, s, whole);
    ClustersForBounds(s.size, g.clusterSize);
    if whole != [] {
      if s.size > 0 { KeepFits(g.clusterSize, s.size, ClustersFor(s.size, g.clusterSize), |whole|); }
      assert whole == front + whole[|front|..];
      BytesConcat(data, front, whole[|front|..]);
      BytesLength(g, data, front);
    }
  }

  /** An entry of the front of a contested record: in use exactly if nobody before gave it back. */
  lemma FrontEntry(g: Shape, f: Table, dir: seq<Slot>, walks: seq<seq<nat>>, f1: Table, dir1: seq<Slot>, k: nat, c: nat)
    requires GoodShape(g) && CheckedTo(g, f, dir, walks, f1, dir1) && k < |dir| && Contests(walks, k) && c in walks[k]
    requires c < |f| && f[c] != FREE
    ensures f1[c] == FREE <==>
      exists j :: 0 <= j < k && !Contests(walks, j) && c in walks[j] && c !in KeptOf(g, f, dir[j], walks[j])
  {
    assert Met(walks, |walks|, c);
    if LeftAlone(walks, |walks|, c) {
      assert f1[c] == f[c];
    } else {
      var j :| 0 <= j < |walks| && c in walks[j] && !Contests(walks, j);
      assert Dealt(g, f, dir, walks, f1, dir1, j);
      OneOwnerBefore(walks, k, j, c);
      if c in KeptOf(g, f, dir[j], walks[j]) {
        KeptInUse(g, f1, dir1[j], KeptOf(g, f, dir[j], walks[j]), c);
        forall i | 0 <= i < k && !Contests(walks, i) && c in walks[i]
          ensures i == j
        {
          OneOwner(walks, i, j, c);
        }
      }
    }
  }

  /** A record put right has met no earlier walk. */
  lemma OneOwnerBefore(walks: seq<seq<nat>>, k: nat, j: nat, c: nat)
    requires k < |walks| && j < |walks| && !Contests(walks, j) && c in walks[k] && c in walks[j]
    ensures j <= k
  {
    if k < j { UncontestedIsApart(walks, k, j); }
  }

  /** Of two records put right, only one can have walked to a cluster. */
  lemma OneOwner(walks: seq<seq<nat>>, i: nat, j: nat, c: nat)
    requires i < |walks| && j < |walks| && !Contests(walks, i) && !Contests(walks, j) && c in walks[i] && c in walks[j]
    ensures i == j
  {
    if i < j { UncontestedIsApart(walks, i, j); }
    if j < i { UncontestedIsApart(walks, j, i); }
  }

  /** A link of the front holds after the check if both its ends were kept. */
  lemma FrontLink(g: Shape, f: Table, dir: seq<Slot>, walks: seq<seq<nat>>, f1: Table, dir1: seq<Slot>, k: nat, whole: seq<nat>, i: nat)
    requires GoodShape(g) && CheckedTo(g, f, dir, walks, f1, dir1) && k < |dir| && Contests(walks, k) && walks[k] == whole
    requires IsChain(g, f, whole) && i + 1 < |whole| && Unspent(g, f, dir, walks, k, [whole[i], whole[i + 1]])
    ensures whole[i] < |f1| && f1[whole[i]] == whole[i + 1]
  {
    var c, d := whole[i], whole[i + 1];
    LinkInChain(g, f, whole, i);
    assert c in walks[k] && Met(walks, |walks|, c);
    if LeftAlone(walks, |walks|, c) {
      assert f1[c] == f[c];
    } else {
      var j :| 0 <= j < |walks| && c in walks[j] && !Contests(walks, j);
      OneOwnerBefore(walks, k, j, c);
      assert Dealt(g, f, dir, walks, f1, dir1, j) && WalkOf(g, f, dir[j], walks[j]);
      var p :| 0 <= p < |walks[j]| && walks[j][p] == c;
      SharedTail(g, f, dir[j].first, walks[j], whole, p, i);
      assert walks[j][p..][1] == whole[i..][1];
      var kept := KeptOf(g, f, dir[j], walks[j]);
      KeptInWalk(g, f, dir[j], walks[j]);
      assert d in [c, d] && d in walks[j];
      PrefixHolds(walks[j], kept, p + 1);
      LinkInChain(g, f1, kept, p);
    }
  }

  /** A cluster of a walk that a front part of it holds is in that part at its own place. */
  lemma PrefixHolds(walk: seq<nat>, kept: seq<nat>, p: nat)
    requires Distinct(walk) && kept <= walk && p < |walk| && walk[p] in kept
    ensures p < |kept|
  {
    var q :| 0 <= q < |kept| && kept[q] == walk[p];
    assert walk[q] == walk[p];
  }

  /**
   A record whose chain was whole keeps the front of its contents if and only if
   no record inspected before it gives a cluster of that front back.
   */
  lemma WholeRecord(g: Shape, f: Table, dir: seq<Slot>, walks: seq<seq<nat>>, f1: Table, dir1: seq<Slot>, k: nat, whole: seq<nat>)
    requires GoodShape(g) && CheckedTo(g, f, dir, walks, f1, dir1) && k < |dir| && dir[k].Used? && SlotSound(g, f, dir[k], whole)
    ensures FrontKept(g, f1, dir[k], dir1[k], Front(g, dir[k], whole)) <==> Unspent(g, f, dir, walks, k, Front(g, dir[k], whole))
  {
    var front := Front(g, dir[k], whole);
    assert WalkOf(g, f, dir[k], walks[k]) && Dealt(g, f, dir, walks, f1, dir1, k);
    SoundIsWalk(g, f, dir[k], whole);
    WalkOfUnique(g, f, dir[k], walks[k], whole);
    if Contests(walks, k) {
      ContestedFront(g, f, dir, walks, f1, dir1, k, whole);
    } else {
      UncontestedFront(g, f, dir, walks, f1, dir1, k, whole);
    }
  }

  lemma UncontestedFront(g: Shape, f: Table, dir: seq<Slot>, walks: seq<seq<nat>>, f1: Table, dir1: seq<Slot>, k: nat, whole: seq<nat>)
    requires GoodShape(g) && CheckedTo(g, f, dir, walks, f1, dir1) && k < |dir| && dir[k].Used? && SlotSound(g, f, dir[k], whole)
    requires walks[k] == whole && !Contests(walks, k)
    ensures FrontKept(g, f1, dir[k], dir1[k], Front(g, dir[k], whole)) && Unspent(g, f, dir, walks, k, Front(g, dir[k], whole))
  {
    var front := Front(g, dir[k], whole);
    assert Dealt(g, f, dir, walks, f1, dir1, k);
    AnswerSound(g, f, dir[k], whole);
    ClustersForBounds(dir[k].size, g.clusterSize);
    forall j, c | 0 <= j < k && c in front
      ensures c !in walks[j]
    {
      UncontestedIsApart(walks, j, k);
    }
    var kept := KeptOf(g, f, dir[k], whole);
    if dir[k].size > 0 {
      KeepFits(g.clusterSize, dir[k].size, ClustersFor(dir[k].size, g.clusterSize), |whole|);
      forall i | 0 <= i < |front|
        ensures f1[front[i]] != FREE
      {
        KeptInUse(g, f1, dir1[k], kept, front[i]);
      }
      assert ClustersFor(dir[k].size, g.clusterSize) * g.clusterSize == g.clusterSize * ClustersFor(dir[k].size, g.clusterSize);
    }
  }

  lemma ContestedFront(g: Shape, f: Table, dir: seq<Slot>, walks: seq<seq<nat>>, f1: Table, dir1: seq<Slot>, k: nat, whole: seq<nat>)
    requires GoodShape(g) && CheckedTo(g, f, dir, walks, f1, dir1) && k < |dir| && dir[k].Used? && SlotSound(g, f, dir[k], whole)
    requires walks[k] == whole && Contests(walks, k)
    ensures FrontKept(g, f1, dir[k], dir1[k], Front(g, dir[k], whole)) <==> Unspent(g, f, dir, walks, k, Front(g, dir[k], whole))
  {
    var front := Front(g, dir[k], whole);
    assert Dealt(g, f, dir, walks, f1, dir1, k) && dir1[k] == dir[k];
    assert whole != [] && dir[k].first == whole[0];
    if Unspent(g, f, dir, walks, k, front) {
      UnspentLeads(g, f, dir, walks, f1, dir1, k, whole, front);
    } else {
      var j, c :| 0 <= j < k && j < |walks| && j < |dir| && !Contests(walks, j) && c in front && c in walks[j]
                  && c !in KeptOf(g, f, dir[j], walks[j]);
      SpentIsFree(g, f, dir, walks, f1, dir1, k, whole, j, c);
      var i :| 0 <= i < |front| && front[i] == c;
    }
  }

  lemma SpentIsFree(g: Shape, f: Table, dir: seq<Slot>, walks: seq<seq<nat>>, f1: Table, dir1: seq<Slot>, k: nat, whole: seq<nat>, j: nat, c: nat)
    requires GoodShape(g) && CheckedTo(g, f, dir, walks, f1, dir1) && k < |dir| && IsChain(g, f, whole)
    requires c in whole && j < k && !Contests(walks, j) && c in walks[j] && c !in KeptOf(g, f, dir[j], walks[j])
    ensures c < |f1| && f1[c] == FREE
  {
    assert Dealt(g, f, dir, walks, f1, dir1, j);
    var i :| 0 <= i < |whole| && whole[i] == c;
    LinkInChain(g, f, whole, i);
  }

  lemma UnspentLeads(g: Shape, f: Table, dir: seq<Slot>, walks: seq<seq<nat>>, f1: Table, dir1: seq<Slot>, k: nat, whole: seq<nat>, front: seq<nat>)
    requires GoodShape(g) && CheckedTo(g, f, dir, walks, f1, dir1) && k < |dir| && IsChain(g, f, whole)
    requires walks[k] == whole && Contests(walks, k) && front <= whole && Unspent(g, f, dir, walks, k, front)
    ensures Linked(g, f1, front) && forall i :: 0 <= i < |front| ==> f1[front[i]] != FREE
  {
    forall i | 0 <= i < |front| - 1
      ensures f1[front[i]] == front[i + 1]
    {
      UnspentPart(g, f, dir, walks, k, front, [whole[i], whole[i + 1]]);
      FrontLink(g, f, dir, walks, f1, dir1, k, whole, i);
    }
    forall i | 0 <= i < |front|
      ensures front[i] < |f1| && f1[front[i]] != FREE
    {
      LinkInChain(g, f, whole, i);
      FrontEntry(g, f, dir, walks, f1, dir1, k, front[i]);
      assert front[i] in front;
    }
  }

  lemma UnspentPart(g: Shape, f: Table, dir: seq<Slot>, walks: seq<seq<nat>>, k: nat, front: seq<nat>, part: seq<nat>)
    requires Unspent(g, f, dir, walks, k, front) && forall i :: 0 <= i < |part| ==> part[i] in front
    ensures Unspent(g, f, dir, walks, k, part)
  {
    forall j, c | 0 <= j < k && j < |walks| && j < |dir| && !Contests(walks, j) && c in part && c in walks[j]
      ensures c in KeptOf(g, f, dir[j], walks[j])
    {
      var i :| 0 <= i < |part| && part[i] == c;
      assert c in front;
    }
  }
}
