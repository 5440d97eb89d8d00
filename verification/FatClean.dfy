/** What the check's specification comes to: on any volume, on a sound one, and on a second run. */
module FatClean {
  import opened FatVolume
  import opened FatTable
  import opened FatVerdict
  import opened FatResize
  import opened FatFollow
  import opened FatCourse
  import opened FatCheck

  ghost predicate Held(chains: seq<seq<nat>>, c: nat) { Met(chains, |chains|, c) }

  /** Every record's chain is exactly what its size needs, and no two share a cluster. */
  ghost predicate AllExact(g: Shape, f: Table, dir: seq<Slot>, chains: seq<seq<nat>>) {
    && |chains| == |dir|
    && (forall k {:trigger Exact(g, f, dir[k], chains[k])} :: 0 <= k < |dir| ==> Exact(g, f, dir[k], chains[k]))
    && (forall j, k {:trigger Apart(chains[j], chains[k])} :: 0 <= j < |dir| && 0 <= k < |dir| && j != k ==> Apart(chains[j], chains[k]))
  }

  ghost predicate CleanBy(g: Shape, m: Medium, chains: seq<seq<nat>>) {
    m.copy == m.fat && AllExact(g, m.fat, m.dir, chains) && NoneLost(g, m.fat, chains)
  }

  /** A medium nothing is wrong with. */
  ghost predicate Clean(g: Shape, m: Medium) {
    exists chains :: CleanBy(g, m, chains)
  }

  // ------------------------------------------------------------------
  // Walks and chains
  // ------------------------------------------------------------------

  lemma SoundIsWalk(g: Shape, f: Table, s: Slot, cs: seq<nat>)
    requires SlotSound(g, f, s, cs)
    ensures WalkOf(g, f, s, cs)
  {
    if s.Used? && s.first != 0 { LinkInChain(g, f, cs, |cs| - 1); }
  }

  /** The walks of a sound volume are its chains. */
  lemma SoundWalks(g: Shape, f: Table, dir: seq<Slot>, chains: seq<seq<nat>>, walks: seq<seq<nat>>)
    requires Sound(g, f, dir, chains) && AllWalks(g, f, dir, walks)
    ensures walks == chains
  {
    forall k | 0 <= k < |dir|
      ensures walks[k] == chains[k]
    {
      assert SlotSound(g, f, dir[k], chains[k]) && WalkOf(g, f, dir[k], walks[k]);
      SoundIsWalk(g, f, dir[k], chains[k]);
      WalkOfUnique(g, f, dir[k], walks[k], chains[k]);
    }
  }

  lemma ExactIsSound(g: Shape, f: Table, dir: seq<Slot>, chains: seq<seq<nat>>)
    requires AllExact(g, f, dir, chains)
    ensures Sound(g, f, dir, chains)
  {
    forall k | 0 <= k < |dir|
      ensures SlotSound(g, f, dir[k], chains[k])
    {
      assert Exact(g, f, dir[k], chains[k]);
    }
  }

  /** A walk apart from every other runs into none. */
  lemma ApartIsUncontested(walks: seq<seq<nat>>, k: nat)
    requires forall j :: 0 <= j < k && j < |walks| && k < |walks| ==> Apart(walks[j], walks[k])
    ensures !Contests(walks, k)
  {
    if k < |walks| {
      forall c | c in walks[k]
        ensures !Met(walks, k, c)
      {
        forall j | 0 <= j < k
          ensures c !in walks[j]
        {
          assert Apart(walks[j], walks[k]);
        }
      }
    }
  }

  lemma UncontestedIsApart(walks: seq<seq<nat>>, j: nat, k: nat)
    requires j < k < |walks| && !Contests(walks, k)
    ensures Apart(walks[j], walks[k]) && Apart(walks[k], walks[j])
  {
    forall c | c in walks[k]
      ensures c !in walks[j]
    {
      assert c in walks[j] ==> Met(walks, k, c);
    }
  }

  lemma {:induction false} NoCrossings(walks: seq<seq<nat>>, n: nat)
    ensures Crossings(walks, n) == 0 <==> forall k :: 0 <= k < n ==> !Contests(walks, k)
  {
    if n > 0 { NoCrossings(walks, n - 1); }
  }

  lemma SoundUncontested(g: Shape, f: Table, dir: seq<Slot>, chains: seq<seq<nat>>)
    requires Sound(g, f, dir, chains)
    ensures forall k :: 0 <= k < |chains| ==> !Contests(chains, k)
    ensures Crossings(chains, |chains|) == 0
  {
    forall k | 0 <= k < |chains|
      ensures !Contests(chains, k)
    {
      forall j | 0 <= j < k
        ensures Apart(chains[j], chains[k])
      {
      }
      ApartIsUncontested(chains, k);
    }
    NoCrossings(chains, |chains|);
  }

  // ------------------------------------------------------------------
  // Where no chains cross
  // ------------------------------------------------------------------

  ghost function KeptAll(g: Shape, f: Table, dir: seq<Slot>, walks: seq<seq<nat>>): (kept: seq<seq<nat>>)
    requires g.clusterSize > 0 && |walks| == |dir|
    ensures |kept| == |dir|
  {
    seq(|dir|, k requires 0 <= k < |dir| => KeptOf(g, f, dir[k], walks[k]))
  }

  lemma KeptInWalk(g: Shape, f: Table, s: Slot, cs: seq<nat>)
    requires g.clusterSize > 0
    ensures KeptOf(g, f, s, cs) <= cs
  {
  }

  lemma FrontsApart(a: seq<nat>, b: seq<nat>, a1: seq<nat>, b1: seq<nat>)
    requires Apart(a, b) && a1 <= a && b1 <= b
    ensures Apart(a1, b1)
  {
    PrefixMembers(a1, a);
    PrefixMembers(b1, b);
  }

  lemma PrefixMembers(a1: seq<nat>, a: seq<nat>)
    requires a1 <= a
    ensures forall c {:trigger c in a} {:trigger c in a1} :: c in a1 ==> c in a
  {
    assert a == a1 + a[|a1|..];
    forall c | c in a1
      ensures c in a
    {
      assert c in a1 + a[|a1|..];
    }
  }

  lemma KeptApart(g: Shape, f: Table, dir: seq<Slot>, walks: seq<seq<nat>>, j: nat, k: nat)
    requires g.clusterSize > 0 && |walks| == |dir| && j < |dir| && k < |dir| && j != k
    requires !Contests(walks, j) && !Contests(walks, k)
    ensures Apart(KeptOf(g, f, dir[j], walks[j]), KeptOf(g, f, dir[k], walks[k]))
  {
    if j < k { UncontestedIsApart(walks, j, k); } else { UncontestedIsApart(walks, k, j); }
    KeptInWalk(g, f, dir[j], walks[j]);
    KeptInWalk(g, f, dir[k], walks[k]);
    FrontsApart(walks[j], walks[k], KeptOf(g, f, dir[j], walks[j]), KeptOf(g, f, dir[k], walks[k]));
  }

  lemma KeptExact(g: Shape, f: Table, dir: seq<Slot>, walks: seq<seq<nat>>, f1: Table, dir1: seq<Slot>)
    requires GoodShape(g) && CheckedTo(g, f, dir, walks, f1, dir1)
    requires forall k :: 0 <= k < |walks| ==> !Contests(walks, k)
    ensures AllExact(g, f1, dir1, KeptAll(g, f, dir, walks))
  {
    var kept := KeptAll(g, f, dir, walks);
    forall k | 0 <= k < |dir|
      ensures Exact(g, f1, dir1[k], kept[k])
    {
      assert Dealt(g, f, dir, walks, f1, dir1, k);
    }
    forall j, k | 0 <= j < |dir| && 0 <= k < |dir| && j != k
      ensures Apart(kept[j], kept[k])
    {
      KeptApart(g, f, dir, walks, j, k);
    }
  }

  /** With no walk running into another, every record ends exact and no cluster is lost. */
  lemma UncrossedIsClean(g: Shape, f: Table, dir: seq<Slot>, walks: seq<seq<nat>>, f1: Table, dir1: seq<Slot>)
    requires GoodShape(g) && CheckedTo(g, f, dir, walks, f1, dir1) && Crossings(walks, |walks|) == 0
    ensures AllExact(g, f1, dir1, KeptAll(g, f, dir, walks)) && NoneLost(g, f1, KeptAll(g, f, dir, walks))
  {
    var kept := KeptAll(g, f, dir, walks);
    NoCrossings(walks, |walks|);
    KeptExact(g, f, dir, walks, f1, dir1);
    forall c: nat | c < |f1| && ValidCluster(g, c) && f1[c] != FREE && f1[c] != BAD
      ensures Met(kept, |kept|, c)
    {
      UsedIsKept(g, f, dir, walks, f1, dir1, c);
    }
  }

  lemma UsedIsKept(g: Shape, f: Table, dir: seq<Slot>, walks: seq<seq<nat>>, f1: Table, dir1: seq<Slot>, c: nat)
    requires GoodShape(g) && CheckedTo(g, f, dir, walks, f1, dir1)
    requires forall k :: 0 <= k < |walks| ==> !Contests(walks, k)
    requires c < |f1| && ValidCluster(g, c) && f1[c] != FREE && f1[c] != BAD
    ensures Held(KeptAll(g, f, dir, walks), c)
  {
    assert Met(walks, |walks|, c);
    var j :| 0 <= j < |walks| && c in walks[j];
    assert Dealt(g, f, dir, walks, f1, dir1, j);
    assert c in KeptAll(g, f, dir, walks)[j];
  }

  /** The check is quiet exactly on a clean volume. */
  lemma QuietIsClean(g: Shape, m: Medium, walks: seq<seq<nat>>, found: Findings, m2: Medium)
    requires GoodShape(g) && CheckedTo(g, m.fat, m.dir, walks, m2.fat, m2.dir) && CountedTo(g, m, walks, found) && m2.copy == m2.fat
    requires Quiet(Uncrossed(found)) ==> m2 == m
    ensures found.crossed == 0 ==> Clean(g, m2)
    ensures Quiet(found) <==> Clean(g, m)
  {
    if found.crossed == 0 {
      UncrossedIsClean(g, m.fat, m.dir, walks, m2.fat, m2.dir);
      assert CleanBy(g, m2, KeptAll(g, m.fat, m.dir, walks));
    }
    if Clean(g, m) { CleanIsQuiet(g, m, walks, found); }
  }

  lemma CleanIsQuiet(g: Shape, m: Medium, walks: seq<seq<nat>>, found: Findings)
    requires GoodShape(g) && Clean(g, m) && AllWalks(g, m.fat, m.dir, walks) && CountedTo(g, m, walks, found)
    ensures Quiet(found)
  {
    var chains :| CleanBy(g, m, chains);
    ExactIsSound(g, m.fat, m.dir, chains);
    SoundWalks(g, m.fat, m.dir, chains, walks);
    SoundUncontested(g, m.fat, m.dir, chains);
    forall k | 0 <= k < |m.dir| && m.dir[k].Used?
      ensures AnswerOf(g, m.fat, m.dir[k], walks[k]) == Agree
    {
      assert Exact(g, m.fat, m.dir[k], chains[k]);
      AnswerSound(g, m.fat, m.dir[k], chains[k]);
    }
  }

  // ------------------------------------------------------------------
  // On a sound volume
  // ------------------------------------------------------------------

  /** A record after the check, when its chain of `held` clusters was whole and nobody else's. */
  function CheckedSlot(g: Shape, s: Slot, held: nat): Slot
    requires g.clusterSize > 0
  {
    if s.Vacant? then s else
    var needed := ClustersFor(s.size, g.clusterSize);
    if held == needed then s
    else if needed == 0 then s.(first := 0, size := 0)
    else s.(size := needed * g.clusterSize)
  }

  /** What it keeps of that chain. */
  function CheckedChain(g: Shape, s: Slot, cs: seq<nat>): seq<nat>
    requires g.clusterSize > 0
  {
    if s.Vacant? then [] else Take(cs, ClustersFor(s.size, g.clusterSize))
  }

  lemma AnswerSound(g: Shape, f: Table, s: Slot, cs: seq<nat>)
    requires GoodShape(g) && SlotSound(g, f, s, cs) && s.Used?
    ensures KeptOf(g, f, s, cs) == CheckedChain(g, s, cs)
    ensures SlotAfter(g, f, s, cs, false) == CheckedSlot(g, s, |cs|)
    ensures AnswerOf(g, f, s, cs) == Agree <==> |cs| == ClustersFor(s.size, g.clusterSize)
  {
    var n := g.clusterSize;
    ClustersForBounds(s.size, n);
    if s.size > 0 { KeepFits(n, s.size, ClustersFor(s.size, n), |cs|); }
    if cs != [] {
      LinkInChain(g, f, cs, |cs| - 1);
      assert StoppedBy(g, f, s.first, cs) == Ended;
    }
    assert cs[..|cs|] == cs;
  }

  /** What the check leaves of a sound volume: each chain cut to what its record's size needs, and every other cluster free. */
  ghost predicate Tidied(g: Shape, f: Table, dir: seq<Slot>, chains: seq<seq<nat>>, f1: Table, dir1: seq<Slot>, kept: seq<seq<nat>>) {
    && g.clusterSize > 0 && |dir1| == |dir| == |chains| == |kept| && |f| == |f1|
    && (forall k {:trigger dir1[k]} {:trigger kept[k]} :: 0 <= k < |dir| ==>
          dir1[k] == CheckedSlot(g, dir[k], |chains[k]|) && kept[k] == CheckedChain(g, dir[k], chains[k]))
    && (forall c: nat {:trigger Held(kept, c)} :: c < |f| && ValidCluster(g, c) ==> (f1[c] == FREE <==> !Held(kept, c) && f[c] != BAD))
    && AllExact(g, f1, dir1, kept)
  }

  /** What a record keeps is in use. */
  lemma KeptInUse(g: Shape, f: Table, s: Slot, cs: seq<nat>, c: nat)
    requires Exact(g, f, s, cs) && c in cs
    ensures c < |f| && f[c] != FREE && f[c] != BAD
  {
    var i :| 0 <= i < |cs| && cs[i] == c;
    LinkInChain(g, f, cs, i);
  }

  lemma HeldIsUsed(g: Shape, f: Table, dir: seq<Slot>, chains: seq<seq<nat>>, c: nat)
    requires Sound(g, f, dir, chains) && Held(chains, c)
    ensures c < |f| && f[c] != BAD && f[c] != FREE
  {
    var k :| 0 <= k < |chains| && c in chains[k];
    assert SlotSound(g, f, dir[k], chains[k]);
    var i :| 0 <= i < |chains[k]| && chains[k][i] == c;
    LinkInChain(g, f, chains[k], i);
  }

  /** An entry is free afterwards exactly if no kept chain holds it and it was not defective. */
  lemma FreedExactly(g: Shape, f: Table, dir: seq<Slot>, chains: seq<seq<nat>>, f1: Table, dir1: seq<Slot>, c: nat)
    requires GoodShape(g) && CheckedTo(g, f, dir, chains, f1, dir1) && Sound(g, f, dir, chains) && c < |f| && ValidCluster(g, c)
    ensures f1[c] == FREE <==> !Held(KeptAll(g, f, dir, chains), c) && f[c] != BAD
  {
    var kept := KeptAll(g, f, dir, chains);
    SoundUncontested(g, f, dir, chains);
    UncrossedIsClean(g, f, dir, chains, f1, dir1);
    ExactIsSound(g, f1, dir1, kept);
    if Held(kept, c) {
      HeldIsUsed(g, f1, dir1, kept, c);
      var k :| 0 <= k < |kept| && c in kept[k];
      KeptInWalk(g, f, dir[k], chains[k]);
      assert Met(chains, |chains|, c);
    } else if Met(chains, |chains|, c) {
      HeldIsUsed(g, f, dir, chains, c);
      var j :| 0 <= j < |chains| && c in chains[j];
      assert Dealt(g, f, dir, chains, f1, dir1, j);
      assert c !in kept[j];
    }
  }

  lemma SoundIsTidied(g: Shape, f: Table, dir: seq<Slot>, walks: seq<seq<nat>>, chains: seq<seq<nat>>, f1: Table, dir1: seq<Slot>)
    requires GoodShape(g) && CheckedTo(g, f, dir, walks, f1, dir1) && Sound(g, f, dir, chains)
    ensures |walks| == |dir| && Tidied(g, f, dir, chains, f1, dir1, KeptAll(g, f, dir, walks))
    ensures Crossings(walks, |walks|) == 0
  {
    SoundWalks(g, f, dir, chains, walks);
    SoundUncontested(g, f, dir, chains);
    var kept := KeptAll(g, f, dir, walks);
    UncrossedIsClean(g, f, dir, walks, f1, dir1);
    forall k | 0 <= k < |dir|
      ensures dir1[k] == CheckedSlot(g, dir[k], |chains[k]|) && kept[k] == CheckedChain(g, dir[k], chains[k])
    {
      assert Dealt(g, f, dir, walks, f1, dir1, k) && SlotSound(g, f, dir[k], chains[k]);
      if dir[k].Used? { AnswerSound(g, f, dir[k], chains[k]); }
    }
    forall c: nat | c < |f| && ValidCluster(g, c)
      ensures f1[c] == FREE <==> !Held(kept, c) && f[c] != BAD
    {
      FreedExactly(g, f, dir, chains, f1, dir1, c);
    }
  }

  /** A second check finds nothing and writes nothing, whatever the first one met but crossed chains. */
  method CheckTwice(v: Volume) returns (first: Findings, second: Findings)
    requires v.Valid()
    modifies v`m, v`dirty, v`history, v`cache, v`cacheSector, v`table
    ensures v.Valid() && (first.crossed == 0 ==> Clean(v.shape, v.m) && Quiet(second))
  {
    ghost var m1, m2, m3, w1, w2;
    first, m1, w1 := Check(v);
    QuietIsClean(v.shape, m1, w1, first, v.m);
    m3 := v.m;
    second, m2, w2 := Check(v);
    QuietIsClean(v.shape, m2, w2, second, v.m);
  }
}
