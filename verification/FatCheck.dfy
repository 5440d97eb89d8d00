/**
 The volume check over a whole volume, on whatever bytes the medium holds: the
 copies mirrored, every record inspected and repaired, the rest swept.
 */
module FatCheck {
  import opened FatVolume
  import opened FatTable
  import opened FatVerdict
  import opened FatFollow
  import opened FatRepair
  import opened FatCourse

  // ------------------------------------------------------------------
  // The copies
  // ------------------------------------------------------------------

  function TakeSector(f: Table, sector: nat): Table
    requires PER_SECTOR * (sector + 1) <= |f|
  {
    f[PER_SECTOR * sector..PER_SECTOR * (sector + 1)]
  }

  /** The copy, brought into step as far as a sector. */
  function Mixed(fat: Table, copy: Table, sector: nat): (r: Table)
    requires |fat| == |copy| && PER_SECTOR * sector <= |fat|
    ensures |r| == |fat|
  {
    fat[..PER_SECTOR * sector] + copy[PER_SECTOR * sector..]
  }

  /** In how many of the first `n` sectors the copies differ. */
  function Differing(fat: Table, copy: Table, n: nat): nat
    requires |fat| == |copy| && PER_SECTOR * n <= |fat|
  {
    if n == 0 then 0 else Differing(fat, copy, n - 1) + if TakeSector(copy, n - 1) != TakeSector(fat, n - 1) then 1 else 0
  }

  function SectorDiffers(m: Medium, sector: nat): bool
    requires PER_SECTOR * (sector + 1) <= |m.fat| == |m.copy|
  {
    TakeSector(m.copy, sector) != TakeSector(m.fat, sector)
  }

  /** The medium with a sector of the first copy over the other. */
  function SectorCopied(m: Medium, sector: nat): Medium
    requires PER_SECTOR * (sector + 1) <= |m.fat| == |m.copy|
  {
    m.(copy := Splice(m.copy, sector, TakeSector(m.fat, sector)))
  }

  /** A sector of the first copy of the table over the other. */
  method PutCopy(v: Volume, sector: nat)
    requires v.Valid() && PER_SECTOR * (sector + 1) <= |v.m.fat| && |v.m.copy| == |v.m.fat|
    modifies v`m, v`history
    ensures v.Valid() && v.m == SectorCopied(old(v.m), sector)
  {
    v.m := SectorCopied(v.m, sector);
    v.history := v.history + [v.m];
  }

  /** The copy brought into step as far as a sector, `differing` of those before it written over. */
  ghost predicate Mirroring(m0: Medium, m: Medium, sector: nat, differing: nat) {
    true == (
      && |m0.copy| == |m0.fat| && PER_SECTOR * sector <= |m0.fat| && m == m0.(copy := Mixed(m0.fat, m0.copy, sector))
      && differing == Differing(m0.fat, m0.copy, sector)
      && (differing == 0 <==> m0.copy[..PER_SECTOR * sector] == m0.fat[..PER_SECTOR * sector]))
  }

  lemma MirroringMore(m0: Medium, m: Medium, sector: nat, differing: nat)
    requires Mirroring(m0, m, sector, differing) && PER_SECTOR * (sector + 1) <= |m0.fat|
    ensures |m.copy| == |m.fat| == |m0.fat|
    ensures if SectorDiffers(m, sector) then Mirroring(m0, SectorCopied(m, sector), sector + 1, differing + 1)
            else Mirroring(m0, m, sector + 1, differing)
  {
    SectorSplit(m0.fat, m0.copy, sector);
  }

  lemma MirroringEnds(m0: Medium, m: Medium, sectors: nat, differing: nat)
    requires |m0.copy| == |m0.fat| == PER_SECTOR * sectors
    ensures Mirroring(m0, m0, 0, 0)
    ensures Mirroring(m0, m, sectors, differing) ==>
      && m == m0.(copy := m0.fat) && differing == Differing(m0.fat, m0.copy, sectors)
      && (differing == 0 <==> m0.copy == m0.fat)
  {
    assert m0.copy[..|m0.copy|] == m0.copy && m0.fat[..|m0.fat|] == m0.fat;
  }

  /** One sector compared, and written over if it differs. */
  method MirrorSector(v: Volume, sector: nat, differing: nat, ghost m0: Medium) returns (now: nat)
    requires v.Valid() && sector < v.shape.tableSectors && Mirroring(m0, v.m, sector, differing)
    modifies v`m, v`history
    ensures v.Valid() && Mirroring(m0, v.m, sector + 1, now)
  {
    MirroringMore(m0, v.m, sector, differing);
    now := differing;
    if SectorDiffers(v.m, sector) {
      now := now + 1;
      PutCopy(v, sector);
    }
  }

  /** The first copy of the table over the other, counting the sectors that differed. */
  method MirrorCopies(v: Volume) returns (differing: nat)
    requires v.Valid()
    modifies v`m, v`history
    ensures v.Valid() && v.m == old(v.m).(copy := old(v.m.fat))
    ensures differing == Differing(old(v.m.fat), old(v.m.copy), v.shape.tableSectors)
    ensures differing == 0 <==> old(v.m.copy == v.m.fat)
  {
    ghost var m := v.m;
    differing := 0;
    MirroringEnds(m, m, v.shape.tableSectors, differing);
    for sector := 0 to v.shape.tableSectors
      invariant v.Valid() && Mirroring(m, v.m, sector, differing)
    {
      differing := MirrorSector(v, sector, differing, m);
    }
    MirroringEnds(m, v.m, v.shape.tableSectors, differing);
  }

  lemma SectorSplit(fat: Table, copy: Table, sector: nat)
    requires |fat| == |copy| && PER_SECTOR * (sector + 1) <= |fat|
    ensures TakeSector(Mixed(fat, copy, sector), sector) == TakeSector(copy, sector)
    ensures Splice(Mixed(fat, copy, sector), sector, TakeSector(fat, sector)) == Mixed(fat, copy, sector + 1)
    ensures TakeSector(copy, sector) == TakeSector(fat, sector) ==> Mixed(fat, copy, sector) == Mixed(fat, copy, sector + 1)
    ensures copy[..PER_SECTOR * (sector + 1)] == fat[..PER_SECTOR * (sector + 1)]
            <==> copy[..PER_SECTOR * sector] == fat[..PER_SECTOR * sector] && TakeSector(copy, sector) == TakeSector(fat, sector)
  {
    var lo, hi := PER_SECTOR * sector, PER_SECTOR * (sector + 1);
    assert copy[..hi] == copy[..lo] + copy[lo..hi] && fat[..hi] == fat[..lo] + fat[lo..hi];
    assert copy[lo..] == copy[lo..hi] + copy[hi..];
    assert copy[..hi][..lo] == copy[..lo] && fat[..hi][..lo] == fat[..lo];
    assert copy[..hi][lo..] == copy[lo..hi] && fat[..hi][lo..] == fat[lo..hi];
  }

  // ------------------------------------------------------------------
  // The records
  // ------------------------------------------------------------------

  /** One record's clusters accounted for and any difference repaired. */
  method Inspect(v: Volume, walk: Walk, slot: nat) returns (answer: Verdict, ghost seen: seq<nat>, ghost w: Walked)
    requires v.Valid() && slot < |v.m.dir| && v.m.dir[slot].Used?
    modifies v`m, v`dirty, v`history, v`cache, v`cacheSector, v`table, walk
    ensures v.Valid() && v.m.data == old(v.m.data) && (old(v.m.copy == v.m.fat) ==> v.m.copy == v.m.fat)
    ensures Inspected(v.shape, old(v.table), old(v.m.dir)[slot], old(walk.reached), seen, w)
    ensures answer == Decide(old(v.m.dir)[slot].first, old(v.m.dir)[slot].size, v.shape.clusterSize, w)
    ensures walk.reached == old(walk.reached) + Members(seen) && walk.found == Counted(old(walk.found), answer)
    ensures v.m.dir == old(v.m.dir)[slot := RecordAfter(old(v.m.dir)[slot], answer, v.shape.clusterSize)]
    ensures !answer.Contested? ==>
      Repaired(v.shape, old(v.table), v.table, old(v.m.dir)[slot], v.m.dir[slot], seen, KeptAfter(answer, seen))
    ensures answer.Agree? || answer.Contested? ==> v.table == old(v.table)
  {
    var s := v.m.dir[slot];
    var chain := Walked(0, 0, 0, Ended);
    seen := [];
    if s.first != 0 {
      if ValidCluster(v.shape, s.first) {
        chain, seen := Follow(v, walk, s.first, ClustersFor(s.size, v.shape.clusterSize));
      } else {
        chain := chain.(outcome := Strayed);
      }
    }
    w := chain;
    answer := Decide(s.first, s.size, v.shape.clusterSize, chain);
    walk.found := Counted(walk.found, answer);
    Apply(v, slot, answer, old(walk.reached), seen, w);
  }

  /** The volume as the records' part of a check found it. */
  datatype Begun = Begun(table: Table, dir: seq<Slot>, found: Findings, walks: seq<seq<nat>>)

  /** The check has dealt with the first `n` records. */
  ghost predicate Checking(v: Volume, walk: Walk, b: Begun, n: nat)
    reads v, walk
  {
    true == (
      && v.Valid() && n <= |b.dir| == |v.m.dir| == |b.walks|
      && Course(v.shape, b.table, b.dir, b.walks, n, v.table, v.m.dir, walk.reached)
      && Tallied(v.shape, b.table, b.dir, b.walks, n, v.table, v.m.dir, b.found, walk.found))
  }

  /** One record, used or not. */
  method CheckRecord(v: Volume, walk: Walk, slot: nat, ghost b: Begun)
    requires Checking(v, walk, b, slot) && slot < |b.dir| && slot < |v.m.dir|
    modifies v`m, v`dirty, v`history, v`cache, v`cacheSector, v`table, walk
    ensures Checking(v, walk, b, slot + 1)
    ensures v.m.data == old(v.m.data) && (old(v.m.copy == v.m.fat) ==> v.m.copy == v.m.fat)
  {
    if v.m.dir[slot].Vacant? {
      CheckedVacant(v.shape, b, slot, v.table, v.m.dir, walk.reached, walk.found);
      return;
    }
    ghost var f, dir, reached, found := v.table, v.m.dir, walk.reached, walk.found;
    var answer;
    ghost var seen, w;
    answer, seen, w := Inspect(v, walk, slot);
    CheckedUsed(v.shape, b, slot, f, dir, reached, found, seen, w, v.table, v.m.dir);
  }

  lemma CheckedVacant(g: Shape, b: Begun, n: nat, f: Table, dir: seq<Slot>, reached: set<nat>, found: Findings)
    requires Course(g, b.table, b.dir, b.walks, n, f, dir, reached) && n < |dir| && dir[n].Vacant?
    requires Tallied(g, b.table, b.dir, b.walks, n, f, dir, b.found, found)
    ensures Course(g, b.table, b.dir, b.walks, n + 1, f, dir, reached)
    ensures Tallied(g, b.table, b.dir, b.walks, n + 1, f, dir, b.found, found)
  {
    assert dir[n] == b.dir[n] && WalkOf(g, b.table, b.dir[n], b.walks[n]);
    assert reached + Members([]) == reached;
    ReachedMore(g, b.table, b.dir, b.walks, n, reached, []);
    CourseContested(g, b.table, b.dir, b.walks, n, f, dir, reached, reached);
    TalliedVacant(g, b.table, b.dir, b.walks, n, f, dir, b.found, found);
  }

  lemma CheckedUsed(g: Shape, b: Begun, n: nat, f: Table, dir: seq<Slot>, reached: set<nat>, found: Findings,
                    seen: seq<nat>, w: Walked, f1: Table, dir1: seq<Slot>)
    requires Course(g, b.table, b.dir, b.walks, n, f, dir, reached) && n < |dir|
    requires Tallied(g, b.table, b.dir, b.walks, n, f, dir, b.found, found) && Inspected(g, f, dir[n], reached, seen, w)
    requires var answer := Decide(dir[n].first, dir[n].size, g.clusterSize, w);
      && dir1 == dir[n := RecordAfter(dir[n], answer, g.clusterSize)]
      && (!answer.Contested? ==> Repaired(g, f, f1, dir[n], dir1[n], seen, KeptAfter(answer, seen)))
      && (answer.Agree? || answer.Contested? ==> f1 == f)
    ensures Course(g, b.table, b.dir, b.walks, n + 1, f1, dir1, reached + Members(seen))
    ensures Tallied(g, b.table, b.dir, b.walks, n + 1, f1, dir1, b.found,
                    Counted(found, Decide(dir[n].first, dir[n].size, g.clusterSize, w)))
  {
    var answer := Decide(dir[n].first, dir[n].size, g.clusterSize, w);
    CourseAnswer(g, b.table, b.dir, b.walks, n, f, dir, reached, seen, w);
    ReachedMore(g, b.table, b.dir, b.walks, n, reached, seen);
    assert WalkOf(g, b.table, b.dir[n], b.walks[n]);
    TalliedMore(g, b.table, b.dir, b.walks, n, f, dir, b.found, found, answer, f1, dir1);
    if answer.Contested? {
      CourseContested(g, b.table, b.dir, b.walks, n, f, dir, reached, reached + Members(seen));
    } else {
      CourseRepaired(g, b.table, b.dir, b.walks, n, f, dir, reached, f1, dir1[n], reached + Members(seen));
    }
  }

  /** Every record inspected, in order. */
  method CheckRecords(v: Volume, walk: Walk, ghost b: Begun)
    requires Checking(v, walk, b, 0)
    modifies v`m, v`dirty, v`history, v`cache, v`cacheSector, v`table, walk
    ensures Checking(v, walk, b, |b.dir|)
    ensures v.m.data == old(v.m.data) && (old(v.m.copy == v.m.fat) ==> v.m.copy == v.m.fat)
  {
    for slot := 0 to |v.m.dir|
      invariant |v.m.dir| == |b.dir| && Checking(v, walk, b, slot)
      invariant v.m.data == old(v.m.data) && (old(v.m.copy == v.m.fat) ==> v.m.copy == v.m.fat)
    {
      CheckRecord(v, walk, slot, b);
    }
  }

  // ------------------------------------------------------------------
  // The sweep
  // ------------------------------------------------------------------

  /** An entry after the sweep: freed if it is used, not defective, and nobody's. */
  function Swept(g: Shape, f: Table, reached: set<nat>, c: nat): nat
    requires c < |f|
  {
    if ValidCluster(g, c) && f[c] != FREE && f[c] != BAD && c !in reached then FREE else f[c]
  }

  ghost predicate SweptTo(g: Shape, f: Table, f1: Table, reached: set<nat>, to: nat) {
    && |f1| == |f|
    && forall c :: 0 <= c < |f| ==> f1[c] == if c < to then Swept(g, f, reached, c) else f[c]
  }

  /** The used clusters below `to`, not defective, that were not reached. */
  ghost function Unreached(g: Shape, f: Table, reached: set<nat>, to: nat): set<nat> {
    set c: nat | c < to && c < |f| && ValidCluster(g, c) && f[c] != FREE && f[c] != BAD && c !in reached
  }

  lemma UnreachedMore(g: Shape, f: Table, reached: set<nat>, c: nat)
    requires c < |f| && ValidCluster(g, c)
    ensures |Unreached(g, f, reached, c + 1)|
         == |Unreached(g, f, reached, c)| + if f[c] != FREE && f[c] != BAD && c !in reached then 1 else 0
  {
    var a, b := Unreached(g, f, reached, c), Unreached(g, f, reached, c + 1);
    if f[c] != FREE && f[c] != BAD && c !in reached { assert b == a + {c}; } else { assert b == a; }
  }

  lemma SweptMore(g: Shape, f: Table, f1: Table, reached: set<nat>, c: nat)
    requires SweptTo(g, f, f1, reached, c) && c < |f|
    ensures f1[c] == f[c]
    ensures SweptTo(g, f, f1[c := Swept(g, f, reached, c)], reached, c + 1)
    ensures Swept(g, f, reached, c) != f[c] ==> f1[c := Swept(g, f, reached, c)] != f
    ensures f1[c := f1[c]] == f1
  {
    assert f1[c := Swept(g, f, reached, c)][c] == Swept(g, f, reached, c);
  }

  ghost predicate Sweeping(g: Shape, f: Table, f1: Table, reached: set<nat>, to: nat, found0: Findings, found: Findings) {
    true == (
      && SweptTo(g, f, f1, reached, to) && (found == found0 <==> f1 == f)
      && var lost := |Unreached(g, f, reached, to)|;
         found == found0.(lost := found0.lost + lost, reclaimed := found0.reclaimed + lost))
  }

  lemma SweepingMore(g: Shape, f: Table, f1: Table, reached: set<nat>, c: nat, found0: Findings, found: Findings)
    requires Sweeping(g, f, f1, reached, c, found0, found) && c < |f| && ValidCluster(g, c)
    ensures |f1| == |f| && f1[c] == f[c]
    ensures if Stray(f1, reached, c) then Sweeping(g, f, f1[c := FREE], reached, c + 1, found0, CountLost(found))
      else Sweeping(g, f, f1, reached, c + 1, found0, found)
  {
    SweptMore(g, f, f1, reached, c);
    UnreachedMore(g, f, reached, c);
  }

  lemma SweepingEnds(g: Shape, f: Table, f1: Table, reached: set<nat>, found0: Findings, found: Findings)
    requires GoodShape(g) && |f| == PER_SECTOR * g.tableSectors
    ensures Sweeping(g, f, f, reached, FIRST_CLUSTER, found0, found0)
    ensures Sweeping(g, f, f1, reached, g.clusters + FIRST_CLUSTER, found0, found) ==> Sweeping(g, f, f1, reached, |f|, found0, found)
  {
    assert Unreached(g, f, reached, FIRST_CLUSTER) == {};
    assert Unreached(g, f, reached, g.clusters + FIRST_CLUSTER) == Unreached(g, f, reached, |f|);
  }

  predicate Stray(f: Table, reached: set<nat>, c: nat)
    requires c < |f|
  {
    f[c] != FREE && f[c] != BAD && c !in reached
  }

  function CountLost(found: Findings): Findings {
    found.(lost := found.lost + 1, reclaimed := found.reclaimed + 1)
  }

  /** One cluster given back if it is used and was not reached. */
  method SweepCluster(v: Volume, walk: Walk, cluster: nat)
    requires v.Valid() && ValidCluster(v.shape, cluster)
    modifies v`m, v`dirty, v`history, v`cache, v`cacheSector, v`table, walk`found
    ensures v.Valid() && TableOnly(v, Any()) && cluster < |old(v.table)|
    ensures v.table == if Stray(old(v.table), walk.reached, cluster) then old(v.table)[cluster := FREE] else old(v.table)
    ensures walk.found == if Stray(old(v.table), walk.reached, cluster) then CountLost(old(walk.found)) else old(walk.found)
  {
    var value := Get(v, cluster, Any());
    if value != FREE && value != BAD && cluster !in walk.reached {
      walk.found := walk.found.(lost := walk.found.lost + 1);
      Set(v, cluster, FREE, Any());
      walk.found := walk.found.(reclaimed := walk.found.reclaimed + 1);
    }
  }

  /** Every cluster marked used that the walk did not reach, given back. */
  method Sweep(v: Volume, walk: Walk)
    requires v.Valid()
    modifies v`m, v`dirty, v`history, v`cache, v`cacheSector, v`table, walk`found
    ensures v.Valid() && TableOnly(v, Any()) && SweptTo(v.shape, old(v.table), v.table, walk.reached, |v.table|)
    ensures var lost := |Unreached(v.shape, old(v.table), walk.reached, |v.table|)|;
      walk.found == old(walk.found).(lost := old(walk.found).lost + lost, reclaimed := old(walk.found).reclaimed + lost)
    ensures Below(old(walk.found), walk.found) && (walk.found == old(walk.found) <==> v.table == old(v.table))
  {
    ghost var f, found := v.table, walk.found;
    SweepingEnds(v.shape, f, f, walk.reached, found, found);
    for cluster := FIRST_CLUSTER to v.shape.clusters + FIRST_CLUSTER
      invariant v.Valid() && TableOnly(v, Any()) && Sweeping(v.shape, f, v.table, walk.reached, cluster, found, walk.found)
    {
      SweepingMore(v.shape, f, v.table, walk.reached, cluster, found, walk.found);
      SweepCluster(v, walk, cluster);
    }
    SweepingEnds(v.shape, f, v.table, walk.reached, found, walk.found);
  }

  // ------------------------------------------------------------------
  // The whole check
  // ------------------------------------------------------------------

  /** No cluster is marked used that no record walks to, but the defective ones. */
  ghost predicate NoneLost(g: Shape, f: Table, walks: seq<seq<nat>>) {
    forall c: nat {:trigger Met(walks, |walks|, c)} :: c < |f| && ValidCluster(g, c) && f[c] != FREE && f[c] != BAD ==> Met(walks, |walks|, c)
  }

  /**
   What the check makes of any volume, told from its walks. Every record is
   dealt with; an entry changes only where a record was put right or where no
   walk comes, and there it is free unless it was defective.
   */
  ghost predicate CheckedTo(g: Shape, f: Table, dir: seq<Slot>, walks: seq<seq<nat>>, f1: Table, dir1: seq<Slot>) {
    && AllWalks(g, f, dir, walks) && |dir1| == |dir| && |f1| == |f|
    && (forall k {:trigger Dealt(g, f, dir, walks, f1, dir1, k)} :: 0 <= k < |dir| ==> Dealt(g, f, dir, walks, f1, dir1, k))
    && (forall c {:trigger LeftAlone(walks, |walks|, c)} :: 0 <= c < |f| && Met(walks, |walks|, c) && LeftAlone(walks, |walks|, c) ==> f1[c] == f[c])
    && (forall c: nat {:trigger Met(walks, |walks|, c)} :: c < |f| && !Met(walks, |walks|, c) ==>
          f1[c] == if ValidCluster(g, c) && f[c] != BAD then FREE else f[c])
  }

  /** The used clusters, not defective, that no record walks to. */
  ghost function Lost(g: Shape, f: Table, walks: seq<seq<nat>>): set<nat> {
    set c: nat {:trigger Met(walks, |walks|, c)} | c < |f| && ValidCluster(g, c) && f[c] != FREE && f[c] != BAD && !Met(walks, |walks|, c)
  }

  /** Everything found, counted. */
  ghost function Tally(g: Shape, m: Medium, walks: seq<seq<nat>>): Findings
    requires |m.fat| == |m.copy| == PER_SECTOR * g.tableSectors
  {
    var breaks, lost := Faults(g, m.fat, m.dir, walks, |m.dir|, Breaking), |Lost(g, m.fat, walks)|;
    Findings(Differing(m.fat, m.copy, g.tableSectors), Crossings(walks, |walks|),
             Faults(g, m.fat, m.dir, walks, |m.dir|, Overclaiming), breaks,
             breaks + Faults(g, m.fat, m.dir, walks, |m.dir|, Underclaiming), lost, lost)
  }

  /** What is counted of it: each fault once; and nothing but crossings exactly on a volume that needs no repair. */
  ghost predicate CountedTo(g: Shape, m: Medium, walks: seq<seq<nat>>, found: Findings) {
    && |m.fat| == |m.copy| == PER_SECTOR * g.tableSectors && found == Tally(g, m, walks)
    && (Quiet(Uncrossed(found)) <==> m.copy == m.fat && Faultless(g, m.fat, m.dir, walks, |walks|) && NoneLost(g, m.fat, walks))
  }

  lemma SweptChecked(g: Shape, b: Begun, f: Table, dir: seq<Slot>, reached: set<nat>, f1: Table)
    requires Course(g, b.table, b.dir, b.walks, |b.dir|, f, dir, reached) && SweptTo(g, f, f1, reached, |f|)
    ensures CheckedTo(g, b.table, b.dir, b.walks, f1, dir)
  {
    var walks, n := b.walks, |b.walks|;
    forall k | 0 <= k < n
      ensures Dealt(g, b.table, b.dir, walks, f1, dir, k)
    {
      assert Dealt(g, b.table, b.dir, walks, f, dir, k);
      forall c | c in walks[k] && c < |f|
        ensures f1[c] == f[c]
      {
        assert Met(walks, n, c);
      }
      DealtFrame(g, b.table, b.dir, walks, f, dir, f1, dir, k);
    }
    forall c | 0 <= c < |f| && LeftAlone(walks, n, c)
      ensures f[c] == b.table[c]
    {
    }
    forall c: nat | c < |f| && !Met(walks, n, c)
      ensures f[c] == b.table[c] && c !in reached
    {
    }
  }

  lemma SweptSame(g: Shape, f: Table, f1: Table, walks: seq<seq<nat>>, reached: set<nat>)
    requires SweptTo(g, f, f1, reached, |f|) && forall c {:trigger Met(walks, |walks|, c)} :: c in reached <==> Met(walks, |walks|, c)
    ensures f1 == f <==> NoneLost(g, f, walks)
  {
    if NoneLost(g, f, walks) {
      forall c | 0 <= c < |f|
        ensures f1[c] == f[c]
      {
        assert c in reached <==> Met(walks, |walks|, c);
      }
    }
    if f1 == f {
      forall c: nat | c < |f| && ValidCluster(g, c) && f[c] != FREE && f[c] != BAD
        ensures Met(walks, |walks|, c)
      {
        assert f1[c] == Swept(g, f, reached, c);
      }
    }
  }

  /** The records' part and the sweep, told together. */
  lemma Concludes(g: Shape, m: Medium, b: Begun, f: Table, dir: seq<Slot>, reached: set<nat>, counted: Findings, f1: Table, found: Findings)
    requires b.table == m.fat && b.dir == m.dir && b.found == Findings(b.found.mirrored, 0, 0, 0, 0, 0, 0)
    requires |m.fat| == |m.copy| && |m.fat| == PER_SECTOR * g.tableSectors
    requires b.found.mirrored == Differing(m.fat, m.copy, g.tableSectors) && (b.found.mirrored == 0 <==> m.copy == m.fat)
    requires Course(g, b.table, b.dir, b.walks, |b.dir|, f, dir, reached)
    requires Tallied(g, b.table, b.dir, b.walks, |b.dir|, f, dir, b.found, counted)
    requires SweptTo(g, f, f1, reached, |f|)
    requires var lost := |Unreached(g, f, reached, |f|)|;
      found == counted.(lost := counted.lost + lost, reclaimed := counted.reclaimed + lost)
    requires Below(counted, found) && (found == counted <==> f1 == f)
    ensures CheckedTo(g, m.fat, m.dir, b.walks, f1, dir) && CountedTo(g, m, b.walks, found)
    ensures Quiet(Uncrossed(found)) ==> f1 == m.fat && dir == m.dir && m.copy == m.fat
  {
    SweptChecked(g, b, f, dir, reached, f1);
    SweptSame(g, f, f1, b.walks, reached);
    UnreachedIsLost(g, b, f, dir, reached);
    ConcludesQuiet(g, m, b, f, dir, counted, f1, found);
  }

  /** What the sweep finds is what was lost from the start. */
  lemma UnreachedIsLost(g: Shape, b: Begun, f: Table, dir: seq<Slot>, reached: set<nat>)
    requires Course(g, b.table, b.dir, b.walks, |b.dir|, f, dir, reached)
    ensures Unreached(g, f, reached, |f|) == Lost(g, b.table, b.walks)
  {
    forall c: nat | c < |f|
      ensures c in reached <==> Met(b.walks, |b.walks|, c)
      ensures c !in reached ==> f[c] == b.table[c]
    {
      assert c in reached <==> Met(b.walks, |b.walks|, c);
    }
  }

  lemma ConcludesQuiet(g: Shape, m: Medium, b: Begun, f: Table, dir: seq<Slot>, counted: Findings, f1: Table, found: Findings)
    requires b.table == m.fat && b.dir == m.dir && b.found == Findings(b.found.mirrored, 0, 0, 0, 0, 0, 0)
    requires |m.fat| == |m.copy| && |m.fat| == PER_SECTOR * g.tableSectors && |b.walks| == |b.dir|
    requires b.found.mirrored == Differing(m.fat, m.copy, g.tableSectors) && (b.found.mirrored == 0 <==> m.copy == m.fat)
    requires Tallied(g, b.table, b.dir, b.walks, |b.dir|, f, dir, b.found, counted)
    requires var lost := |Lost(g, m.fat, b.walks)|;
      found == counted.(lost := counted.lost + lost, reclaimed := counted.reclaimed + lost)
    requires Below(counted, found) && (found == counted <==> f1 == f) && (f1 == f <==> NoneLost(g, f, b.walks))
    ensures CountedTo(g, m, b.walks, found)
    ensures Quiet(Uncrossed(found)) ==> f1 == m.fat && dir == m.dir && m.copy == m.fat
  {
    if Quiet(Uncrossed(found)) {
      assert Uncrossed(counted) == Uncrossed(b.found) && found == counted;
    }
  }

  /** The check, on any volume at all. `m1` is the medium once the table's cache has reached it. */
  method Check(v: Volume) returns (found: Findings, ghost m1: Medium, ghost walks: seq<seq<nat>>)
    requires v.Valid()
    modifies v`m, v`dirty, v`history, v`cache, v`cacheSector, v`table
    ensures v.Valid() && !v.dirty && v.table == v.m.fat == v.m.copy
    ensures m1.fat == old(v.table) && m1.dir == old(v.m.dir) && m1.data == old(v.m.data) == v.m.data && Fits(v.shape, m1)
    ensures !old(v.dirty) ==> m1 == old(v.m)
    ensures CheckedTo(v.shape, m1.fat, m1.dir, walks, v.m.fat, v.m.dir) && CountedTo(v.shape, m1, walks, found)
    ensures Quiet(Uncrossed(found)) ==> v.m == m1
  {
    Flush(v, Any());
    m1 := v.m;
    walks := WalksOf(v.shape, m1.fat, m1.dir);
    found := CheckFlushed(v, walks);
    Flush(v, Any());
  }

  /** The copies, the records and the sweep, from a table wholly on the medium. */
  method CheckFlushed(v: Volume, ghost walks: seq<seq<nat>>) returns (found: Findings)
    requires v.Valid() && v.table == v.m.fat && AllWalks(v.shape, v.table, v.m.dir, walks)
    modifies v`m, v`dirty, v`history, v`cache, v`cacheSector, v`table
    ensures v.Valid() && v.m.data == old(v.m.data) && v.m.copy == v.m.fat
    ensures CheckedTo(v.shape, old(v.m.fat), old(v.m.dir), walks, v.table, v.m.dir)
    ensures CountedTo(v.shape, old(v.m), walks, found)
    ensures Quiet(Uncrossed(found)) ==>
      v.table == old(v.m.fat) && v.m.dir == old(v.m.dir) && old(v.m.copy == v.m.fat)
  {
    ghost var m0 := v.m;
    var walk := new Walk();
    var mirrored := MirrorCopies(v);
    walk.found := walk.found.(mirrored := mirrored);
    ghost var b := Begun(v.table, v.m.dir, walk.found, walks);
    CheckRecords(v, walk, b);
    ghost var f, counted, dir := v.table, walk.found, v.m.dir;
    Sweep(v, walk);
    found := walk.found;
    Concludes(v.shape, m0, b, f, dir, walk.reached, counted, v.table, found);
  }
}
