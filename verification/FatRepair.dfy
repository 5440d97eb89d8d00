/** One record's repair, and what it leaves of the record, its chain and the rest of the table. */
module FatRepair {
  import opened FatVolume
  import opened FatTable
  import opened FatVerdict
  import opened FatFiles
  import opened FatResize
  import opened FatFollow
  import FatChains

  /** Of the clusters walked, those kept are exactly what the record now needs, the rest are free, and nothing else moved. */
  ghost predicate Repaired(g: Shape, f: Table, f1: Table, s: Slot, s1: Slot, seen: seq<nat>, kept: seq<nat>) {
    true == (
      && |f1| == |f| && s.Used? && s1.Used? && s1.name == s.name && Exact(g, f1, s1, kept)
      && (forall c :: c in kept ==> c in seen)
      && (forall c :: 0 <= c < |f| && c !in seen ==> f1[c] == f[c])
      && (forall c :: 0 <= c < |f| && c in seen && c !in kept ==> f1[c] == FREE))
  }

  /** What the record says after the repair. */
  function RecordAfter(s: Slot, answer: Verdict, clusterSize: nat): Slot
    requires s.Used?
  {
    match answer
    case Agree => s
    case Contested => s
    case ClaimsNothing => s.(size := 0)
    case BeginsNowhere => s.(first := 0, size := 0)
    case HoldsUnclaimed => s.(first := 0, size := 0)
    case RunsShort(n) => s.(size := n * clusterSize)
    case BreaksAt(_, n) => s.(size := n * clusterSize)
    case RunsLong(_, n) => s.(size := n * clusterSize)
  }

  /** Which of the clusters walked the record keeps. */
  function KeptAfter(answer: Verdict, seen: seq<nat>): seq<nat> {
    match answer
    case HoldsUnclaimed => []
    case RunsLong(_, n) => if n <= |seen| then seen[..n] else seen
    case _ => seen
  }

  lemma WholeClustersExact(g: Shape, f: Table, s: Slot, cs: seq<nat>)
    requires GoodShape(g) && IsChain(g, f, cs) && cs != [] && s.Used? && s.first == cs[0] && s.size == |cs| * g.clusterSize
    ensures Exact(g, f, s, cs)
  {
    var n := g.clusterSize;
    assert s.size == n * |cs| && n * (|cs| - 1) == n * |cs| - n;
    assert FIRST_CLUSTER <= cs[0];
    ClustersForUnique(s.size, n, |cs|);
  }

  lemma NothingExact(g: Shape, f: Table, s: Slot)
    requires GoodShape(g) && |f| == PER_SECTOR * g.tableSectors && s.Used? && s.first == 0 && s.size == 0
    ensures Exact(g, f, s, [])
  {
    ClustersForBounds(0, g.clusterSize);
    assert IsChain(g, f, []);
  }

  lemma AgreeExact(g: Shape, f: Table, s: Slot, cs: seq<nat>)
    requires GoodShape(g) && IsChain(g, f, cs) && cs != [] && s.Used? && s.first == cs[0]
    requires |cs| == ClustersFor(s.size, g.clusterSize)
    ensures Exact(g, f, s, cs)
  {
    ClustersForBounds(s.size, g.clusterSize);
    assert FIRST_CLUSTER <= cs[0];
  }

  /** A walk that met no other chain ends in a chain once its last link is an end mark. */
  lemma EndedHere(g: Shape, f: Table, cs: seq<nat>)
    requires Linked(g, f, cs) && cs != []
    ensures cs[|cs| - 1] < |f| && IsChain(g, f[cs[|cs| - 1] := TERMINATOR], cs)
  {
    var last := |cs| - 1;
    var f1 := f[cs[last] := TERMINATOR];
    forall i | 0 <= i < |cs| - 1
      ensures f1[cs[i]] == cs[i + 1]
    {
      assert cs[i] != cs[last];
    }
  }

  /** The broken link replaced by an end mark; every cluster before it kept. */
  method EndBroken(v: Volume, slot: nat, after: nat, n: nat, ghost cs: seq<nat>)
    requires v.Valid() && slot < |v.m.dir| && v.m.dir[slot].Used? && Linked(v.shape, v.table, cs)
    requires cs != [] && cs[0] == v.m.dir[slot].first && n == |cs| && after == cs[n - 1]
    modifies v`m, v`dirty, v`history, v`cache, v`cacheSector, v`table
    ensures v.Valid() && v.m.data == old(v.m.data)
    ensures v.m.dir == old(v.m.dir)[slot := old(v.m.dir)[slot].(size := n * v.shape.clusterSize)]
    ensures Repaired(v.shape, old(v.table), v.table, old(v.m.dir)[slot], v.m.dir[slot], cs, cs)
    ensures old(v.m.copy == v.m.fat) ==> v.m.copy == v.m.fat
  {
    EndedHere(v.shape, v.table, cs);
    Set(v, after, TERMINATOR, Any());
    PutRecord(v, slot, v.m.dir[slot].(size := n * v.shape.clusterSize));
    WholeClustersExact(v.shape, v.table, v.m.dir[slot], cs);
  }

  /** The table's half: an end mark behind the cluster kept last, and everything behind it given back. */
  method CutAndFree(v: Volume, after: nat, n: nat, ghost cs: seq<nat>)
    requires v.Valid() && IsChain(v.shape, v.table, cs) && 0 < n < |cs| && after == cs[n - 1]
    modifies v`m, v`dirty, v`history, v`cache, v`cacheSector, v`table
    ensures v.Valid() && TableOnly(v, Any()) && after < |old(v.table)|
    ensures Freed(v.table, old(v.table)[after := TERMINATOR], cs[n..]) && IsChain(v.shape, v.table, cs[..n])
  {
    LinkInChain(v.shape, v.table, cs, n - 1);
    CutChain(v.shape, v.table, cs, n);
    var tail := Get(v, after, Any());
    Set(v, after, TERMINATOR, Any());
    ghost var cut := v.table;
    var corrupt := FreeChain(v, tail, cs[n..], Any());
    FatChains.ChainFrame(v.shape, cut, v.table, cs[..n]);
  }

  /** A chain ended where the record's size does; the tail of the walk given back, whoever else may name it. */
  method EndLong(v: Volume, slot: nat, after: nat, n: nat, ghost cs: seq<nat>)
    requires v.Valid() && slot < |v.m.dir| && v.m.dir[slot].Used? && IsChain(v.shape, v.table, cs)
    requires cs != [] && cs[0] == v.m.dir[slot].first && 0 < n < |cs| && after == cs[n - 1]
    modifies v`m, v`dirty, v`history, v`cache, v`cacheSector, v`table
    ensures v.Valid() && v.m.data == old(v.m.data)
    ensures v.m.dir == old(v.m.dir)[slot := old(v.m.dir)[slot].(size := n * v.shape.clusterSize)]
    ensures Repaired(v.shape, old(v.table), v.table, old(v.m.dir)[slot], v.m.dir[slot], cs, cs[..n])
    ensures old(v.m.copy == v.m.fat) ==> v.m.copy == v.m.fat
  {
    ghost var f := v.table;
    CutAndFree(v, after, n, cs);
    PutRecord(v, slot, v.m.dir[slot].(size := n * v.shape.clusterSize));
    WholeClustersExact(v.shape, v.table, v.m.dir[slot], cs[..n]);
    CutRepaired(f, f[after := TERMINATOR], v.table, cs, n);
  }

  lemma CutRepaired(f: Table, cut: Table, f1: Table, cs: seq<nat>, n: nat)
    requires 0 < n <= |cs| && cs[n - 1] < |f| && cut == f[cs[n - 1] := TERMINATOR] && Freed(f1, cut, cs[n..])
    ensures forall c :: c in cs[..n] ==> c in cs
    ensures forall c :: 0 <= c < |f| && c !in cs ==> f1[c] == f[c]
    ensures forall c :: 0 <= c < |f| && c in cs && c !in cs[..n] ==> f1[c] == FREE
  {
    assert cs == cs[..n] + cs[n..];
  }

  /** A chain nobody claims any byte of, given back whole. */
  method FreeUnclaimed(v: Volume, slot: nat, ghost cs: seq<nat>)
    requires v.Valid() && slot < |v.m.dir| && v.m.dir[slot].Used? && IsChain(v.shape, v.table, cs)
    requires cs != [] && cs[0] == v.m.dir[slot].first
    modifies v`m, v`dirty, v`history, v`cache, v`cacheSector, v`table
    ensures v.Valid() && v.m.data == old(v.m.data)
    ensures v.m.dir == old(v.m.dir)[slot := old(v.m.dir)[slot].(first := 0, size := 0)]
    ensures Repaired(v.shape, old(v.table), v.table, old(v.m.dir)[slot], v.m.dir[slot], cs, [])
    ensures old(v.m.copy == v.m.fat) ==> v.m.copy == v.m.fat
  {
    var corrupt := FreeChain(v, v.m.dir[slot].first, cs, Any());
    PutRecord(v, slot, v.m.dir[slot].(first := 0, size := 0));
    NothingExact(v.shape, v.table, v.m.dir[slot]);
  }

  /** What was found of a record: nothing to walk, or a walk as far as it went. */
  ghost predicate Inspected(g: Shape, f: Table, s: Slot, reached: set<nat>, cs: seq<nat>, w: Walked) {
    && s.Used? && g.clusterSize > 0
    && if s.first == 0 then cs == [] else Follows(g, f, s.first, ClustersFor(s.size, g.clusterSize), reached, cs, w)
  }

  /** A verdict carried out on the medium. */
  method Apply(v: Volume, slot: nat, answer: Verdict, ghost reached: set<nat>, ghost cs: seq<nat>, ghost w: Walked)
    requires v.Valid() && slot < |v.m.dir| && Inspected(v.shape, v.table, v.m.dir[slot], reached, cs, w)
    requires answer == Decide(v.m.dir[slot].first, v.m.dir[slot].size, v.shape.clusterSize, w)
    modifies v`m, v`dirty, v`history, v`cache, v`cacheSector, v`table
    ensures v.Valid() && v.m.data == old(v.m.data) && (old(v.m.copy == v.m.fat) ==> v.m.copy == v.m.fat)
    ensures v.m.dir == old(v.m.dir)[slot := RecordAfter(old(v.m.dir)[slot], answer, v.shape.clusterSize)]
    ensures !answer.Contested? ==>
      Repaired(v.shape, old(v.table), v.table, old(v.m.dir)[slot], v.m.dir[slot], cs, KeptAfter(answer, cs))
    ensures answer.Agree? || answer.Contested? ==> v.m == old(v.m) && v.table == old(v.table) && v.dirty == old(v.dirty)
  {
    var s := v.m.dir[slot];
    ClustersForBounds(s.size, v.shape.clusterSize);
    match answer
    case Contested =>
    case Agree => AgreeRepaired(v.shape, v.table, s, reached, cs, w);
    case HoldsUnclaimed => FreeUnclaimed(v, slot, cs);
    case BeginsNowhere =>
      PutRecord(v, slot, s.(first := 0, size := 0));
      NothingExact(v.shape, v.table, v.m.dir[slot]);
    case ClaimsNothing =>
      PutRecord(v, slot, s.(size := 0));
      NothingExact(v.shape, v.table, v.m.dir[slot]);
    case RunsShort(n) =>
      PutRecord(v, slot, s.(size := n * v.shape.clusterSize));
      WholeClustersExact(v.shape, v.table, v.m.dir[slot], cs);
    case BreaksAt(after, n) => EndBroken(v, slot, after, n, cs);
    case RunsLong(after, n) => EndLong(v, slot, after, n, cs);
  }

  lemma AgreeRepaired(g: Shape, f: Table, s: Slot, reached: set<nat>, cs: seq<nat>, w: Walked)
    requires GoodShape(g) && |f| == PER_SECTOR * g.tableSectors
    requires Inspected(g, f, s, reached, cs, w) && Decide(s.first, s.size, g.clusterSize, w) == Agree
    ensures Repaired(g, f, f, s, s, cs, cs)
  {
    if s.first == 0 { NothingExact(g, f, s); } else { AgreeExact(g, f, s, cs); }
  }
}
