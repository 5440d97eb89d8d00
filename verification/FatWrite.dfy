/**
 Writing into a file: the chain walked and grown in the table's cache, the
 sectors written as they are reached, and the record only when the caller
 commits it.
 */
module FatWrite {
  import opened ByteFields
  import opened FatVolume
  import opened FatTable
  import opened FatChains


  /**
   A file somebody has open: its record's place, what the record should say, and
   where the last walk ended. `told` are the records its writing is told by: the
   volume's own, unless the handle has lost its record.
   */
  class Entry {
    const slot: nat
    ghost const told: seq<Slot>
    var first: nat
    var size: nat
    var walked: nat
    var walkedCluster: nat

    constructor (slot: nat, first: nat, size: nat, walked: nat, walkedCluster: nat, ghost told: seq<Slot>)
      ensures this.slot == slot && this.told == told && this.first == first && this.size == size
      ensures this.walked == walked && this.walkedCluster == walkedCluster
    {
      this.slot, this.told, this.first, this.size := slot, told, first, size;
      this.walked, this.walkedCluster := walked, walkedCluster;
    }
  }

  /** The medium as the records this entry is told by have it. */
  ghost function Told(v: Volume, e: Entry): Medium
    reads v
  {
    v.m.(dir := e.told)
  }

  ghost function Retold(h: seq<Medium>, dir: seq<Slot>): (r: seq<Medium>)
    ensures |r| == |h|
  {
    seq(|h|, i requires 0 <= i < |h| => h[i].(dir := dir))
  }

  ghost function Tale(v: Volume, e: Entry): seq<Medium>
    reads v
  {
    Retold(v.history, e.told)
  }

  lemma RetoldWrites(h0: seq<Medium>, h1: seq<Medium>, m: Medium, dir: seq<Slot>, ok: Table -> bool)
    requires TableWrites(h0, h1, m, ok)
    ensures TableWrites(Retold(h0, dir), Retold(h1, dir), m.(dir := dir), ok)
  {
  }

  lemma RetoldOne(h: seq<Medium>, m: Medium, dir: seq<Slot>)
    ensures Retold(h + [m], dir) == Retold(h, dir) + [m.(dir := dir)]
  {
  }

  ghost predicate Opened(v: Volume, e: Entry, chains: seq<seq<nat>>)
    reads v, e
  {
    true == (
      && v.Valid() && Ready(v.shape, Told(v, e), v.table, e.slot, e.first, e.size, chains)
      && (e.walkedCluster != 0 ==> e.walked < |chains[e.slot]| && chains[e.slot][e.walked] == e.walkedCluster))
  }

  ghost predicate Longer(chains: seq<seq<nat>>, longer: seq<seq<nat>>, slot: nat) {
    slot < |chains| == |longer| && chains[slot] <= longer[slot] && longer == chains[slot := longer[slot]]
  }

  /** The chain may have grown, and the table with it; nothing the medium was given meanwhile shows it. */
  twostate predicate Grew(v: Volume, e: Entry, chains: seq<seq<nat>>, longer: seq<seq<nat>>)
    reads v, e
  {
    && Longer(chains, longer, e.slot) && Opened(v, e, longer) && (longer == chains ==> v.table == old(v.table))
    && TableOnly(v, Standing(v.shape, e.told, longer, e.slot))
    && Spared(old(v.table), v.table, chains[e.slot], longer[e.slot])
  }

  lemma StandingLonger(g: Shape, h0: seq<Medium>, h1: seq<Medium>, h2: seq<Medium>, m: Medium, dir: seq<Slot>,
                       slot: nat, c0: seq<seq<nat>>, c1: seq<seq<nat>>)
    requires TableWrites(h0, h1, m, Standing(g, dir, c0, slot)) && TableWrites(h1, h2, m, Standing(g, dir, c1, slot))
    requires Longer(c0, c1, slot)
    ensures TableWrites(h0, h2, m, Standing(g, dir, c1, slot))
  {
    forall i | |h0| <= i < |h2|
      ensures h2[i].dir == m.dir && h2[i].data == m.data && Behind(g, h2[i].fat, dir, c1, slot)
    {
      if i < |h1| {
        assert h2[i] == h1[i];
        StandsLonger(g, h1[i].fat, dir, c0, slot, c1[slot]);
      }
    }
  }

  /** What a step along a chain leaves of the medium's table: as it was or caught up, or without the link just made. */
  ghost predicate Stepped(g: Shape, mf0: Table, f0: Table, mf: Table, f: Table, c: seq<nat>, cs: seq<nat>, i: nat) {
    Links(g, mf0, f0) ==>
      && Links(g, mf, f)
      && if cs == c then i + 1 < |c| && (mf == mf0 || mf == f) && f == f0
         else i + 2 == |cs| && Dangling(mf, cs)
  }

  /** The table's half of an append: nothing the medium is given meanwhile shows it. */
  method AppendBehind(v: Volume, slot: nat, last: nat, ghost dir: seq<Slot>, ghost chains: seq<seq<nat>>) returns (ok: bool, next: nat)
    requires v.Valid() && ValidCluster(v.shape, last)
    requires Behind(v.shape, v.m.fat, dir, chains, slot) && Behind(v.shape, v.table, dir, chains, slot)
    modifies v`m, v`dirty, v`history, v`cache, v`cacheSector, v`table, v`hint
    ensures v.Valid() && TableOnly(v, Standing(v.shape, dir, chains, slot))
    ensures if ok then
        && last < |v.table| && IsFree(v.shape, old(v.table), next)
        && v.table == old(v.table)[next := TERMINATOR][last := next]
        && (OldOr(v, old(v.table)) || v.m.fat == old(v.table)[next := TERMINATOR])
      else v.table == old(v.table) && NoneFree(v.shape, v.table)
  {
    AllocsStand(v.shape, v.table, dir, chains, slot);
    ok, next := Append(v, last, Standing(v.shape, dir, chains, slot));
  }

  /** A fresh cluster behind the last of the chain. */
  method AppendTo(v: Volume, e: Entry, last: nat, ghost chains: seq<seq<nat>>)
    returns (ok: bool, next: nat, ghost longer: seq<seq<nat>>)
    requires Opened(v, e, chains) && chains[e.slot] != [] && chains[e.slot][|chains[e.slot]| - 1] == last
    modifies v`m, v`dirty, v`history, v`cache, v`cacheSector, v`table, v`hint
    ensures Grew(v, e, chains, longer)
    ensures ok ==> longer[e.slot] == chains[e.slot] + [next]
    ensures ok && old(Links(v.shape, v.m.fat, v.table)) ==>
      Links(v.shape, v.m.fat, v.table) && Dangling(v.m.fat, longer[e.slot])
    ensures !ok ==> longer == chains && v.table == old(v.table) && NoneFree(v.shape, v.table)
  {
    ghost var g, cs, mf, was := v.shape, chains[e.slot], v.m.fat, v.table;
    ReadyStands(g, Told(v, e), was, e.slot, e.first, e.size, chains);
    ChainOf(g, was, Committed(e.told, e.slot, e.first, e.size), chains, e.slot);
    longer := chains;
    ok, next := AppendBehind(v, e.slot, last, e.told, chains);
    if ok {
      longer := chains[e.slot := cs + [next]];
      Appended(g, Told(v, e), was, e.slot, e.first, e.size, chains, longer, next, v.m, old(v.history), v.history);
      AppendedLags(g, mf, was, v.m.fat, cs, next);
    }
  }

  lemma AppendedLags(g: Shape, mf0: Table, f0: Table, mf: Table, cs: seq<nat>, c: nat)
    requires GoodShape(g) && IsChain(g, f0, cs) && cs != [] && IsFree(g, f0, c) && (mf == mf0 || mf == f0 || mf == f0[c := TERMINATOR])
    ensures cs[|cs| - 1] < |f0|
    ensures Links(g, mf0, f0) ==> Links(g, mf, f0[c := TERMINATOR][cs[|cs| - 1] := c]) && Dangling(mf, cs + [c])
  {
    LinkInChain(g, f0, cs, |cs| - 1);
    if Links(g, mf0, f0) { AppendLags(g, mf0, f0, mf, cs, c); }
  }

  lemma AllocsStand(g: Shape, f: Table, dir: seq<Slot>, chains: seq<seq<nat>>, slot: nat)
    requires Behind(g, f, dir, chains, slot)
    ensures forall c: nat :: IsFree(g, f, c) ==> Standing(g, dir, chains, slot)(f[c := TERMINATOR])
  {
    forall c: nat | IsFree(g, f, c)
      ensures Standing(g, dir, chains, slot)(f[c := TERMINATOR])
    {
      AllocStands(g, f, dir, chains, slot, c);
    }
  }

  /** What an append makes of the table, and of the writes it caused. */
  lemma Appended(g: Shape, m: Medium, f: Table, slot: nat, first: nat, size: nat, chains: seq<seq<nat>>, longer: seq<seq<nat>>, c: nat,
                 there: Medium, h0: seq<Medium>, h1: seq<Medium>)
    requires Ready(g, m, f, slot, first, size, chains) && IsFree(g, f, c) && chains[slot] != []
    requires longer == chains[slot := chains[slot] + [c]] && TableWrites(h0, h1, there, Standing(g, m.dir, chains, slot))
    ensures chains[slot][|chains[slot]| - 1] < |f|
    ensures Ready(g, m, f[c := TERMINATOR][chains[slot][|chains[slot]| - 1] := c], slot, first, size, longer)
    ensures Longer(chains, longer, slot)
    ensures Spared(f, f[c := TERMINATOR][chains[slot][|chains[slot]| - 1] := c], chains[slot], longer[slot])
    ensures TableWrites(h0, h1, there, Standing(g, m.dir, longer, slot)) && Behind(g, m.fat, m.dir, longer, slot)
  {
    ReadyLonger(g, m, f, slot, first, size, chains, c);
    AppendSpares(g, f, chains[slot], c);
    StandingLonger(g, h0, h1, h1, there, m.dir, slot, chains, longer);
    StandsLonger(g, m.fat, m.dir, chains, slot, longer[slot]);
  }

  /** The cluster behind the `i`th: the next of the chain, or a fresh one appended to it. */
  method NextOrAppend(v: Volume, e: Entry, cluster: nat, ghost i: nat, ghost chains: seq<seq<nat>>)
    returns (ok: bool, next: nat, ghost longer: seq<seq<nat>>)
    requires Opened(v, e, chains) && i < |chains[e.slot]| && chains[e.slot][i] == cluster
    modifies v`m, v`dirty, v`history, v`cache, v`cacheSector, v`table, v`hint
    ensures Grew(v, e, chains, longer)
    ensures ok ==> i + 1 < |longer[e.slot]| && longer[e.slot][i + 1] == next
    ensures ok ==> Stepped(v.shape, old(v.m.fat), old(v.table), v.m.fat, v.table, chains[e.slot], longer[e.slot], i)
    ensures !ok ==> longer == chains && i + 1 == |chains[e.slot]| && NoneFree(v.shape, v.table)
  {
    ReadyStands(v.shape, Told(v, e), v.table, e.slot, e.first, e.size, chains);
    ChainOf(v.shape, v.table, Committed(e.told, e.slot, e.first, e.size), chains, e.slot);
    LinkInChain(v.shape, v.table, chains[e.slot], i);
    var link := Next(v, cluster, Standing(v.shape, e.told, chains, e.slot));
    ok, next, longer := true, cluster, chains;
    match link
    case To(c) => next := c;
    case End =>
      ghost var h1 := v.history;
      ok, next, longer := AppendTo(v, e, cluster, chains);
      StandingLonger(v.shape, old(v.history), h1, v.history, v.m, e.told, e.slot, chains, longer);
  }

  lemma ChainOf(g: Shape, f: Table, dir: seq<Slot>, chains: seq<seq<nat>>, slot: nat)
    requires Sound(g, f, dir, chains) && slot < |dir| && dir[slot].Used?
    ensures IsChain(g, f, chains[slot]) && dir[slot].size <= g.clusterSize * |chains[slot]|
    ensures if chains[slot] == [] then dir[slot].first == 0 else dir[slot].first == chains[slot][0] >= FIRST_CLUSTER
  {
    assert SlotSound(g, f, dir[slot], chains[slot]);
  }

  lemma GrewTwice(g: Shape, h0: seq<Medium>, h1: seq<Medium>, h2: seq<Medium>, m: Medium, dir: seq<Slot>,
                  slot: nat, c0: seq<seq<nat>>, c1: seq<seq<nat>>, c2: seq<seq<nat>>, f0: Table, f1: Table, f2: Table)
    requires Longer(c0, c1, slot) && Longer(c1, c2, slot) && Spared(f0, f1, c0[slot], c1[slot]) && Spared(f1, f2, c1[slot], c2[slot])
    requires TableWrites(h0, h1, m, Standing(g, dir, c1, slot)) && TableWrites(h1, h2, m, Standing(g, dir, c2, slot))
    ensures Longer(c0, c2, slot) && TableWrites(h0, h2, m, Standing(g, dir, c2, slot))
    ensures (c2 == c0 ==> c1 == c0) && Spared(f0, f2, c0[slot], c2[slot])
  {
    SparedTwice(f0, f1, f2, c0[slot], c1[slot], c2[slot]);
    if c2 == c0 { assert c1[slot] == c0[slot]; }
    StandingLonger(g, h0, h1, h2, m, dir, slot, c1, c2);
  }

  /** The medium's table after a walk that ended at cluster `i`: whole, or without the last link of a chain that ends there. */
  ghost predicate Trailing(g: Shape, mf: Table, f: Table, c0: seq<nat>, cs: seq<nat>, i: nat) {
    true == (Lagging(g, mf, f, c0, cs) && (cs != c0 ==> |cs| == i + 1))
  }

  lemma TrailingStep(g: Shape, mf1: Table, f1: Table, mf: Table, f: Table, c0: seq<nat>, c1: seq<nat>, c2: seq<nat>, i: nat)
    requires Trailing(g, mf1, f1, c0, c1, i) && Stepped(g, mf1, f1, mf, f, c1, c2, i)
    requires c0 <= c1 <= c2
    ensures Trailing(g, mf, f, c0, c2, i + 1)
  {
  }

  /** The file's cluster number `i`. */
  ghost predicate At(chains: seq<seq<nat>>, slot: nat, i: nat, cluster: nat) {
    true == (slot < |chains| && i < |chains[slot]| && chains[slot][i] == cluster)
  }

  /** The cluster `want` clusters into the file, resuming where the last walk of this entry stopped. */
  method WalkTo(v: Volume, e: Entry, want: nat, ghost chains: seq<seq<nat>>)
    returns (ok: bool, cluster: nat, ghost longer: seq<seq<nat>>)
    requires Opened(v, e, chains) && chains[e.slot] != []
    modifies v`m, v`dirty, v`history, v`cache, v`cacheSector, v`table, v`hint, e`walked, e`walkedCluster
    ensures Grew(v, e, chains, longer)
    ensures ok ==> want < |longer[e.slot]| && longer[e.slot][want] == cluster
    ensures ok && old(v.m.fat == v.table) ==> Trailing(v.shape, v.m.fat, v.table, chains[e.slot], longer[e.slot], want)
    ensures want == 0 ==> ok && longer == chains && v.m == old(v.m) && v.table == old(v.table)
    ensures !ok ==> |longer[e.slot]| <= want && NoneFree(v.shape, v.table)
  {
    ChainOf(v.shape, v.table, Committed(e.told, e.slot, e.first, e.size), chains, e.slot);
    ok, longer := true, chains;
    var index := 0;
    cluster := e.first;
    if e.walkedCluster != 0 && e.walked <= want { index, cluster := e.walked, e.walkedCluster; }
    while index < want
      invariant Grew(v, e, chains, longer)
      invariant index <= want && At(longer, e.slot, index, cluster)
      invariant old(v.m.fat == v.table) ==> Trailing(v.shape, v.m.fat, v.table, chains[e.slot], longer[e.slot], index)
      invariant want == 0 ==> longer == chains && v.m == old(v.m) && v.table == old(v.table)
    {
      ghost var h1, c1, mf1, f1 := v.history, longer, v.m.fat, v.table;
      ok, cluster, longer := NextOrAppend(v, e, cluster, index, c1);
      if ok && old(v.m.fat == v.table) { TrailingStep(v.shape, mf1, f1, v.m.fat, v.table, chains[e.slot], c1[e.slot], longer[e.slot], index); }
      GrewTwice(v.shape, old(v.history), h1, v.history, v.m, e.told, e.slot, chains, c1, longer, old(v.table), f1, v.table);
      if !ok { return; }
      index := index + 1;
    }
    e.walked, e.walkedCluster := want, cluster;
  }

  /** The same for a file that may have no cluster yet. */
  method ClusterAt(v: Volume, e: Entry, want: nat, ghost chains: seq<seq<nat>>)
    returns (ok: bool, cluster: nat, ghost longer: seq<seq<nat>>)
    requires Opened(v, e, chains)
    modifies v`m, v`dirty, v`history, v`cache, v`cacheSector, v`table, v`hint, e`first, e`walked, e`walkedCluster
    ensures Grew(v, e, chains, longer)
    ensures ok ==> want < |longer[e.slot]| && longer[e.slot][want] == cluster
    ensures ok && old(v.m.fat == v.table) && (chains[e.slot] == [] ==> want == 0) ==>
      Trailing(v.shape, v.m.fat, v.table, chains[e.slot], longer[e.slot], want)
    ensures !ok ==> |longer[e.slot]| <= want && NoneFree(v.shape, v.table)
  {
    ChainOf(v.shape, v.table, Committed(e.told, e.slot, e.first, e.size), chains, e.slot);
    longer := chains;
    if e.first < FIRST_CLUSTER {
      ok, cluster, longer := FirstCluster(v, e, chains);
      if !ok { return; }
    }
    ghost var h1, c1, f1 := v.history, longer, v.table;
    ok, cluster, longer := WalkTo(v, e, want, c1);
    GrewTwice(v.shape, old(v.history), h1, v.history, v.m, e.told, e.slot, chains, c1, longer, old(v.table), f1, v.table);
  }

  method FirstCluster(v: Volume, e: Entry, ghost chains: seq<seq<nat>>)
    returns (ok: bool, cluster: nat, ghost longer: seq<seq<nat>>)
    requires Opened(v, e, chains) && e.first == 0
    modifies v`m, v`dirty, v`history, v`cache, v`cacheSector, v`table, v`hint, e`first
    ensures Grew(v, e, chains, longer)
    ensures ok ==> longer[e.slot] != []
    ensures ok && old(v.m.fat == v.table) ==> Trailing(v.shape, v.m.fat, v.table, chains[e.slot], longer[e.slot], 0)
    ensures !ok ==> longer[e.slot] == [] && NoneFree(v.shape, v.table)
  {
    ghost var ok0 := Standing(v.shape, e.told, chains, e.slot);
    ReadyStands(v.shape, Told(v, e), v.table, e.slot, e.first, e.size, chains);
    ghost var was := v.table;
    ChainOf(v.shape, was, Committed(e.told, e.slot, e.first, e.size), chains, e.slot);
    longer := chains;
    ok, cluster := Alloc(v, ok0);
    if ok {
      ReadyFirst(v.shape, Told(v, e), was, e.slot, e.size, chains, cluster);
      e.first := cluster;
      longer := chains[e.slot := [cluster]];
      StandingLonger(v.shape, old(v.history), v.history, v.history, v.m, e.told, e.slot, chains, longer);
      StandsLonger(v.shape, v.m.fat, e.told, chains, e.slot, [cluster]);
    }
  }

  // ------------------------------------------------------------------
  // Bytes
  // ------------------------------------------------------------------

  /** From `m0` to `m`, `x` was written at `from` into one file, and nothing else that a record shows. */
  ghost predicate Laid(m0: Medium, c0: seq<seq<nat>>, m: Medium, c: seq<seq<nat>>, slot: nat, from: nat, x: seq<byte>) {
    && m.dir == m0.dir && Longer(c0, c, slot) && Unmoved(m0.data, m.data, c0, slot) && Untouched(m0.data, m.data, c[slot])
    && Patched(Bytes(m0.data, c0[slot]), from, x, Bytes(m.data, c[slot]))
  }

  lemma LaidLonger(m0: Medium, c0: seq<seq<nat>>, m: Medium, c: seq<seq<nat>>, m1: Medium, c1: seq<seq<nat>>,
                   slot: nat, from: nat, x: seq<byte>)
    requires Laid(m0, c0, m, c, slot, from, x) && Longer(c, c1, slot) && m1.dir == m.dir && m1.data == m.data
    ensures Laid(m0, c0, m1, c1, slot, from, x)
  {
    var more := c1[slot][|c[slot]|..];
    assert c1[slot] == c[slot] + more;
    UntouchedLonger(m0.data, m.data, c[slot], c1[slot]);
    BytesConcat(m.data, c[slot], more);
    PatchedLonger(Bytes(m0.data, c0[slot]), from, x, Bytes(m.data, c[slot]), Bytes(m.data, more));
  }

  lemma UntouchedLonger(d0: Clusters, d1: Clusters, cs: seq<nat>, longer: seq<nat>)
    requires Untouched(d0, d1, cs) && cs <= longer
    ensures Untouched(d0, d1, longer)
  {
    assert longer == cs + longer[|cs|..];
  }

  /** What one sector's worth of bytes does to a cluster. */
  function Put(data: Clusters, cluster: nat, within: nat, chunk: seq<byte>): (r: Clusters)
    requires cluster < |data| && within + |chunk| <= |data[cluster]|
  {
    data[cluster := Overlay(data[cluster], within, chunk)]
  }

  lemma LaidMore(g: Shape, m0: Medium, c0: seq<seq<nat>>, m: Medium, f: Table, slot: nat, first: nat, size: nat, c: seq<seq<nat>>,
                 from: nat, x: seq<byte>, i: nat, within: nat, chunk: seq<byte>)
    requires Ready(g, m, f, slot, first, size, c) && DataFits(g, m.data) && Laid(m0, c0, m, c, slot, from, x)
    requires i < |c[slot]| && within + |chunk| <= g.clusterSize && |Bytes(m.data, c[slot][..i])| + within == from + |x|
    ensures c[slot][i] < |m.data| && DataFits(g, Put(m.data, c[slot][i], within, chunk))
    ensures Laid(m0, c0, m.(data := Put(m.data, c[slot][i], within, chunk)), c, slot, from, x + chunk)
  {
    var cs := c[slot];
    ChainOf(g, f, Committed(m.dir, slot, first, size), c, slot);
    BytesOverlay(m.data, cs, i, within, chunk);
    PatchedOn(Bytes(m0.data, c0[slot]), from, x, Bytes(m.data, cs), chunk);
    PutUnmoved(g, f, Committed(m.dir, slot, first, size), c, slot, m.data, Put(m.data, cs[i], within, chunk));
    UnmovedTwice(m0.data, m.data, Put(m.data, cs[i], within, chunk), c0, c, slot);
    PutFits(g, m.data, cs[i], within, chunk);
    assert Bytes(Put(m.data, cs[i], within, chunk), cs) == Overlay(Bytes(m.data, cs), from + |x|, chunk);
  }

  lemma PutFits(g: Shape, data: Clusters, cluster: nat, within: nat, chunk: seq<byte>)
    requires DataFits(g, data) && cluster < |data| && within + |chunk| <= g.clusterSize
    ensures DataFits(g, Put(data, cluster, within, chunk))
  {
  }

  lemma UnmovedTwice(d0: Clusters, d1: Clusters, d2: Clusters, c0: seq<seq<nat>>, c: seq<seq<nat>>, slot: nat)
    requires Unmoved(d0, d1, c0, slot) && Unmoved(d1, d2, c, slot) && Longer(c0, c, slot)
    ensures Unmoved(d0, d2, c0, slot)
  {
    forall k | 0 <= k < |c0| && k != slot
      ensures Bytes(d0, c0[k]) == Bytes(d2, c0[k])
    {
      assert c[k] == c0[k];
    }
  }

  /** Changing one file's clusters moves no other file's bytes. */
  lemma PutUnmoved(g: Shape, f: Table, dir: seq<Slot>, c: seq<seq<nat>>, slot: nat, d0: Clusters, d1: Clusters)
    requires Sound(g, f, dir, c) && slot < |c| && |d0| == |d1|
    requires forall k :: 0 <= k < |d0| && k !in c[slot] ==> d0[k] == d1[k]
    ensures Unmoved(d0, d1, c, slot)
  {
    forall k | 0 <= k < |c| && k != slot
      ensures Bytes(d0, c[k]) == Bytes(d1, c[k])
    {
      assert Apart(c[k], c[slot]);
      BytesFrame(d0, d1, c[k]);
    }
  }

  /** Where a write began, as its entry is told; `dir` and `past` are the records and the history there really were. */
  datatype Start = Start(m: Medium, table: Table, first: nat, size: nat, history: seq<Medium>, chains: seq<seq<nat>>, files: seq<File>,
                         dir: seq<Slot>, past: seq<Medium>)

  ghost predicate Began(g: Shape, s: Start, slot: nat) {
    && Ready(g, s.m, s.table, slot, s.first, s.size, s.chains) && DataFits(g, s.m.data)
    && Shows(s.m.dir, s.m.data, s.chains, s.files)
  }

  /** Table writes while a file is being written leave every cut with its files. */
  lemma LaidCut(g: Shape, s: Start, m: Medium, slot: nat, c: seq<seq<nat>>, from: nat, x: seq<byte>, all: seq<byte>,
                h1: seq<Medium>, h2: seq<Medium>)
    requires Began(g, s, slot) && DataFits(g, m.data) && Laid(s.m, s.chains, m, c, slot, from, x) && x <= all
    requires AllTorn(g, s.history, h1, s.files, slot, from, all) && TableWrites(h1, h2, m, Standing(g, m.dir, c, slot))
    ensures AllTorn(g, s.history, h2, s.files, slot, from, all)
  {
    BeganBytes(g, s, slot);
    PatchedOverlays(Bytes(s.m.data, s.chains[slot]), from, x, Bytes(m.data, c[slot]), s.m.dir[slot].size);
    forall i | |s.history| <= i < |h2|
      ensures Torn(g, h2[i], s.files, slot, from, all)
    {
      if i < |h1| {
        assert h2[i] == h1[i];
      } else {
        CutWhileWriting(g, h2[i], s.m.data, s.chains, c, slot, from, x, all, s.files);
      }
    }
  }

  /** A sector's bytes, read back around the update when it does not fill the sector. */
  method PutSector(v: Volume, cluster: nat, within: nat, chunk: seq<byte>)
    requires v.Valid() && cluster < |v.m.data| && within + |chunk| <= |v.m.data[cluster]|
    modifies v`m, v`history
    ensures v.Valid() && v.m == old(v.m).(data := Put(old(v.m.data), cluster, within, chunk))
    ensures v.history == old(v.history) + [v.m]
  {
    v.m := v.m.(data := v.m.data[cluster := Overlay(v.m.data[cluster], within, chunk)]);
    v.history := v.history + [v.m];
  }

  /** Where an offset lies: its cluster in the file, and its place in that cluster. */
  method Locate(g: Shape, offset: nat) returns (index: nat, within: nat)
    requires GoodShape(g)
    ensures offset == g.clusterSize * index + within && within < g.clusterSize
    ensures offset == 0 ==> index == 0
  {
    index, within := Divided(offset, g.clusterSize);
  }

  /** Quotient and remainder. */
  method Divided(a: nat, n: nat) returns (q: nat, r: nat)
    requires n > 0
    ensures a == n * q + r && r < n && (a == 0 ==> q == 0)
  {
    q, r := a / n, a % n;
  }

  ghost function Now(v: Volume, e: Entry, chains: seq<seq<nat>>, files: seq<File>): Start
    reads v, e
  {
    Start(Told(v, e), v.table, e.first, e.size, Tale(v, e), chains, files, v.m.dir, v.history)
  }

  /** `s` is where a write begins now. */
  ghost predicate Starting(v: Volume, e: Entry, s: Start)
    reads v, e
  {
    true == (Opened(v, e, s.chains) && Began(v.shape, s, e.slot) && s == Now(v, e, s.chains, s.files))
  }

  /** How much the bytes of an open file's chain are. */
  lemma BeganBytes(g: Shape, s: Start, slot: nat)
    requires Began(g, s, slot)
    ensures s.m.dir[slot].size <= s.size <= |Bytes(s.m.data, s.chains[slot])|
    ensures s.files[slot] == File(s.m.dir[slot].name, Bytes(s.m.data, s.chains[slot])[..s.m.dir[slot].size])
  {
    ChainOf(g, s.table, Committed(s.m.dir, slot, s.first, s.size), s.chains, slot);
    BytesLength(g, s.m.data, s.chains[slot]);
    assert FileOf(s.m.dir[slot], s.m.data, s.chains[slot]) == s.files[slot];
  }

  /** From one history to a longer one, every medium has these records. */
  ghost predicate SameRecords(h0: seq<Medium>, h1: seq<Medium>, dir: seq<Slot>) {
    h0 <= h1 && forall i {:trigger h1[i]} :: |h0| <= i < |h1| ==> h1[i].dir == dir
  }

  /** Since `s`, no record has been written. */
  ghost predicate RecordsKept(v: Volume, s: Start)
    reads v
  {
    v.m.dir == s.dir && SameRecords(s.past, v.history, s.dir)
  }

  /** Since `s`, the bytes `x` went in at `from`, and no cut shows more than the way to `to` disturbed. */
  ghost predicate Wrote(v: Volume, e: Entry, s: Start, longer: seq<seq<nat>>, from: nat, x: seq<byte>, all: seq<byte>)
    reads v, e
  {
    true == (
      && Opened(v, e, longer) && e.size == s.size && Began(v.shape, s, e.slot)
      && Laid(s.m, s.chains, Told(v, e), longer, e.slot, from, x) && x <= all && RecordsKept(v, s)
      && (longer == s.chains ==> v.table == s.table) && Spared(s.table, v.table, s.chains[e.slot], longer[e.slot])
      && AllTorn(v.shape, s.history, Tale(v, e), s.files, e.slot, from, all)
      && (s.m.copy == s.m.fat ==> v.m.copy == v.m.fat))
  }

  /** How the medium's table stands to what was appended since `s`, whose own table the medium had. */
  ghost predicate Trails(v: Volume, s: Start, slot: nat, longer: seq<seq<nat>>, i: nat)
    reads v
  {
    slot < |s.chains| && slot < |longer| && s.m.fat == s.table ==>
      Trailing(v.shape, v.m.fat, v.table, s.chains[slot], longer[slot], i)
  }

  /** The bytes of one sector, and the records of it. */
  method WriteSector(v: Volume, e: Entry, cluster: nat, within: nat, chunk: seq<byte>, ghost i: nat,
                     ghost s: Start, ghost longer: seq<seq<nat>>, ghost from: nat, ghost x: seq<byte>, ghost all: seq<byte>)
    requires Wrote(v, e, s, longer, from, x, all) && x + chunk <= all
    requires i < |longer[e.slot]| && longer[e.slot][i] == cluster && within + |chunk| <= v.shape.clusterSize
    requires v.shape.clusterSize * i + within == from + |x|
    modifies v`m, v`history
    ensures Wrote(v, e, s, longer, from, x + chunk, all) && v.m.fat == old(v.m.fat)
  {
    ghost var g, h0, h1 := v.shape, v.history, Tale(v, e);
    ChainOf(g, v.table, Committed(e.told, e.slot, e.first, e.size), longer, e.slot);
    BytesLength(g, v.m.data, longer[e.slot][..i]);
    LaidMore(g, s.m, s.chains, Told(v, e), v.table, e.slot, e.first, e.size, longer, from, x, i, within, chunk);
    PutSector(v, cluster, within, chunk);
    RetoldOne(h0, v.m, e.told);
    LaidCut(g, s, Told(v, e), e.slot, longer, from, x + chunk, all, h1, Tale(v, e));
  }

  /** Byte `at` of the file lies `within` into `cluster`. */
  ghost predicate Here(g: Shape, longer: seq<seq<nat>>, slot: nat, cluster: nat, within: nat, i: nat, at: nat) {
    true == (
      && slot < |longer| && i < |longer[slot]| && longer[slot][i] == cluster
      && within <= g.clusterSize && g.clusterSize * i + within == at)
  }

  /** The file's chain ends at or before byte `at`. */
  ghost predicate Short(g: Shape, longer: seq<seq<nat>>, slot: nat, at: nat) {
    slot < |longer| && g.clusterSize * |longer[slot]| <= at
  }

  /** The file's chain does not reach to `end`. */
  ghost predicate TooShort(g: Shape, longer: seq<seq<nat>>, slot: nat, end: nat) {
    slot < |longer| && g.clusterSize * |longer[slot]| < end
  }

  lemma HereNext(g: Shape, longer: seq<seq<nat>>, slot: nat, cluster: nat, i: nat, at: nat)
    requires slot < |longer| && i + 1 < |longer[slot]| && longer[slot][i + 1] == cluster && g.clusterSize * i + g.clusterSize == at
    ensures Here(g, longer, slot, cluster, 0, i + 1, at)
  {
  }

  lemma ShortHere(g: Shape, longer: seq<seq<nat>>, slot: nat, cluster: nat, i: nat, at: nat)
    requires Here(g, longer, slot, cluster, g.clusterSize, i, at) && i + 1 == |longer[slot]|
    ensures Short(g, longer, slot, at)
  {
    assert g.clusterSize * (i + 1) == g.clusterSize * i + g.clusterSize;
  }

  /** The next cluster to write into. */
  method WriteOn(v: Volume, e: Entry, cluster: nat, ghost i: nat, ghost at: nat, ghost s: Start, ghost chains: seq<seq<nat>>,
                 ghost from: nat, ghost x: seq<byte>, ghost all: seq<byte>)
    returns (ok: bool, next: nat, ghost longer: seq<seq<nat>>)
    requires Wrote(v, e, s, chains, from, x, all)
    requires Here(v.shape, chains, e.slot, cluster, v.shape.clusterSize, i, at) && Trails(v, s, e.slot, chains, i)
    modifies v`m, v`dirty, v`history, v`cache, v`cacheSector, v`table, v`hint
    ensures Wrote(v, e, s, longer, from, x, all) && Longer(chains, longer, e.slot)
    ensures if ok then Here(v.shape, longer, e.slot, next, 0, i + 1, at) && Trails(v, s, e.slot, longer, i + 1)
            else NoneFree(v.shape, v.table) && Short(v.shape, longer, e.slot, at)
  {
    ghost var m1, h0, h1, f1 := Told(v, e), v.history, Tale(v, e), v.table;
    ok, next, longer := NextOrAppend(v, e, cluster, i, chains);
    RetoldWrites(h0, v.history, v.m, e.told, Standing(v.shape, e.told, longer, e.slot));
    LaidLonger(s.m, s.chains, m1, chains, Told(v, e), longer, e.slot, from, x);
    LaidCut(v.shape, s, Told(v, e), e.slot, longer, from, x, all, h1, Tale(v, e));
    if longer == s.chains { assert chains[e.slot] == s.chains[e.slot]; }
    SparedTwice(s.table, f1, v.table, s.chains[e.slot], chains[e.slot], longer[e.slot]);
    if ok {
      HereNext(v.shape, longer, e.slot, next, i, at);
      if s.m.fat == s.table {
        TrailingStep(v.shape, m1.fat, f1, v.m.fat, v.table, s.chains[e.slot], chains[e.slot], longer[e.slot], i);
      }
    } else {
      ShortHere(v.shape, longer, e.slot, cluster, i, at);
    }
  }

  /** The cluster a write starts in. */
  method WriteFrom(v: Volume, e: Entry, from: nat, ghost s: Start, ghost all: seq<byte>)
    returns (ok: bool, cluster: nat, within: nat, ghost i: nat, ghost longer: seq<seq<nat>>)
    requires Starting(v, e, s) && from <= |Bytes(s.m.data, s.chains[e.slot])| 
    modifies v`m, v`dirty, v`history, v`cache, v`cacheSector, v`table, v`hint, e`first, e`walked, e`walkedCluster
    ensures Wrote(v, e, s, longer, from, [], all) && within < v.shape.clusterSize
    ensures if ok then Here(v.shape, longer, e.slot, cluster, within, i, from) && Trails(v, s, e.slot, longer, i)
            else NoneFree(v.shape, v.table) && Short(v.shape, longer, e.slot, from)
  {
    assert Laid(s.m, s.chains, s.m, s.chains, e.slot, from, []);
    var want: nat;
    want, within := Locate(v.shape, from);
    i := want;
    ok, cluster, longer := ClusterAt(v, e, want, s.chains);
    RetoldWrites(old(v.history), v.history, v.m, e.told, Standing(v.shape, e.told, longer, e.slot));
    LaidLonger(s.m, s.chains, s.m, s.chains, Told(v, e), longer, e.slot, from, []);
    LaidCut(v.shape, s, Told(v, e), e.slot, longer, from, [], all, s.history, Tale(v, e));
    if !ok { TimesGrows(v.shape.clusterSize, |longer[e.slot]|, want); }
  }

  /** What is left of a sector is left of its cluster. */
  lemma RoomFits(g: Shape, within: nat)
    requires GoodShape(g) && within < g.clusterSize
    ensures within + SECTOR - within % SECTOR <= g.clusterSize
  {
  }

  /** As many of the bytes as the sector takes. */
  method WriteSome(v: Volume, e: Entry, cluster: nat, within: nat, bytes: seq<byte>, done: nat, ghost i: nat,
                   ghost s: Start, ghost longer: seq<seq<nat>>, ghost from: nat, ghost x: seq<byte>)
    returns (take: nat, ghost more: seq<byte>)
    requires done < |bytes| && x == bytes[..done] && Wrote(v, e, s, longer, from, x, bytes)
    requires within < v.shape.clusterSize && Here(v.shape, longer, e.slot, cluster, within, i, from + |x|)
    modifies v`m, v`history
    ensures 0 < take && done + take <= |bytes| && more == bytes[..done + take]
    ensures Wrote(v, e, s, longer, from, more, bytes) && v.m.fat == old(v.m.fat)
    ensures Here(v.shape, longer, e.slot, cluster, within + take, i, from + |more|)
  {
    var room: nat := SECTOR - within % SECTOR;
    take := if |bytes| - done < room then |bytes| - done else room;
    more := bytes[..done + take];
    RoomFits(v.shape, within);
    assert x + bytes[done..done + take] == more;
    WriteSector(v, e, cluster, within, bytes[done..done + take], i, s, longer, from, x, bytes);
  }

  /** One sector, and the way to the next cluster when that one is full. */
  method WriteStep(v: Volume, e: Entry, cluster0: nat, within0: nat, bytes: seq<byte>, done0: nat, ghost i0: nat,
                   ghost s: Start, ghost chains: seq<seq<nat>>, ghost from: nat)
    returns (ok: bool, cluster: nat, within: nat, done: nat, ghost i: nat, ghost longer: seq<seq<nat>>)
    requires done0 < |bytes| && Wrote(v, e, s, chains, from, bytes[..done0], bytes)
    requires within0 < v.shape.clusterSize && Here(v.shape, chains, e.slot, cluster0, within0, i0, from + done0)
    requires Trails(v, s, e.slot, chains, i0)
    modifies v`m, v`dirty, v`history, v`cache, v`cacheSector, v`table, v`hint
    ensures done0 < done <= |bytes| && Wrote(v, e, s, longer, from, bytes[..done], bytes)
    ensures if ok then Here(v.shape, longer, e.slot, cluster, within, i, from + done) && Trails(v, s, e.slot, longer, i)
            else done < |bytes| && NoneFree(v.shape, v.table) && Short(v.shape, longer, e.slot, from + done)
    ensures ok ==> if done < |bytes| then within < v.shape.clusterSize else within > 0
  {
    var take: nat;
    ghost var x := bytes[..done0];
    ok, cluster, longer, i := true, cluster0, chains, i0;
    take, x := WriteSome(v, e, cluster, within0, bytes, done0, i, s, longer, from, x);
    done, within := done0 + take, within0 + take;
    if done < |bytes| && within == v.shape.clusterSize {
      ok, cluster, longer := WriteOn(v, e, cluster, i, from + done, s, longer, from, x, bytes);
      within, i := 0, i + 1;
    }
  }

  /** Where the last sector was written is how far the chain was needed. */
  lemma HereReached(v: Volume, s: Start, slot: nat, longer: seq<seq<nat>>, cluster: nat, within: nat, i: nat, end: nat)
    requires Here(v.shape, longer, slot, cluster, within, i, end) && Trails(v, s, slot, longer, i) && within > 0 && slot < |s.chains|
    ensures s.m.fat == s.table ==> Reached(v, s, slot, longer, end)
  {
  }

  /**
   Bytes into a file from an offset its chain reaches or ends at, each sector
   written when it is reached, the chain grown as they need it and no further.
   */
  method FillRange(v: Volume, e: Entry, from: nat, bytes: seq<byte>, ghost s: Start)
    returns (ok: bool, done: nat, ghost longer: seq<seq<nat>>)
    requires Starting(v, e, s) && from <= |Bytes(s.m.data, s.chains[e.slot])|
    modifies v`m, v`dirty, v`history, v`cache, v`cacheSector, v`table, v`hint, e`first, e`walked, e`walkedCluster
    ensures done <= |bytes| && Wrote(v, e, s, longer, from, bytes[..done], bytes)
    ensures if ok then done == |bytes| else NoneFree(v.shape, v.table) && Short(v.shape, longer, e.slot, from + done)
    ensures !ok && bytes != [] ==> done < |bytes|
    ensures ok && bytes != [] && s.m.fat == s.table ==> Reached(v, s, e.slot, longer, from + |bytes|)
  {
    var cluster: nat, within: nat;
    ghost var i: nat := 0;
    done := 0;
    ok, cluster, within, i, longer := WriteFrom(v, e, from, s, bytes);
    while ok && done < |bytes|
      invariant done <= |bytes| && Wrote(v, e, s, longer, from, bytes[..done], bytes)
      invariant if ok then Here(v.shape, longer, e.slot, cluster, within, i, from + done) && Trails(v, s, e.slot, longer, i)
                else NoneFree(v.shape, v.table) && Short(v.shape, longer, e.slot, from + done) && (bytes != [] ==> done < |bytes|)
      invariant ok ==> if done < |bytes| then within < v.shape.clusterSize else bytes == [] || within > 0
      decreases ok, |bytes| - done
    {
      ok, cluster, within, done, i, longer := WriteStep(v, e, cluster, within, bytes, done, i, s, longer, from);
    }
    if ok && bytes != [] { HereReached(v, s, e.slot, longer, cluster, within, i, from + done); }
  }

  /** The chain reaches to `to`, and grew only if it had to; if it did, the medium does not have all of it. */
  ghost predicate Reached(v: Volume, s: Start, slot: nat, longer: seq<seq<nat>>, to: nat)
    reads v
  {
    true == (
      && slot < |s.chains| && slot < |longer| && Lagging(v.shape, v.m.fat, v.table, s.chains[slot], longer[slot])
      && (longer[slot] != s.chains[slot] ==> longer[slot] != [] && v.shape.clusterSize * (|longer[slot]| - 1) < to))
  }
}
