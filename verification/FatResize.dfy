/**
 A file made exactly some size: shorter, its record before its clusters; longer,
 zeros before the record.
 */
module FatResize {
  import opened ByteFields
  import opened FatVolume
  import opened FatTable
  import opened FatChains
  import opened FatWrite
  import opened FatStore
  import opened FatFiles

  // ------------------------------------------------------------------
  // Shorter
  // ------------------------------------------------------------------

  /** How many clusters a size needs. */
  method KeepCount(g: Shape, size: nat) returns (keep: nat)
    requires GoodShape(g)
    ensures size <= g.clusterSize * keep
    ensures size > 0 ==> keep > 0 && g.clusterSize * (keep - 1) < size
  {
    keep := size / g.clusterSize + if size % g.clusterSize != 0 then 1 else 0;
    KeepBounds(g.clusterSize, size, size / g.clusterSize, size % g.clusterSize, keep);
  }

  lemma KeepBounds(n: nat, size: nat, q: nat, r: nat, keep: nat)
    requires size == n * q + r && r < n && keep == q + if r != 0 then 1 else 0
    ensures size <= n * keep && (size > 0 ==> keep > 0 && n * (keep - 1) < size)
  {
    if r != 0 {
      assert n * keep == n * q + n;
    } else if q > 0 {
      assert n * (keep - 1) == n * q - n;
    }
  }

  lemma KeepFits(n: nat, size: nat, keep: nat, held: nat)
    requires keep > 0 && n * (keep - 1) < size <= n * held
    ensures keep <= held
  {
    if held <= keep - 1 { TimesGrows(n, held, keep - 1); }
  }

  /** A chain ended early: the front is a whole chain, and so is what was behind it. */
  lemma CutChain(g: Shape, f: Table, cs: seq<nat>, keep: nat)
    requires IsChain(g, f, cs) && 0 < keep < |cs|
    ensures cs[keep - 1] < |f| && IsChain(g, f[cs[keep - 1] := TERMINATOR], cs[..keep])
    ensures IsChain(g, f[cs[keep - 1] := TERMINATOR], cs[keep..]) && Apart(cs[..keep], cs[keep..])
  {
    var f1 := f[cs[keep - 1] := TERMINATOR];
    forall i | 0 <= i < keep - 1
      ensures f1[cs[i]] == cs[i + 1]
    {
    }
    forall i | keep <= i < |cs|
      ensures f1[cs[i]] == f[cs[i]]
    {
    }
    var front, back := cs[..keep], cs[keep..];
    assert Linked(g, f1, front) && Linked(g, f1, back);
  }

  lemma CutSound(g: Shape, f: Table, dir: seq<Slot>, chains: seq<seq<nat>>, slot: nat, keep: nat)
    requires Sound(g, f, dir, chains) && slot < |dir| && dir[slot].Used? && 0 < keep < |chains[slot]|
    requires dir[slot].size <= g.clusterSize * keep
    ensures chains[slot][keep - 1] < |f|
    ensures Sound(g, f[chains[slot][keep - 1] := TERMINATOR], dir, chains[slot := chains[slot][..keep]])
    ensures IsChain(g, f[chains[slot][keep - 1] := TERMINATOR], chains[slot][keep..])
    ensures forall k :: 0 <= k < |chains| && k != slot ==> Apart(chains[k], chains[slot][keep..])
    ensures Apart(chains[slot][..keep], chains[slot][keep..])
  {
    var cs := chains[slot];
    assert SlotSound(g, f, dir[slot], cs);
    CutChain(g, f, cs, keep);
    var f1 := f[cs[keep - 1] := TERMINATOR];
    forall k | 0 <= k < |dir| && k != slot
      ensures SlotSound(g, f1, dir[k], chains[k]) && Apart(chains[k], cs[..keep]) && Apart(chains[k], cs[keep..])
    {
      assert SlotSound(g, f, dir[k], chains[k]) && Apart(chains[k], cs);
      assert cs[keep - 1] in cs;
      if dir[k].Used? { ChainFrame(g, f, f1, chains[k]); }
    }
    SoundWith(g, f1, dir, chains, slot, dir[slot], cs[..keep]);
    assert dir[slot := dir[slot]] == dir;
  }

  /** The cluster holding a file's last byte. */
  method LastKept(v: Volume, first: nat, keep: nat, ghost cs: seq<nat>, ghost ok: Table -> bool) returns (cluster: nat)
    requires v.Valid() && ok(v.m.fat) && ok(v.table)
    requires IsChain(v.shape, v.table, cs) && 0 < keep <= |cs| && first == cs[0]
    modifies v`m, v`dirty, v`history, v`cache, v`cacheSector
    ensures v.Valid() && TableOnly(v, ok) && cluster == cs[keep - 1]
  {
    cluster := first;
    var held := 1;
    while held < keep
      invariant v.Valid() && TableOnly(v, ok) && 1 <= held <= keep && cluster == cs[held - 1]
    {
      LinkInChain(v.shape, v.table, cs, held - 1);
      var link := Next(v, cluster, ok);
      cluster, held := link.cluster, held + 1;
    }
  }

  /** The clusters past a file's size given back, its chain ended before them. */
  method DropTail(v: Volume, slot: nat, keep: nat, ghost chains: seq<seq<nat>>)
    requires v.Valid() && v.table == v.m.fat && Sound(v.shape, v.table, v.m.dir, chains)
    requires slot < |v.m.dir| && v.m.dir[slot].Used? && 0 < keep <= |chains[slot]|
    requires v.m.dir[slot].size <= v.shape.clusterSize * keep
    modifies v`m, v`dirty, v`history, v`cache, v`cacheSector, v`table
    ensures v.Valid() && TableOnly(v, Standing(v.shape, v.m.dir, chains, slot))
    ensures Sound(v.shape, v.table, v.m.dir, chains[slot := chains[slot][..keep]])
    ensures forall c :: 0 <= c < |v.table| && c in chains[slot][keep..] ==> v.table[c] == FREE
    ensures forall c {:trigger v.table[c]} :: 0 <= c < |v.table| && c !in chains[slot] ==> v.table[c] == old(v.table)[c]
  {
    ghost var g, cs, ok := v.shape, chains[slot], Standing(v.shape, v.m.dir, chains, slot);
    ChainOf(g, v.table, v.m.dir, chains, slot);
    WholeStands(g, v.table, v.m.dir, chains, slot);
    var cluster := LastKept(v, v.m.dir[slot].first, keep, cs, ok);
    var link := Next(v, cluster, ok);
    LinkInChain(g, v.table, cs, keep - 1);
    if link.End? {
      assert cs[..|cs|] == cs && chains[slot := cs] == chains;
      return;
    }
    CutTail(v, slot, cluster, link.cluster, keep, chains);
  }

  method CutTail(v: Volume, slot: nat, cluster: nat, tail: nat, keep: nat, ghost chains: seq<seq<nat>>)
    requires v.Valid() && Sound(v.shape, v.table, v.m.dir, chains)
    requires Standing(v.shape, v.m.dir, chains, slot)(v.table) && Standing(v.shape, v.m.dir, chains, slot)(v.m.fat)
    requires slot < |v.m.dir| && v.m.dir[slot].Used? && 0 < keep < |chains[slot]|
    requires v.m.dir[slot].size <= v.shape.clusterSize * keep
    requires cluster == chains[slot][keep - 1] && tail == chains[slot][keep]
    modifies v`m, v`dirty, v`history, v`cache, v`cacheSector, v`table
    ensures v.Valid() && TableOnly(v, Standing(v.shape, v.m.dir, chains, slot))
    ensures Sound(v.shape, v.table, v.m.dir, chains[slot := chains[slot][..keep]])
    ensures forall c :: 0 <= c < |v.table| && c in chains[slot][keep..] ==> v.table[c] == FREE
    ensures forall c {:trigger v.table[c]} :: 0 <= c < |v.table| && c !in chains[slot] ==> v.table[c] == old(v.table)[c]
  {
    ghost var g, cs, ok := v.shape, chains[slot], Standing(v.shape, v.m.dir, chains, slot);
    ghost var fewer := chains[slot := cs[..keep]];
    CutSound(g, v.table, v.m.dir, chains, slot, keep);
    Set(v, cluster, TERMINATOR, ok);
    ghost var cut := v.table;
    FreeingStands(g, cut, v.m.dir, chains, slot, keep);
    FreeingIsSound(g, cut, v.m.dir, fewer, cs[keep..]);
    assert PartlyFreed(cut, cut, cs[keep..]);
    var corrupt := FreeChain(v, tail, cs[keep..], ok);
    assert PartlyFreed(v.table, cut, cs[keep..]);
  }

  lemma WholeStands(g: Shape, f: Table, dir: seq<Slot>, chains: seq<seq<nat>>, slot: nat)
    requires Sound(g, f, dir, chains) && slot < |dir|
    ensures Behind(g, f, dir, chains, slot)
  {
    var cs := chains[slot];
    assert cs[..|cs|] == cs && chains[slot := cs] == chains;
    assert Reaches(g, f, dir, chains, slot, |cs|);
  }

  lemma FreeingStands(g: Shape, f: Table, dir: seq<Slot>, chains: seq<seq<nat>>, slot: nat, keep: nat)
    requires slot < |dir| && |chains| == |dir| && keep <= |chains[slot]|
    requires Sound(g, f, dir, chains[slot := chains[slot][..keep]])
    requires forall k :: 0 <= k < |chains| && k != slot ==> Apart(chains[k], chains[slot][keep..])
    requires Apart(chains[slot][..keep], chains[slot][keep..])
    ensures forall t :: PartlyFreed(t, f, chains[slot][keep..]) ==> Standing(g, dir, chains, slot)(t)
  {
    var fewer := chains[slot := chains[slot][..keep]];
    FreeingIsSound(g, f, dir, fewer, chains[slot][keep..]);
    forall t | PartlyFreed(t, f, chains[slot][keep..])
      ensures Standing(g, dir, chains, slot)(t)
    {
      assert SoundTable(g, dir, fewer)(t);
      assert Reaches(g, t, dir, chains, slot, keep);
    }
  }

  /** However much of a chain the table still has past a record's size, the files are there. */
  lemma StandingWhole(g: Shape, m: Medium, chains: seq<seq<nat>>, slot: nat, files: seq<File>)
    requires Shows(m.dir, m.data, chains, files) && slot < |m.dir| && m.dir[slot].Used? && DataFits(g, m.data)
    requires m.dir[slot].size <= |Bytes(m.data, chains[slot])| && Behind(g, m.fat, m.dir, chains, slot)
    ensures Whole(g, m, files)
  {
    var end := |files[slot].contents|;
    assert chains == chains[slot := chains[slot]];
    CutWhileWriting(g, m, m.data, chains, chains, slot, end, [], [], files);
    TornHidden(g, m, files, slot, end, []);
  }

  lemma TableWritesStanding(g: Shape, h0: seq<Medium>, h1: seq<Medium>, m: Medium, chains: seq<seq<nat>>, slot: nat, files: seq<File>)
    requires TableWrites(h0, h1, m, Standing(g, m.dir, chains, slot)) && DataFits(g, m.data)
    requires Shows(m.dir, m.data, chains, files) && slot < |m.dir| && m.dir[slot].Used?
    requires m.dir[slot].size <= |Bytes(m.data, chains[slot])|
    ensures AllWhole(g, h0, h1, files)
  {
    forall i | |h0| <= i < |h1|
      ensures Whole(g, h1[i], files)
    {
      StandingWhole(g, h1[i], chains, slot, files);
    }
  }

  /** Of one chain just the clusters a size needs are kept, and the others are free. */
  ghost predicate CutDown(g: Shape, f: Table, c0: seq<nat>, c1: seq<nat>, size: nat) {
    true == (
      && c1 <= c0 && size <= g.clusterSize * |c1|
      && (if size == 0 then c1 == [] else c1 != [] && g.clusterSize * (|c1| - 1) < size)
      && forall c {:trigger f[c]} :: 0 <= c < |f| && c in c0 && c !in c1 ==> f[c] == FREE)
  }

  /** What is left of a file past its new end given back, and the table to the medium. */
  method Trim(v: Volume, slot: nat, size: nat, ghost chains: seq<seq<nat>>, ghost files: seq<File>) returns (ghost kept: seq<seq<nat>>)
    requires Rest(v, chains, files) && |v.m.dir| == |files| == |chains| && slot < |files| && v.m.dir[slot].Used?
    requires 0 < size == v.m.dir[slot].size && IsChain(v.shape, v.table, chains[slot])
    requires size <= v.shape.clusterSize * |chains[slot]| == |Bytes(v.m.data, chains[slot])|
    modifies v`m, v`dirty, v`history, v`cache, v`cacheSector, v`table
    ensures Rest(v, kept, files) && AllWhole(v.shape, old(v.history), v.history, files)
    ensures OnlySlot(old(v.m), chains, v.m, kept, slot) && v.m.dir == old(v.m.dir) && v.m.data == old(v.m.data)
    ensures CutDown(v.shape, v.m.fat, chains[slot], kept[slot], size)
  {
    ghost var g, cs, h0 := v.shape, chains[slot], v.history;
    var keep := KeepCount(v.shape, size);
    KeepFits(g.clusterSize, size, keep, |cs|);
    assert cs == cs[..keep] + cs[keep..];
    kept := chains[slot := cs[..keep]];
    DropTail(v, slot, keep, chains);
    ghost var h1 := v.history;
    TableWritesStanding(g, h0, h1, v.m, chains, slot, files);
    TrimmedShows(g, v.m, v.table, chains, slot, keep, files);
    Flush(v, Standing(g, v.m.dir, chains, slot));
    TableWritesStanding(g, h1, v.history, v.m, chains, slot, files);
    WholeTwice(g, h0, h1, v.history, files);
  }

  lemma TrimmedShows(g: Shape, m: Medium, f: Table, chains: seq<seq<nat>>, slot: nat, keep: nat, files: seq<File>)
    requires Shows(m.dir, m.data, chains, files) && slot < |chains| && keep <= |chains[slot]| && DataFits(g, m.data)
    requires m.dir[slot].Used? && m.dir[slot].size <= g.clusterSize * keep
    requires Sound(g, f, m.dir, chains[slot := chains[slot][..keep]])
    ensures Shows(m.dir, m.data, chains[slot := chains[slot][..keep]], files) && Behind(g, f, m.dir, chains, slot)
  {
    var cs := chains[slot];
    assert Reaches(g, f, m.dir, chains, slot, keep);
    ChainOf(g, f, m.dir, chains[slot := cs[..keep]], slot);
    BytesLength(g, m.data, cs[..keep]);
    assert cs == cs[..keep] + cs[keep..];
    BytesConcat(m.data, cs[..keep], cs[keep..]);
    forall k | 0 <= k < |m.dir|
      ensures FileOf(m.dir[k], m.data, chains[slot := cs[..keep]][k]) == files[k]
    {
      assert FileOf(m.dir[k], m.data, chains[k]) == files[k];
    }
  }

  // ------------------------------------------------------------------
  // Longer
  // ------------------------------------------------------------------

  /** Over a table that trails the chain, a walk from its first cluster can only follow it. */
  lemma {:induction false} FollowsChain(g: Shape, mf: Table, f: Table, cs: seq<nat>, other: seq<nat>, i: nat)
    requires GoodShape(g) && Links(g, mf, f) && IsChain(g, f, cs) && IsChain(g, mf, other)
    requires i < |cs| <= |other| && other[0] == cs[0]
    ensures other[i] == cs[i]
  {
    if i > 0 {
      FollowsChain(g, mf, f, cs, other, i - 1);
      LinkInChain(g, mf, other, i - 1);
      LinkInChain(g, f, cs, i - 1);
    }
  }

  /** While the medium lacks the last link, no chain on it is as long. */
  lemma DanglingIsShort(g: Shape, mf: Table, f: Table, cs: seq<nat>, other: seq<nat>)
    requires GoodShape(g) && Links(g, mf, f) && IsChain(g, f, cs) && Dangling(mf, cs)
    requires IsChain(g, mf, other) && other != [] && other[0] == cs[0]
    ensures |other| < |cs|
  {
    if |cs| <= |other| {
      if |cs| == 1 {
        LinkInChain(g, mf, other, 0);
      } else {
        FollowsChain(g, mf, f, cs, other, |cs| - 2);
        FollowsChain(g, mf, f, cs, other, |cs| - 1);
        LinkInChain(g, mf, other, |cs| - 2);
      }
    }
  }

  /** A longer size on the record, before the table is on the medium: sound exactly if no cluster was needed. */
  lemma GrownRecord(g: Shape, m: Medium, f: Table, c0: seq<nat>, slot: nat, first: nat, size: nat, chains: seq<seq<nat>>)
    requires GoodShape(g) && Ready(g, m, f, slot, first, size, chains) && size > 0
    requires Lagging(g, m.fat, f, c0, chains[slot]) && c0 <= chains[slot]
    requires chains[slot] != c0 ==> g.clusterSize * (|chains[slot]| - 1) < size
    ensures size <= g.clusterSize * |c0| <==> chains[slot] == c0
    ensures (exists any :: Sound(g, m.fat, Committed(m.dir, slot, first, size), any)) <==> size <= g.clusterSize * |c0|
  {
    var cs := chains[slot];
    var dir := Committed(m.dir, slot, first, size);
    ChainOf(g, f, dir, chains, slot);
    if cs != c0 {
      TimesGrows(g.clusterSize, |c0|, |cs| - 1);
      forall any | Sound(g, m.fat, dir, any)
        ensures false
      {
        ChainOf(g, m.fat, dir, any, slot);
        DanglingIsShort(g, m.fat, f, cs, any[slot]);
        TimesGrows(g.clusterSize, |any[slot]|, |cs| - 1);
      }
    }
  }

  function Grown(file: File, size: nat): File
    requires file.File?
  {
    file.(contents := Stored(file.contents, size, []))
  }

  /** One write, at `at`, changes the record: before it the files are as they were, after it as they will be. */
  ghost predicate CutAt(g: Shape, h0: seq<Medium>, h: seq<Medium>, at: nat, a: seq<File>, b: seq<File>) {
    && h0 <= h && |h0| <= at < |h|
    && (forall i :: |h0| <= i < at ==> Whole(g, h[i], a))
    && (forall i :: at < i < |h| ==> Whole(g, h[i], b))
  }

  /** One record claims more than its chain has yet: put back, the volume holds these files, and what it leads to is nobody else's. */
  ghost predicate AheadBy(g: Shape, m: Medium, files: seq<File>, slot: nat, before: Slot, chains: seq<seq<nat>>, walk: seq<nat>) {
    && slot < |m.dir| && m.dir[slot].Used? && m.dir[slot].first != 0 && before.Used?
    && before.name == m.dir[slot].name && before.size < m.dir[slot].size < 0x1_0000_0000 && (before.first == 0 || before.first == m.dir[slot].first)
    && Holds(g, m.fat, m.dir[slot := before], m.data, files, chains)
    && Walks(g, m.fat, m.dir[slot].first, walk) && forall k :: 0 <= k < |chains| && k != slot ==> Apart(chains[k], walk)
  }

  ghost predicate Ahead(g: Shape, m: Medium, files: seq<File>, slot: nat) {
    exists before, chains, walk :: AheadBy(g, m, files, slot, before, chains, walk)
  }

  /** A record committed over a lagging table is only ahead. */
  lemma GrownAhead(g: Shape, m: Medium, f: Table, slot: nat, first: nat, held: nat, size: nat, longer: seq<seq<nat>>, files: seq<File>)
    requires GoodShape(g) && Ready(g, m, f, slot, first, held, longer) && DataFits(g, m.data) && m.dir[slot].size <= held < size < 0x1_0000_0000
    requires |m.fat| == PER_SECTOR * g.tableSectors && Links(g, m.fat, f) && Shows(m.dir, m.data, longer, files) && longer[slot] != []
    ensures Ahead(g, m.(dir := Committed(m.dir, slot, first, size)), files, slot)
  {
    var m1 := m.(dir := Committed(m.dir, slot, first, size));
    ChainOf(g, f, Committed(m.dir, slot, first, held), longer, slot);
    var n: nat :| Reaches(g, m.fat, m.dir, longer, slot, n);
    var chains := longer[slot := longer[slot][..n]];
    ChainOf(g, m.fat, m.dir, chains, slot);
    TrimmedShows(g, m, m.fat, longer, slot, n, files);
    assert m1.dir[slot := m.dir[slot]] == m.dir;
    var walk := WalkExists(g, m.fat, first, []);
    WalkLags(g, m.fat, f, first, walk, longer[slot]);
    forall k | 0 <= k < |chains| && k != slot
      ensures Apart(chains[k], walk)
    {
      assert Apart(longer[k], longer[slot]);
    }
    assert AheadBy(g, m1, files, slot, m.dir[slot], chains, walk);
  }

  /** Over a table that lags behind, a walk stays in the chain. */
  lemma WalkLags(g: Shape, mf: Table, f: Table, first: nat, walk: seq<nat>, cs: seq<nat>)
    requires Walks(g, mf, first, walk) && Links(g, mf, f) && IsChain(g, f, cs) && cs != [] && cs[0] == first
    ensures forall c :: c in walk ==> c in cs
  {
    forall i | 0 <= i < |walk| - 1
      ensures f[walk[i]] == walk[i + 1]
    {
      LinkedNext(g, mf, walk, i);
    }
    assert Linked(g, f, walk);
    LinkInChain(g, f, cs, |cs| - 1);
    WalkIsLongest(g, f, first, cs, walk);
    assert cs == walk + cs[|walk|..];
  }

  /** The file as a handle reads it. */
  ghost function Seen(s: Start, slot: nat): File
    requires slot < |s.chains| && slot < |s.files| && s.files[slot].File?
  {
    File(s.files[slot].name, Visible(s.m.data, s.chains, slot, s.size))
  }

  lemma GrownBytes(b0: seq<byte>, n: nat, size: nat, b: seq<byte>)
    requires n < size && n <= |b0| && Patched(b0, n, Zeros(size - n), b)
    ensures size <= |b| && Take(b, size) == Stored(Take(b0, n), size, [])
  {
    var z := Zeros(size - n);
    assert b[..size] == b[..n] + b[n..size];
    assert b[..n] == b0[..n];
    assert Stored(b0[..n], size, []) == b0[..n] + z;
  }

  /** What filling the new part with zeros makes of it. */
  lemma GrownFile(g: Shape, s: Start, m: Medium, longer: seq<seq<nat>>, slot: nat, size: nat)
    requires Began(g, s, slot) && s.size < size
    requires Laid(s.m, s.chains, m, longer, slot, s.size, Zeros(size - s.size))
    ensures s.files[slot].File? && size <= |Bytes(m.data, longer[slot])|
    ensures File(s.files[slot].name, Visible(m.data, longer, slot, size)) == Grown(Seen(s, slot), size)
  {
    BeganBytes(g, s, slot);
    GrownBytes(Bytes(s.m.data, s.chains[slot]), s.size, size, Bytes(m.data, longer[slot]));
  }

  /** The files, once one is longer. */
  ghost function Lengthy(s: Start, slot: nat, size: nat): seq<File>
    requires slot < |s.chains| && slot < |s.files| && s.files[slot].File?
  {
    s.files[slot := Grown(Seen(s, slot), size)]
  }

  /** A file being made longer, its zeros on the medium and its record about to say so. */
  ghost predicate Lengthened(v: Volume, e: Entry, s: Start, longer: seq<seq<nat>>, size: nat)
    reads v, e
  {
    true == (
      && Opened(v, e, longer) && e.size == s.size < size && Began(v.shape, s, e.slot)
      && e.told == s.dir == s.m.dir && RecordsKept(v, s)
      && Laid(s.m, s.chains, v.m, longer, e.slot, s.size, Zeros(size - s.size))
      && Reached(v, s, e.slot, longer, size)
      && AllWhole(v.shape, s.past, v.history, s.files)
      && (s.m.copy == s.m.fat ==> v.m.copy == v.m.fat))
  }

  lemma LengthenedNow(v: Volume, e: Entry, s: Start, longer: seq<seq<nat>>, x: seq<byte>, size: nat)
    requires Wrote(v, e, s, longer, s.size, x, x) && Reached(v, s, e.slot, longer, size) && s.size < size
    requires x == Zeros(size - s.size) && e.told == s.dir == s.m.dir && s.history == Retold(s.past, s.dir)
    ensures Lengthened(v, e, s, longer, size)
  {
    ToldTruly(v, e);
    BeganBytes(v.shape, s, e.slot);
    TornTruly(v.shape, s.past, v.history, s.dir, s.files, e.slot, s.size, x);
    forall i | |s.past| <= i < |v.history|
      ensures Whole(v.shape, v.history[i], s.files)
    {
      TornHidden(v.shape, v.history[i], s.files, e.slot, s.size, x);
    }
  }

  /** What the record written over a lagging table makes of the medium, and what the flush behind it does. */
  lemma GrownSound(v: Volume, e: Entry, s: Start, longer: seq<seq<nat>>, size: nat)
    requires Lengthened(v, e, s, longer, size) && s.m.fat == s.table
    ensures e.slot < |s.chains| && e.slot < |s.files| && s.files[e.slot].File?
    ensures Ready(v.shape, v.m, v.table, e.slot, e.first, size, longer)
    ensures Holds(v.shape, v.table, Committed(v.m.dir, e.slot, e.first, size), v.m.data, Lengthy(s, e.slot, size), longer)
    ensures SoundMedium(v.shape, v.m.(dir := Committed(v.m.dir, e.slot, e.first, size)))
            <==> size <= v.shape.clusterSize * |s.chains[e.slot]|
    ensures size <= v.shape.clusterSize * |s.chains[e.slot]| ==> v.m.fat == v.table
  {
    ToldTruly(v, e);
    GrownFile(v.shape, s, v.m, longer, e.slot, size);
    SizeReached(v, e, longer, size);
    GrownRecord(v.shape, v.m, v.table, s.chains[e.slot], e.slot, e.first, size, longer);
    CommitHolds(v.shape, s, v.m, v.table, e.first, size, longer, e.slot);
  }

  lemma LengthenedAhead(v: Volume, e: Entry, s: Start, longer: seq<seq<nat>>, size: nat)
    requires Lengthened(v, e, s, longer, size) && s.m.fat == s.table
    ensures e.slot < |v.m.dir| && v.m.dir[e.slot].Used?
    ensures Ahead(v.shape, v.m.(dir := Committed(v.m.dir, e.slot, e.first, size)), s.files, e.slot)
  {
    ToldTruly(v, e);
    GrownFile(v.shape, s, v.m, longer, e.slot, size);
    LaidShows(v.shape, s, v.m, e.slot, longer, Zeros(size - s.size));
    assert Bytes(v.m.data, []) == [];
    GrownSound(v, e, s, longer, size);
    assert SlotSound(v.shape, v.table, Committed(v.m.dir, e.slot, e.first, size)[e.slot], longer[e.slot]);
    RecordFits(v.shape, v.table, Committed(v.m.dir, e.slot, e.first, size)[e.slot], longer[e.slot]);
    GrownAhead(v.shape, v.m, v.table, e.slot, e.first, e.size, size, longer, s.files);
  }

  /** Nothing but the table's own sectors reaches the medium in a flush. */
  method FlushTable(v: Volume)
    requires v.Valid()
    modifies v`m, v`dirty, v`history
    ensures v.Valid() && !v.dirty && v.table == v.m.fat
    ensures v.m.dir == old(v.m.dir) && v.m.data == old(v.m.data)
    ensures old(v.history) <= v.history
    ensures forall i :: |old(v.history)| <= i < |v.history| ==>
      v.history[i].fat == v.table && v.history[i].dir == v.m.dir && v.history[i].data == v.m.data
    ensures old(v.m.copy == v.m.fat) ==> v.m.copy == v.m.fat
  {
    ghost var t := v.table;
    Flush(v, f => f == t);
  }

  /** What a cut in a growing resize can leave, and what it leaves where the record is written over a lagging table. */
  ghost predicate GrownCut(g: Shape, s: Start, slot: nat, size: nat, h: seq<Medium>, at: nat) {
    true == (
      && slot < |s.chains| && slot < |s.files| && s.files[slot].File?
      && CutAt(g, s.past, h, at, s.files, Lengthy(s, slot, size))
      && (SoundMedium(g, h[at]) <==> size <= g.clusterSize * |s.chains[slot]|)
      && (SoundMedium(g, h[at]) ==> Whole(g, h[at], Lengthy(s, slot, size)))
      && Ahead(g, h[at], s.files, slot))
  }

  /** The record written, and only then the table. */
  method CommitThenFlush(v: Volume, e: Entry, size: nat, ghost s: Start, ghost longer: seq<seq<nat>>) returns (ghost at: nat)
    requires Lengthened(v, e, s, longer, size) && s.m.fat == s.table == s.m.copy
    modifies v`m, v`dirty, v`history, e`size
    ensures e.size == size && GrownCut(v.shape, s, e.slot, size, v.history, at)
    ensures v.Valid() && !v.dirty && v.table == v.m.fat == v.m.copy
    ensures Holds(v.shape, v.m.fat, v.m.dir, v.m.data, Lengthy(s, e.slot, size), longer)
    ensures v.m.fat == old(v.table) && v.m.data == old(v.m.data)
    ensures e.slot < |s.dir| && s.dir[e.slot].Used? && v.m.dir == Committed(s.dir, e.slot, e.first, size)
  {
    BeganBytes(v.shape, s, e.slot);
    GrownSound(v, e, s, longer, size);
    LengthenedAhead(v, e, s, longer, size);
    ghost var after, h1 := Lengthy(s, e.slot, size), v.history;
    e.size := size;
    PutRecord(v, e.slot, v.m.dir[e.slot].(first := e.first, size := e.size));
    at := |h1|;
    ghost var m1, h2 := v.m, v.history;
    FlushTable(v);
    GrownCuts(v.shape, s, e.slot, size, h1, h2, v.history, m1, after, longer);
  }

  lemma GrownCuts(g: Shape, s: Start, slot: nat, size: nat, h1: seq<Medium>, h2: seq<Medium>, h: seq<Medium>, m1: Medium, after: seq<File>,
                  longer: seq<seq<nat>>)
    requires slot < |s.chains| && slot < |s.files| && s.files[slot].File? && after == Lengthy(s, slot, size)
    requires AllWhole(g, s.past, h1, s.files) && h2 == h1 + [m1] && h2 <= h
    requires forall i {:trigger h[i]} :: |h2| <= i < |h| ==> Holds(g, h[i].fat, h[i].dir, h[i].data, after, longer)
    requires SoundMedium(g, m1) <==> size <= g.clusterSize * |s.chains[slot]|
    requires SoundMedium(g, m1) ==> Whole(g, m1, after)
    requires Ahead(g, m1, s.files, slot)
    ensures GrownCut(g, s, slot, size, h, |h1|)
  {
    assert h[|h1|] == h2[|h1|] == m1;
    forall i | |s.past| <= i < |h| && i != |h1|
      ensures if i < |h1| then Whole(g, h[i], s.files) else Whole(g, h[i], after)
    {
      if i < |h1| { assert h[i] == h1[i]; }
    }
  }

  /** A file that has grown has grown into free clusters, and touched nobody else's. */
  ghost predicate SparedBy(m0: Medium, chains: seq<seq<nat>>, m1: Medium, longer: seq<seq<nat>>, slot: nat) {
    true == (
      && Longer(chains, longer, slot) && |chains| == |m0.dir| && m1.dir == m0.dir && slot < |m0.dir|
      && Spared(m0.fat, m1.fat, chains[slot], longer[slot]) && Untouched(m0.data, m1.data, longer[slot])
      && forall i :: 0 <= i < |longer[slot]| ==> longer[slot][i] < |m0.fat|)
  }

  lemma WroteSpares(v: Volume, e: Entry, s: Start, longer: seq<seq<nat>>, x: seq<byte>, all: seq<byte>)
    requires Wrote(v, e, s, longer, s.size, x, all) && s.m.fat == s.table
    ensures SparedBy(s.m, s.chains, s.m.(fat := v.table, data := v.m.data), longer, e.slot)
  {
    ChainOf(v.shape, v.table, Committed(e.told, e.slot, e.first, e.size), longer, e.slot);
  }

  /** So it is when the record is written, and when what was gained is given up again. */
  lemma SparedSlot(m0: Medium, chains: seq<seq<nat>>, m1: Medium, longer: seq<seq<nat>>, m2: Medium, kept: seq<seq<nat>>, slot: nat)
    requires SparedBy(m0, chains, m1, longer, slot) && m2.fat == m1.fat && m2.data == m1.data
    requires |m2.dir| == |m0.dir| && m2.dir == m0.dir[slot := m2.dir[slot]]
    requires |kept| == |longer| && kept[slot] <= longer[slot] && kept == longer[slot := kept[slot]]
    ensures OnlySlot(m0, chains, m2, kept, slot)
  {
    assert longer[slot] == kept[slot] + longer[slot][|kept[slot]|..];
    forall c | c in kept[slot]
      ensures c in longer[slot] && c < |m0.fat|
    {
      var i :| 0 <= i < |kept[slot]| && kept[slot][i] == c;
      assert longer[slot][i] == c;
    }
    forall c | c in chains[slot]
      ensures c in longer[slot]
    {
      var i :| 0 <= i < |chains[slot]| && chains[slot][i] == c;
      assert longer[slot][i] == c;
    }
  }

  /** Zeros lie over `n` bytes from a place, or over some front part of them. */
  ghost predicate Zeroed(b0: seq<byte>, from: nat, n: nat, b: seq<byte>, all: bool) {
    exists k: nat :: k <= n && (all ==> k == n) && Patched(b0, from, Zeros(k), b)
  }

  /** Some of the zeros a lengthening lays. */
  lemma SomeZeros(s: Start, m: Medium, longer: seq<seq<nat>>, slot: nat, x: seq<byte>, size: nat, all: bool)
    requires s.size < size && Laid(s.m, s.chains, m, longer, slot, s.size, x) && x <= Zeros(size - s.size)
    requires all ==> x == Zeros(size - s.size)
    ensures slot < |s.chains| && slot < |longer|
    ensures Zeroed(Bytes(s.m.data, s.chains[slot]), s.size, size - s.size, Bytes(m.data, longer[slot]), all)
  {
    assert x == Zeros(|x|);
  }

  /** The table on the medium, and nobody else's clusters touched. */
  ghost predicate Settled(v: Volume, e: Entry, s: Start, longer: seq<seq<nat>>)
    reads v, e
  {
    && v.Valid() && !v.dirty && v.table == v.m.fat == v.m.copy
    && (e.walkedCluster != 0 ==> e.slot < |longer| && e.walked < |longer[e.slot]| && longer[e.slot][e.walked] == e.walkedCluster)
    && SparedBy(s.m, s.chains, s.m.(fat := v.m.fat, data := v.m.data), longer, e.slot)
  }

  /** The zeros from the end there was to the new one, or as far as there was room. */
  ghost predicate Spread(v: Volume, e: Entry, s: Start, longer: seq<seq<nat>>, size: nat, all: bool)
    requires s.size < size
    reads v, e
  {
    e.slot < |s.chains| && e.slot < |longer| && Zeroed(Bytes(s.m.data, s.chains[e.slot]), s.size, size - s.size, Bytes(v.m.data, longer[e.slot]), all)
  }

  /** The record, the zeros and the chain all reach the new size; `at` is where the record had got ahead of the table. */
  ghost predicate MadeLonger(v: Volume, e: Entry, s: Start, longer: seq<seq<nat>>, size: nat, at: nat)
    reads v, e
  {
    true == (
      && Settled(v, e, s, longer) && e.size == size && s.size < size && Spread(v, e, s, longer, size, true) && GrownCut(v.shape, s, e.slot, size, v.history, at)
      && e.slot < |s.dir| && s.dir[e.slot].Used? && v.m.dir == Committed(s.dir, e.slot, e.first, size)
      && Holds(v.shape, v.m.fat, v.m.dir, v.m.data, Lengthy(s, e.slot, size), longer))
  }

  /** The volume is full, and only what was taken in vain has changed. */
  ghost predicate NotLonger(v: Volume, e: Entry, s: Start, longer: seq<seq<nat>>, size: nat)
    reads v, e
  {
    true == (
      && Settled(v, e, s, longer) && s.size < size && Spread(v, e, s, longer, size, false) && WroteAt(v, e, s, longer, 0, [], false)
      && NoneFree(v.shape, v.m.fat) && TooShort(v.shape, longer, e.slot, size)
      && e.slot < |s.chains| && (v.m.fat == s.m.fat || v.shape.clusterSize * (|s.chains[e.slot]| + 1) < size))
  }

  /**
   An open file made longer: its zeros, its record, its table. Sound at every cut
   if and only if the clusters it had reach the new size. Refused only for want
   of a cluster it needs, and then only what it was given in vain has changed.
   */
  method Lengthen(v: Volume, e: Entry, size: nat, ghost s: Start) returns (ok: bool, ghost longer: seq<seq<nat>>, ghost at: nat)
    requires Starting(v, e, s) && e.told == v.m.dir && s.m.fat == s.table == s.m.copy && e.size < size
    modifies v`m, v`dirty, v`history, v`cache, v`cacheSector, v`table, v`hint, e
    ensures if ok then MadeLonger(v, e, s, longer, size, at) else NotLonger(v, e, s, longer, size)
  {
    ToldTruly(v, e);
    ghost var x;
    ok, x, longer := ZeroRange(v, e, size, s);
    at := 0;
    WroteSpares(v, e, s, longer, x, Zeros(size - s.size));
    SomeZeros(s, Told(v, e), longer, e.slot, x, size, ok);
    if ok {
      LengthenedNow(v, e, s, longer, x, size);
      at := CommitThenFlush(v, e, size, s, longer);
    } else {
      GapOnly(v, e, s, longer, x, Zeros(size - s.size), 0, []);
      OneMoreIsShort(v.shape, s.chains, longer, e.slot, size);
      FlushOpened(v, e, 0, [], false, s, longer);
    }
  }

  /** A chain that grew and is still too short is too short by more than one cluster would mend. */
  lemma OneMoreIsShort(g: Shape, chains: seq<seq<nat>>, longer: seq<seq<nat>>, slot: nat, size: nat)
    requires Longer(chains, longer, slot) && TooShort(g, longer, slot, size)
    ensures longer == chains || g.clusterSize * (|chains[slot]| + 1) < size
  {
    if |longer[slot]| == |chains[slot]| {
      assert longer[slot] == chains[slot];
    } else {
      TimesGrows(g.clusterSize, |chains[slot]| + 1, |longer[slot]|);
    }
  }
}
