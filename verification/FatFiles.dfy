/**
 The calls that leave the volume at rest, each an ordered run of writes, and
 what a reader finds wherever the run is cut.
 */
module FatFiles {
  import opened ByteFields
  import opened FatVolume
  import opened FatTable
  import opened FatChains
  import opened FatWrite
  import opened FatStore

  /** Nothing is open, and the medium has all the table says, in both copies. */
  ghost predicate Rest(v: Volume, chains: seq<seq<nat>>, files: seq<File>)
    reads v
  {
    true == (
      && v.Valid() && !v.dirty && v.table == v.m.fat == v.m.copy
      && Holds(v.shape, v.m.fat, v.m.dir, v.m.data, files, chains))
  }

  /** Every medium since `h0` holds one of two sets of files whole. */
  ghost predicate Either(g: Shape, h0: seq<Medium>, h: seq<Medium>, a: seq<File>, b: seq<File>) {
    h0 <= h && forall i :: |h0| <= i < |h| ==> Whole(g, h[i], a) || Whole(g, h[i], b)
  }

  /** From `m0` to `m1`, nothing in use moved but what is in `cs`: neither its entry nor its bytes. */
  ghost predicate Aside(m0: Medium, m1: Medium, cs: seq<nat>) {
    && |m1.fat| == |m0.fat| && |m1.data| == |m0.data|
    && (forall c {:trigger m1.fat[c]} :: 0 <= c < |m0.fat| && m0.fat[c] != FREE && c !in cs ==> m1.fat[c] == m0.fat[c])
    && (forall c {:trigger m1.data[c]} :: 0 <= c < |m0.data| && c < |m0.fat| && m0.fat[c] != FREE && c !in cs ==> m1.data[c] == m0.data[c])
  }

  /** Only this record changed, with its chain: what that has gained was free, and nothing else in use moved. */
  ghost predicate OnlySlot(m0: Medium, c0: seq<seq<nat>>, m1: Medium, c1: seq<seq<nat>>, slot: nat) {
    && |c0| == |c1| == |m0.dir| == |m1.dir| && slot < |m0.dir|
    && m1.dir == m0.dir[slot := m1.dir[slot]] && c1 == c0[slot := c1[slot]]
    && (forall c {:trigger c in c1[slot]} :: c in c1[slot] && c !in c0[slot] ==> c < |m0.fat| && m0.fat[c] == FREE)
    && Aside(m0, m1, c0[slot])
  }

  /** A record written in place: one sector. */
  method PutRecord(v: Volume, slot: nat, s: Slot)
    requires v.Valid() && slot < |v.m.dir|
    modifies v`m, v`history
    ensures v.Valid() && v.m == old(v.m).(dir := old(v.m.dir)[slot := s]) && v.history == old(v.history) + [v.m]
  {
    v.m := v.m.(dir := v.m.dir[slot := s]);
    v.history := v.history + [v.m];
  }

  // ------------------------------------------------------------------
  // Finding records
  // ------------------------------------------------------------------

  predicate Named(s: Slot, name: string) { s.Used? && s.name == name }

  /** The first record of that name. */
  method Find(dir: seq<Slot>, name: string) returns (found: bool, slot: nat)
    ensures if found then slot < |dir| && Named(dir[slot], name) && forall k :: 0 <= k < slot ==> !Named(dir[k], name)
            else forall k :: 0 <= k < |dir| ==> !Named(dir[k], name)
  {
    slot := 0;
    while slot < |dir|
      invariant slot <= |dir| && forall k :: 0 <= k < slot ==> !Named(dir[k], name)
    {
      if Named(dir[slot], name) { return true, slot; }
      slot := slot + 1;
    }
    found := false;
  }

  method FindVacant(dir: seq<Slot>) returns (found: bool, slot: nat)
    ensures if found then slot < |dir| && dir[slot].Vacant? && forall k :: 0 <= k < slot ==> dir[k].Used? else forall k :: 0 <= k < |dir| ==> dir[k].Used?
  {
    slot := 0;
    while slot < |dir|
      invariant slot <= |dir| && forall k :: 0 <= k < slot ==> dir[k].Used?
    {
      if dir[slot].Vacant? { return true, slot; }
      slot := slot + 1;
    }
    found := false;
  }

  // ------------------------------------------------------------------
  // One record changed
  // ------------------------------------------------------------------

  lemma HoldsWith(g: Shape, f: Table, dir: seq<Slot>, data: Clusters, files: seq<File>, chains: seq<seq<nat>>,
                  slot: nat, s: Slot, cs: seq<nat>)
    requires Holds(g, f, dir, data, files, chains) && slot < |dir| && SlotSound(g, f, s, cs)
    requires forall k :: 0 <= k < |dir| && k != slot ==> Apart(chains[k], cs)
    ensures Holds(g, f, dir[slot := s], data, files[slot := FileOf(s, data, cs)], chains[slot := cs])
  {
    SoundWith(g, f, dir, chains, slot, s, cs);
  }

  predicate FirstVacant(files: seq<File>, slot: nat) {
    slot < |files| && files[slot] == NoFile && forall k :: 0 <= k < slot ==> files[k] != NoFile
  }

  /** A new, empty file: one record, no clusters. */
  method Create(v: Volume, name: string, ghost chains: seq<seq<nat>>, ghost files: seq<File>) returns (ok: bool, slot: nat)
    requires Rest(v, chains, files)
    modifies v`m, v`history, v`dirty
    ensures ok <==> (forall k :: 0 <= k < |files| ==> !Called(files[k], name))
                    && exists k :: 0 <= k < |files| && files[k] == NoFile
    ensures ok ==> slot < |files| && files[slot] == NoFile && Rest(v, chains, files[slot := File(name, [])])
                   && Either(v.shape, old(v.history), v.history, files, files[slot := File(name, [])])
    ensures ok ==> FirstVacant(files, slot)
    ensures ok ==> OnlySlot(old(v.m), chains, v.m, chains, slot) && v.m == old(v.m).(dir := old(v.m.dir)[slot := Used(name, 0, 0)])
    ensures !ok ==> v.m == old(v.m) && v.history == old(v.history) && Rest(v, chains, files)
  {
    slot := 0;
    ghost var dir := v.m.dir;
    FilesOfRecords(v, chains, files);
    var exists_, at := Find(v.m.dir, name);
    if exists_ { return false, 0; }
    ok, slot := FindVacant(v.m.dir);
    if !ok { return; }
    assert SlotSound(v.shape, v.m.fat, dir[slot], chains[slot]);
    assert IsChain(v.shape, v.m.fat, []);
    HoldsWith(v.shape, v.m.fat, dir, v.m.data, files, chains, slot, Used(name, 0, 0), []);
    assert chains[slot := []] == chains;
    PutRecord(v, slot, Used(name, 0, 0));
  }

  lemma FilesOfRecords(v: Volume, chains: seq<seq<nat>>, files: seq<File>)
    requires Rest(v, chains, files)
    ensures |files| == |v.m.dir| == |chains|
    ensures forall k :: 0 <= k < |files| ==> (files[k] == NoFile <==> v.m.dir[k] == Vacant)
    ensures forall k :: 0 <= k < |files| && files[k].File? ==> files[k].name == v.m.dir[k].name
  {
    forall k | 0 <= k < |files|
      ensures files[k] == FileOf(v.m.dir[k], v.m.data, chains[k])
    {
    }
  }

  // ------------------------------------------------------------------
  // Writing into a file
  // ------------------------------------------------------------------

  /** An entry told by the records there are is told the truth. */
  lemma ToldTruly(v: Volume, e: Entry)
    requires e.told == v.m.dir
    ensures Told(v, e) == v.m
  {
  }

  /** And so is its history, as long as no record has been written. */
  lemma TornTruly(g: Shape, h0: seq<Medium>, h1: seq<Medium>, dir: seq<Slot>, files: seq<File>, slot: nat, from: nat, x: seq<byte>)
    requires SameRecords(h0, h1, dir) && AllTorn(g, Retold(h0, dir), Retold(h1, dir), files, slot, from, x)
    ensures AllTorn(g, h0, h1, files, slot, from, x)
  {
    forall i | |h0| <= i < |h1|
      ensures Torn(g, h1[i], files, slot, from, x)
    {
      assert Retold(h1, dir)[i] == h1[i];
    }
  }

  /** What a commit makes of the volume, by the table as it is. */
  lemma CommitHolds(g: Shape, s: Start, m: Medium, f: Table, first: nat, size: nat, longer: seq<seq<nat>>, slot: nat)
    requires Began(g, s, slot) && Ready(g, m, f, slot, first, size, longer)
    requires m.dir == s.m.dir && Longer(s.chains, longer, slot) && Unmoved(s.m.data, m.data, s.chains, slot)
    ensures Holds(g, f, Committed(m.dir, slot, first, size), m.data,
                  s.files[slot := File(s.files[slot].name, Visible(m.data, longer, slot, size))], longer)
  {
    BeganBytes(g, s, slot);
    var dir := Committed(m.dir, slot, first, size);
    forall k | 0 <= k < |dir| && k != slot
      ensures FileOf(dir[k], m.data, longer[k]) == s.files[k]
    {
      assert longer[k] == s.chains[k];
      assert FileOf(s.m.dir[k], s.m.data, s.chains[k]) == s.files[k];
    }
  }

  // ------------------------------------------------------------------
  // One record written at rest
  // ------------------------------------------------------------------

  /** A record that may be written with other files in view: at the next cut they are there whole. */
  method PutWhole(v: Volume, slot: nat, s: Slot, ghost c0: seq<seq<nat>>, ghost f0: seq<File>, ghost c1: seq<seq<nat>>, ghost f1: seq<File>)
    requires Rest(v, c0, f0) && slot < |v.m.dir| && Holds(v.shape, v.m.fat, v.m.dir[slot := s], v.m.data, f1, c1)
    modifies v`m, v`history
    ensures Rest(v, c1, f1) && v.m == old(v.m).(dir := old(v.m.dir)[slot := s])
    ensures v.history == old(v.history) + [v.m] && AllWhole(v.shape, old(v.history), v.history, f1)
  {
    PutRecord(v, slot, s);
    assert Whole(v.shape, v.m, f1);
  }

  // ------------------------------------------------------------------
  // Giving clusters back
  // ------------------------------------------------------------------

  ghost function SoundTable(g: Shape, dir: seq<Slot>, chains: seq<seq<nat>>): Table -> bool {
    f => Sound(g, f, dir, chains)
  }

  /** Freeing clusters no record reaches disturbs none. */
  lemma FreeingIsSound(g: Shape, f0: Table, dir: seq<Slot>, chains: seq<seq<nat>>, cs: seq<nat>)
    requires Sound(g, f0, dir, chains) && forall k :: 0 <= k < |chains| ==> Apart(chains[k], cs)
    ensures forall f :: PartlyFreed(f, f0, cs) ==> SoundTable(g, dir, chains)(f)
  {
    forall f | PartlyFreed(f, f0, cs)
      ensures SoundTable(g, dir, chains)(f)
    {
      forall k, c | 0 <= k < |chains| && c in chains[k] && c < |f0|
        ensures f[c] == f0[c]
      {
        assert Apart(chains[k], cs);
      }
      SoundFrame(g, f0, f, dir, chains);
    }
  }

  /** Since `h0`, only the table moved, and every medium holds these files whole. */
  ghost predicate AllWhole(g: Shape, h0: seq<Medium>, h: seq<Medium>, files: seq<File>) {
    h0 <= h && forall i :: |h0| <= i < |h| ==> Whole(g, h[i], files)
  }

  lemma TableWritesWhole(g: Shape, h0: seq<Medium>, h1: seq<Medium>, m: Medium, chains: seq<seq<nat>>, files: seq<File>)
    requires TableWrites(h0, h1, m, SoundTable(g, m.dir, chains)) && Shows(m.dir, m.data, chains, files)
    ensures AllWhole(g, h0, h1, files)
  {
    forall i | |h0| <= i < |h1|
      ensures Whole(g, h1[i], files)
    {
      assert Holds(g, h1[i].fat, h1[i].dir, h1[i].data, files, chains);
    }
  }

  /** A chain goes back that none of the records in `dir` reaches. */
  method Drop(v: Volume, first: nat, ghost cs: seq<nat>, ghost dir: seq<Slot>, ghost chains: seq<seq<nat>>)
    requires v.Valid() && Sound(v.shape, v.table, dir, chains) && Sound(v.shape, v.m.fat, dir, chains)
    requires IsChain(v.shape, v.table, cs) && (if cs == [] then first < FIRST_CLUSTER else first == cs[0])
    requires forall k :: 0 <= k < |chains| ==> Apart(chains[k], cs)
    modifies v`m, v`dirty, v`history, v`cache, v`cacheSector, v`table
    ensures v.Valid() && TableOnly(v, SoundTable(v.shape, dir, chains))
    ensures Freed(v.table, old(v.table), cs) && Sound(v.shape, v.table, dir, chains)
  {
    FreeingIsSound(v.shape, v.table, dir, chains, cs);
    if first >= FIRST_CLUSTER {
      var corrupt := FreeChain(v, first, cs, SoundTable(v.shape, dir, chains));
    }
    assert PartlyFreed(v.table, old(v.table), cs);
  }

  /** A file removed: its record first, so no record ever names a cluster given away. */
  method Remove(v: Volume, slot: nat, ghost chains: seq<seq<nat>>, ghost files: seq<File>) returns (ghost fewer: seq<seq<nat>>)
    requires Rest(v, chains, files) && slot < |files| && files[slot].File?
    modifies v`m, v`dirty, v`history, v`cache, v`cacheSector, v`table
    ensures Rest(v, fewer, files[slot := NoFile])
    ensures AllWhole(v.shape, old(v.history), v.history, files[slot := NoFile])
    ensures |chains| == |files| && Freed(v.table, old(v.table), chains[slot])
    ensures OnlySlot(old(v.m), chains, v.m, fewer, slot)
  {
    FilesOfRecords(v, chains, files);
    var first := v.m.dir[slot].first;
    ghost var dir, h0, cs := v.m.dir, v.history, chains[slot];
    fewer := chains[slot := []];
    ChainOf(v.shape, v.m.fat, dir, chains, slot);
    HoldsWith(v.shape, v.m.fat, dir, v.m.data, files, chains, slot, Vacant, []);
    PutRecord(v, slot, Vacant);
    assert Whole(v.shape, v.m, files[slot := NoFile]);
    ghost var h1 := v.history;
    Drop(v, first, cs, v.m.dir, fewer);
    ghost var h2 := v.history;
    Flush(v, SoundTable(v.shape, v.m.dir, fewer));
    TableWritesWhole(v.shape, h1, h2, v.m, fewer, files[slot := NoFile]);
    TableWritesWhole(v.shape, h2, v.history, v.m, fewer, files[slot := NoFile]);
    WholeTwice(v.shape, h0, h1, h2, files[slot := NoFile]);
    WholeTwice(v.shape, h0, h2, v.history, files[slot := NoFile]);
  }

  lemma WholeTwice(g: Shape, h0: seq<Medium>, h1: seq<Medium>, h2: seq<Medium>, files: seq<File>)
    requires AllWhole(g, h0, h1, files) && AllWhole(g, h1, h2, files)
    ensures AllWhole(g, h0, h2, files)
  {
    forall i | |h0| <= i < |h2|
      ensures Whole(g, h2[i], files)
    {
      if i < |h1| { assert h2[i] == h1[i]; }
    }
  }

  // ------------------------------------------------------------------
  // Renaming
  // ------------------------------------------------------------------

  /** Two records name one file's clusters; without the first of them, these files are there whole. */
  ghost predicate Doubled(g: Shape, m: Medium, files: seq<File>, src: nat, dst: nat) {
    && src < |m.dir| && dst < |m.dir| && src != dst && m.dir[src].Used? && m.dir[dst].Used?
    && m.dir[src].first == m.dir[dst].first && m.dir[src].size == m.dir[dst].size
    && Whole(g, m.(dir := m.dir[src := Vacant]), files)
  }

  /** While a file has two names the volume is sound only if the file is empty. */
  lemma DoubledIsSoundWhenEmpty(g: Shape, m: Medium, files: seq<File>, src: nat, dst: nat)
    requires Doubled(g, m, files, src, dst)
    ensures SoundMedium(g, m) <==> m.dir[src].first == 0
  {
    var one := m.dir[src := Vacant];
    var chains :| Holds(g, m.fat, one, m.data, files, chains);
    assert SlotSound(g, m.fat, one[dst], chains[dst]) && SlotSound(g, m.fat, one[src], chains[src]);
    if m.dir[src].first == 0 {
      SoundWith(g, m.fat, one, chains, src, m.dir[src], []);
      assert one[src := m.dir[src]] == m.dir;
    }
    forall shared | Sound(g, m.fat, m.dir, shared)
      ensures m.dir[src].first == 0
    {
      SharedIsEmpty(g, m.fat, m.dir, shared, src, dst);
    }
  }

  lemma SharedIsEmpty(g: Shape, f: Table, dir: seq<Slot>, chains: seq<seq<nat>>, src: nat, dst: nat)
    requires Sound(g, f, dir, chains) && src < |dir| && dst < |dir| && src != dst && dir[src].Used? && dir[dst].Used?
    requires dir[src].first == dir[dst].first
    ensures dir[src].first == 0
  {
    StaleApart(g, f, dir, chains, chains[dst := chains[src]][src := []], src, dst);
  }

  /** Every record leads to a whole chain, and these are the files a reader finds. */
  ghost predicate Readable(g: Shape, m: Medium, chains: seq<seq<nat>>, files: seq<File>) {
    && Shows(m.dir, m.data, chains, files)
    && forall k {:trigger SlotSound(g, m.fat, m.dir[k], chains[k])} :: 0 <= k < |m.dir| ==> SlotSound(g, m.fat, m.dir[k], chains[k])
  }

  /** While a file has two names, both of them read as it. */
  lemma DoubledReads(g: Shape, m: Medium, files: seq<File>, src: nat, dst: nat) returns (both: seq<seq<nat>>)
    requires Doubled(g, m, files, src, dst)
    ensures src < |files| && dst < |files| && files[dst].File?
    ensures Readable(g, m, both, files[src := File(m.dir[src].name, files[dst].contents)])
  {
    var one := m.dir[src := Vacant];
    var chains :| Holds(g, m.fat, one, m.data, files, chains);
    assert SlotSound(g, m.fat, one[dst], chains[dst]);
    assert FileOf(one[dst], m.data, chains[dst]) == files[dst];
    both := chains[src := chains[dst]];
    forall k | 0 <= k < |m.dir|
      ensures k != src ==> FileOf(m.dir[k], m.data, both[k]) == files[k]
      ensures SlotSound(g, m.fat, m.dir[k], both[k])
    {
      if k != src {
        assert FileOf(one[k], m.data, chains[k]) == files[k];
        assert SlotSound(g, m.fat, one[k], chains[k]);
      }
    }
  }

  /** A file's chain under another record, and its own record gone. */
  lemma MovedHolds(g: Shape, f: Table, dir: seq<Slot>, data: Clusters, files: seq<File>, chains: seq<seq<nat>>,
                   src: nat, dst: nat, name: string)
    requires Holds(g, f, dir, data, files, chains) && src < |dir| && dst < |dir| && src != dst && dir[src].Used?
    ensures files[src].File?
    ensures Holds(g, f, dir[dst := Used(name, dir[src].first, dir[src].size)][src := Vacant], data,
                  files[dst := File(name, files[src].contents)][src := NoFile], chains[dst := chains[src]][src := []])
    ensures forall k :: 0 <= k < |chains| && k != dst ==> Apart(chains[k], chains[dst])
  {
    var s := Used(name, dir[src].first, dir[src].size);
    assert SlotSound(g, f, dir[src], chains[src]) && FileOf(dir[src], data, chains[src]) == files[src];
    HoldsWith(g, f, dir, data, files, chains, src, Vacant, []);
    HoldsWith(g, f, dir[src := Vacant], data, files[src := NoFile], chains[src := []], dst, s, chains[src]);
    assert dir[src := Vacant][dst := s] == dir[dst := s][src := Vacant];
    assert chains[src := []][dst := chains[src]] == chains[dst := chains[src]][src := []];
    assert files[src := NoFile][dst := FileOf(s, data, chains[src])] == files[dst := FileOf(s, data, chains[src])][src := NoFile];
  }

  /** What a cut in a rename can leave: the file under both names, or moved whole. */
  ghost predicate Renaming(g: Shape, h0: seq<Medium>, h: seq<Medium>, files: seq<File>, src: nat, dst: nat) {
    h0 <= h && forall i :: |h0| <= i < |h| ==> Doubled(g, h[i], files, src, dst) || Whole(g, h[i], files)
  }

  /** Table writes while the file has two names. */
  lemma TableWritesDoubled(g: Shape, h0: seq<Medium>, h1: seq<Medium>, h2: seq<Medium>, m: Medium, chains: seq<seq<nat>>,
                           files: seq<File>, src: nat, dst: nat)
    requires Renaming(g, h0, h1, files, src, dst) && Doubled(g, m, files, src, dst)
    requires TableWrites(h1, h2, m, SoundTable(g, m.dir[src := Vacant], chains))
    requires Shows(m.dir[src := Vacant], m.data, chains, files)
    ensures Renaming(g, h0, h2, files, src, dst)
  {
    forall i | |h0| <= i < |h2|
      ensures Doubled(g, h2[i], files, src, dst) || Whole(g, h2[i], files)
    {
      if i < |h1| {
        assert h2[i] == h1[i];
      } else {
        assert Holds(g, h2[i].fat, m.dir[src := Vacant], m.data, files, chains);
        assert Whole(g, h2[i].(dir := m.dir[src := Vacant]), files);
      }
    }
  }

  /** Between the record repointed and the old one forgotten. */
  ghost predicate InMove(v: Volume, h0: seq<Medium>, files: seq<File>, moved: seq<seq<nat>>, src: nat, dst: nat)
    reads v
  {
    true == (
      && v.Valid() && Doubled(v.shape, v.m, files, src, dst) && v.m.copy == v.m.fat
      && Holds(v.shape, v.m.fat, v.m.dir[src := Vacant], v.m.data, files, moved)
      && Sound(v.shape, v.table, v.m.dir[src := Vacant], moved)
      && Renaming(v.shape, h0, v.history, files, src, dst))
  }

  /** The medium with a name put on another file's content. */
  function Repointed(m: Medium, src: nat, dst: nat, name: string): Medium
    requires src < |m.dir| && dst < |m.dir| && m.dir[src].Used?
  {
    m.(dir := m.dir[dst := Used(name, m.dir[src].first, m.dir[src].size)])
  }

  /** One sector write puts the new content under the name. */
  method Repoint(v: Volume, src: nat, dst: nat, name: string, ghost chains: seq<seq<nat>>, ghost files: seq<File>)
    requires Rest(v, chains, files) && src < |files| && dst < |files| && src != dst
    requires |files| == |v.m.dir| && v.m.dir[src].Used? && files[src].File?
    modifies v`m, v`history
    ensures dst < |chains| && src < |chains| && v.history == old(v.history) + [v.m]
    ensures InMove(v, old(v.history), files[dst := File(name, files[src].contents)][src := NoFile],
                   chains[dst := chains[src]][src := []], src, dst)
    ensures v.m == Repointed(old(v.m), src, dst, name)
  {
    MovedHolds(v.shape, v.m.fat, v.m.dir, v.m.data, files, chains, src, dst, name);
    PutRecord(v, dst, Used(name, v.m.dir[src].first, v.m.dir[src].size));
    assert Whole(v.shape, v.m.(dir := v.m.dir[src := Vacant]), files[dst := File(name, files[src].contents)][src := NoFile]);
  }

  /** What the name meant before, given back now that nothing names it. */
  method DropStale(v: Volume, stale: nat, ghost cs: seq<nat>, ghost h0: seq<Medium>, ghost files: seq<File>,
                   ghost moved: seq<seq<nat>>, ghost src: nat, ghost dst: nat)
    requires InMove(v, h0, files, moved, src, dst)
    requires IsChain(v.shape, v.table, cs) && cs != [] && stale == cs[0]
    requires forall k :: 0 <= k < |moved| ==> Apart(moved[k], cs)
    modifies v`m, v`dirty, v`history, v`cache, v`cacheSector, v`table
    ensures InMove(v, h0, files, moved, src, dst) && v.m.dir == old(v.m.dir) && old(v.history) <= v.history
    ensures Freed(v.table, old(v.table), cs) && v.m.data == old(v.m.data)
  {
    ghost var h1 := v.history;
    Drop(v, stale, cs, v.m.dir[src := Vacant], moved);
    assert Holds(v.shape, v.m.fat, v.m.dir[src := Vacant], v.m.data, files, moved);
    assert Whole(v.shape, v.m.(dir := v.m.dir[src := Vacant]), files);
    TableWritesDoubled(v.shape, h0, h1, v.history, v.m, moved, files, src, dst);
  }

  /** The old name gone, and the table on the medium. */
  method ForgetOld(v: Volume, src: nat, ghost h0: seq<Medium>, ghost files: seq<File>, ghost moved: seq<seq<nat>>, ghost dst: nat)
    requires InMove(v, h0, files, moved, src, dst)
    modifies v`m, v`dirty, v`history
    ensures Rest(v, moved, files) && Renaming(v.shape, h0, v.history, files, src, dst) && old(v.history) <= v.history
    ensures v.m.data == old(v.m.data) && v.m.dir == old(v.m.dir)[src := Vacant]
  {
    PutRecord(v, src, Vacant);
    assert Whole(v.shape, v.m, files);
    ghost var h1 := v.history;
    Flush(v, SoundTable(v.shape, v.m.dir, moved));
    TableWritesWhole(v.shape, h1, v.history, v.m, moved, files);
    forall i | |h0| <= i < |v.history|
      ensures Doubled(v.shape, v.history[i], files, src, dst) || Whole(v.shape, v.history[i], files)
    {
      if i < |h1| { assert v.history[i] == h1[i]; }
    }
  }

  predicate IsFirst(first: nat, cs: seq<nat>) {
    if cs == [] then first == 0 else first == cs[0] >= FIRST_CLUSTER
  }

  lemma StaleApart(g: Shape, f: Table, dir: seq<Slot>, chains: seq<seq<nat>>, moved: seq<seq<nat>>, src: nat, dst: nat)
    requires Sound(g, f, dir, chains) && src < |dir| && dst < |dir| && src != dst && dir[src].Used?
    requires moved == chains[dst := chains[src]][src := []]
    ensures IsFirst(dir[src].first, chains[src]) && IsChain(g, f, chains[dst])
    ensures dir[dst].Vacant? ==> chains[dst] == []
    ensures dir[dst].Used? ==> IsFirst(dir[dst].first, chains[dst])
    ensures chains[dst] != [] && chains[src] != [] ==> chains[dst][0] != chains[src][0]
    ensures forall k :: 0 <= k < |chains| ==> Apart(moved[k], chains[dst])
  {
    assert SlotSound(g, f, dir[src], chains[src]) && SlotSound(g, f, dir[dst], chains[dst]);
    assert Apart(chains[src], chains[dst]);
    if chains[dst] != [] && chains[src] != [] { ApartHeads(chains[src], chains[dst]); }
  }

  lemma ApartHeads(a: seq<nat>, b: seq<nat>)
    requires Apart(a, b) && a != [] && b != []
    ensures a[0] != b[0]
  {
    assert a[0] in a && b[0] in b;
  }

  /** Only these two records changed: one has the other's chain, and nothing in use moved but what it had. */
  ghost predicate MovedOnly(m0: Medium, c0: seq<seq<nat>>, m1: Medium, c1: seq<seq<nat>>, src: nat, dst: nat) {
    && |c0| == |m0.dir| == |m1.dir| && src < |m0.dir| && dst < |m0.dir|
    && c1 == c0[dst := c0[src]][src := []] && m1.dir == m0.dir[dst := m1.dir[dst]][src := Vacant]
    && Aside(m0, m1, c0[dst])
  }

  /** The file's name moved to the record at `dst`, whatever that record named before given back. */
  method Move(v: Volume, src: nat, dst: nat, name: string, stale: nat, ghost chains: seq<seq<nat>>, ghost files: seq<File>)
    returns (ghost moved: seq<seq<nat>>, ghost at: nat)
    requires Rest(v, chains, files) && src < |files| && dst < |files| && src != dst
    requires |files| == |v.m.dir| && v.m.dir[src].Used? && files[src].File?
    requires stale == match v.m.dir[dst] case Vacant => 0 case Used(_, first, _) => first
    modifies v`m, v`dirty, v`history, v`cache, v`cacheSector, v`table
    ensures Rest(v, moved, files[dst := File(name, files[src].contents)][src := NoFile])
    ensures Renaming(v.shape, old(v.history), v.history, files[dst := File(name, files[src].contents)][src := NoFile], src, dst)
    ensures |old(v.history)| <= at < |v.history|
    ensures Doubled(v.shape, v.history[at], files[dst := File(name, files[src].contents)][src := NoFile], src, dst)
    ensures SoundMedium(v.shape, v.history[at]) <==> old(v.m.dir)[src].first == 0
    ensures MovedOnly(old(v.m), chains, v.m, moved, src, dst) && v.history[at] == Repointed(old(v.m), src, dst, name)
    ensures forall c {:trigger v.m.fat[c]} :: 0 <= c < |v.m.fat| && c in chains[dst] ==> v.m.fat[c] == FREE
  {
    ghost var h0, cs := v.history, chains[dst];
    ghost var after := files[dst := File(name, files[src].contents)][src := NoFile];
    var first := v.m.dir[src].first;
    moved := chains[dst := chains[src]][src := []];
    StaleApart(v.shape, v.m.fat, v.m.dir, chains, moved, src, dst);
    Repoint(v, src, dst, name, chains, files);
    at := |h0|;
    ghost var m1, h1 := v.m, v.history;
    DoubledIsSoundWhenEmpty(v.shape, m1, after, src, dst);
    if stale >= FIRST_CLUSTER && stale != first { DropStale(v, stale, cs, h0, after, moved, src, dst); }
    ForgetOld(v, src, h0, after, moved, dst);
    assert h1[at] == v.history[at] == m1;
  }

  predicate Called(file: File, name: string) { file.File? && file.name == name }

  /** Where a name goes: the first file that has it, or else a record nobody uses. */
  ghost predicate Target(files: seq<File>, name: string, dst: nat)
    requires dst < |files|
  {
    if exists k :: 0 <= k < |files| && Called(files[k], name)
    then Called(files[dst], name) && forall k :: 0 <= k < dst ==> !Called(files[k], name)
    else files[dst] == NoFile
  }

  /** The file at `src` under another name, in place of whatever already has that name. */
  method Rename(v: Volume, src: nat, name: string, ghost chains: seq<seq<nat>>, ghost files: seq<File>)
    returns (ok: bool, dst: nat, ghost moved: seq<seq<nat>>, ghost at: nat)
    requires Rest(v, chains, files) && src < |files| && files[src].File?
    modifies v`m, v`dirty, v`history, v`cache, v`cacheSector, v`table
    ensures ok ==> dst < |files| && Target(files, name, dst)
    ensures ok && dst != src ==>
      && Rest(v, moved, files[dst := File(name, files[src].contents)][src := NoFile])
      && Renaming(v.shape, old(v.history), v.history, files[dst := File(name, files[src].contents)][src := NoFile], src, dst)
    ensures ok && dst != src ==>
      && src < |old(v.m.dir)| && old(v.m.dir)[src].Used? && |old(v.history)| <= at < |v.history|
      && Doubled(v.shape, v.history[at], files[dst := File(name, files[src].contents)][src := NoFile], src, dst)
      && (SoundMedium(v.shape, v.history[at]) <==> old(v.m.dir)[src].first == 0)
      && MovedOnly(old(v.m), chains, v.m, moved, src, dst) && v.history[at] == Repointed(old(v.m), src, dst, name)
      && forall c {:trigger v.m.fat[c]} :: 0 <= c < |v.m.fat| && c in chains[dst] ==> v.m.fat[c] == FREE
    ensures !ok || dst == src ==> moved == chains
    ensures ok && dst == src ==> v.m == old(v.m) && Rest(v, moved, files) && AllWhole(v.shape, old(v.history), v.history, files)
    ensures !ok ==> v.m == old(v.m) && v.history == old(v.history) && Rest(v, moved, files)
    ensures !ok ==> forall k :: 0 <= k < |files| ==> files[k].File? && !Called(files[k], name)
  {
    FilesOfRecords(v, chains, files);
    moved, at := chains, 0;
    var stale := 0;
    ok, dst := Find(v.m.dir, name);
    if ok {
      stale := v.m.dir[dst].first;
    } else {
      ok, dst := FindVacant(v.m.dir);
      if !ok { return; }
    }
    if dst == src {
      PutRecord(v, dst, v.m.dir[src]);
      assert v.m.dir == old(v.m.dir);
      assert Whole(v.shape, v.m, files);
      return;
    }
    moved, at := Move(v, src, dst, name, stale, chains, files);
  }
}
