/**
 What growing one file does to the chains of the volume, and what writing into
 it does to the bytes a reader finds; on values, with no medium in sight.
 */
module FatChains {
  import opened ByteFields
  import opened FatVolume
  import opened FatTable

  // ------------------------------------------------------------------
  // Chains
  // ------------------------------------------------------------------

  /** Nothing free is in a chain a record reaches. */
  lemma FreeIsOutside(g: Shape, f: Table, dir: seq<Slot>, chains: seq<seq<nat>>, c: nat)
    requires Sound(g, f, dir, chains) && IsFree(g, f, c)
    ensures forall k :: 0 <= k < |chains| ==> c !in chains[k]
  {
    forall k | 0 <= k < |chains|
      ensures c !in chains[k]
    {
      assert SlotSound(g, f, dir[k], chains[k]);
      if c in chains[k] {
        var i :| 0 <= i < |chains[k]| && chains[k][i] == c;
        LinkInChain(g, f, chains[k], i);
      }
    }
  }

  /** A chain does not notice what happens to clusters outside it. */
  lemma ChainFrame(g: Shape, f0: Table, f1: Table, cs: seq<nat>)
    requires IsChain(g, f0, cs) && |f0| == |f1|
    requires forall c :: c in cs && c < |f0| ==> f1[c] == f0[c]
    ensures IsChain(g, f1, cs)
  {
  }

  lemma SoundFrame(g: Shape, f0: Table, f1: Table, dir: seq<Slot>, chains: seq<seq<nat>>)
    requires Sound(g, f0, dir, chains) && |f0| == |f1|
    requires forall k, c :: 0 <= k < |chains| && c in chains[k] && c < |f0| ==> f1[c] == f0[c]
    ensures Sound(g, f1, dir, chains)
  {
    forall k | 0 <= k < |dir|
      ensures SlotSound(g, f1, dir[k], chains[k])
    {
      assert SlotSound(g, f0, dir[k], chains[k]);
      if dir[k].Used? { ChainFrame(g, f0, f1, chains[k]); }
    }
  }

  /** One record changed with its chain, the rest as they were. */
  lemma SoundWith(g: Shape, f: Table, dir: seq<Slot>, chains: seq<seq<nat>>, slot: nat, s: Slot, cs: seq<nat>)
    requires |dir| == |chains| && slot < |dir| && SlotSound(g, f, s, cs)
    requires forall k :: 0 <= k < |dir| && k != slot ==> SlotSound(g, f, dir[k], chains[k]) && Apart(chains[k], cs)
    requires forall j, k :: 0 <= j < |dir| && 0 <= k < |dir| && j != k && j != slot && k != slot ==> Apart(chains[j], chains[k])
    ensures Sound(g, f, dir[slot := s], chains[slot := cs])
  {
  }

  lemma AllocKeepsSound(g: Shape, f: Table, dir: seq<Slot>, chains: seq<seq<nat>>, c: nat)
    requires Sound(g, f, dir, chains) && IsFree(g, f, c)
    ensures Sound(g, f[c := TERMINATOR], dir, chains)
  {
    FreeIsOutside(g, f, dir, chains, c);
    SoundFrame(g, f, f[c := TERMINATOR], dir, chains);
  }

  /** A file's first cluster. */
  lemma Claim(g: Shape, f: Table, dir: seq<Slot>, chains: seq<seq<nat>>, slot: nat, c: nat)
    requires GoodShape(g) && Sound(g, f, dir, chains) && IsFree(g, f, c) && |f| == PER_SECTOR * g.tableSectors
    requires slot < |dir| && dir[slot].Used? && dir[slot].first == 0
    ensures Sound(g, f[c := TERMINATOR], dir[slot := dir[slot].(first := c)], chains[slot := [c]])
  {
    var f1 := f[c := TERMINATOR];
    AllocKeepsSound(g, f, dir, chains, c);
    FreeIsOutside(g, f, dir, chains, c);
    assert SlotSound(g, f, dir[slot], chains[slot]);
    assert IsChain(g, f1, [c]);
    SoundWith(g, f1, dir, chains, slot, dir[slot].(first := c), [c]);
  }

  lemma ExtendChain(g: Shape, f: Table, cs: seq<nat>, c: nat)
    requires IsChain(g, f, cs) && cs != [] && IsFree(g, f, c) && c !in cs
    ensures IsChain(g, f[c := TERMINATOR][cs[|cs| - 1] := c], cs + [c])
  {
    var f1 := f[c := TERMINATOR][cs[|cs| - 1] := c];
    var longer := cs + [c];
    forall i | 0 <= i < |longer| - 1
      ensures f1[longer[i]] == longer[i + 1]
    {
      if i < |cs| - 1 { assert cs[i] != cs[|cs| - 1]; }
    }
  }

  /** A cluster behind a file's last. */
  lemma Extend(g: Shape, f: Table, dir: seq<Slot>, chains: seq<seq<nat>>, slot: nat, c: nat)
    requires Sound(g, f, dir, chains) && IsFree(g, f, c)
    requires slot < |dir| && dir[slot].Used? && chains[slot] != []
    ensures chains[slot][|chains[slot]| - 1] < |f|
    ensures Sound(g, f[c := TERMINATOR][chains[slot][|chains[slot]| - 1] := c], dir, chains[slot := chains[slot] + [c]])
  {
    var cs := chains[slot];
    var last := cs[|cs| - 1];
    FreeIsOutside(g, f, dir, chains, c);
    assert SlotSound(g, f, dir[slot], cs);
    ExtendChain(g, f, cs, c);
    var f1 := f[c := TERMINATOR][last := c];
    forall k | 0 <= k < |dir| && k != slot
      ensures SlotSound(g, f1, dir[k], chains[k]) && Apart(chains[k], cs + [c])
    {
      assert SlotSound(g, f, dir[k], chains[k]) && Apart(chains[k], cs);
      assert last in cs;
      if dir[k].Used? { ChainFrame(g, f, f1, chains[k]); }
    }
    assert g.clusterSize * |cs + [c]| == g.clusterSize * |cs| + g.clusterSize;
    SoundWith(g, f1, dir, chains, slot, dir[slot], cs + [c]);
    assert dir[slot := dir[slot]] == dir;
  }

  // ------------------------------------------------------------------
  // A file being written: what the medium has may lag behind what the table says
  // ------------------------------------------------------------------

  /** With `slot` reaching only the first `n` clusters of its chain, all is sound. */
  ghost predicate Reaches(g: Shape, f: Table, dir: seq<Slot>, chains: seq<seq<nat>>, slot: nat, n: nat) {
    slot < |chains| && n <= |chains[slot]| && Sound(g, f, dir, chains[slot := chains[slot][..n]])
  }

  /** The records are sound, as far as the table lets them reach. */
  ghost predicate Behind(g: Shape, f: Table, dir: seq<Slot>, chains: seq<seq<nat>>, slot: nat) {
    exists n: nat :: Reaches(g, f, dir, chains, slot, n)
  }

  ghost function Standing(g: Shape, dir: seq<Slot>, chains: seq<seq<nat>>, slot: nat): Table -> bool {
    f => Behind(g, f, dir, chains, slot)
  }

  /** The records, once this one carries what its handle does. */
  function Committed(dir: seq<Slot>, slot: nat, first: nat, size: nat): (r: seq<Slot>)
    requires slot < |dir| && dir[slot].Used?
  {
    dir[slot := dir[slot].(first := first, size := size)]
  }

  /** A file open for writing: its handle may be ahead of its record, and the table of the medium. */
  ghost predicate Ready(g: Shape, m: Medium, f: Table, slot: nat, first: nat, size: nat, chains: seq<seq<nat>>) {
    && slot < |m.dir| == |chains| && m.dir[slot].Used?
    && (m.dir[slot].first == first || m.dir[slot].first == 0) && m.dir[slot].size <= size
    && Sound(g, f, Committed(m.dir, slot, first, size), chains)
    && Behind(g, m.fat, m.dir, chains, slot)
  }

  lemma SoundSmaller(g: Shape, f: Table, dir: seq<Slot>, slot: nat, first: nat, size: nat, chains: seq<seq<nat>>)
    requires |dir| == |chains| && slot < |dir| && dir[slot].Used? && dir[slot].first == first && dir[slot].size <= size
    requires Sound(g, f, Committed(dir, slot, first, size), chains)
    ensures Sound(g, f, dir, chains)
  {
    var after := Committed(dir, slot, first, size);
    forall k | 0 <= k < |dir|
      ensures SlotSound(g, f, dir[k], chains[k])
    {
      assert SlotSound(g, f, after[k], chains[k]);
    }
  }

  lemma ReadyStands(g: Shape, m: Medium, f: Table, slot: nat, first: nat, size: nat, chains: seq<seq<nat>>)
    requires Ready(g, m, f, slot, first, size, chains)
    ensures Behind(g, f, m.dir, chains, slot)
  {
    var after := Committed(m.dir, slot, first, size);
    assert SlotSound(g, f, after[slot], chains[slot]);
    if m.dir[slot].first == first {
      assert chains[slot][..|chains[slot]|] == chains[slot];
      assert chains[slot := chains[slot]] == chains;
      SoundSmaller(g, f, m.dir, slot, first, size, chains);
      assert Reaches(g, f, m.dir, chains, slot, |chains[slot]|);
    } else {
      var n: nat :| Reaches(g, m.fat, m.dir, chains, slot, n);
      assert SlotSound(g, m.fat, m.dir[slot], chains[slot := chains[slot][..n]][slot]);
      assert n == 0;
      assert IsChain(g, f, []);
      SoundWith(g, f, after, chains, slot, m.dir[slot], []);
      assert after[slot := m.dir[slot]] == m.dir;
      assert Reaches(g, f, m.dir, chains, slot, 0);
    }
  }

  lemma AllocStands(g: Shape, f: Table, dir: seq<Slot>, chains: seq<seq<nat>>, slot: nat, c: nat)
    requires Behind(g, f, dir, chains, slot) && IsFree(g, f, c)
    ensures Behind(g, f[c := TERMINATOR], dir, chains, slot)
  {
    var n: nat :| Reaches(g, f, dir, chains, slot, n);
    AllocKeepsSound(g, f, dir, chains[slot := chains[slot][..n]], c);
    assert Reaches(g, f[c := TERMINATOR], dir, chains, slot, n);
  }

  /** A longer chain in the table changes nothing about what is behind it. */
  lemma StandsLonger(g: Shape, f: Table, dir: seq<Slot>, chains: seq<seq<nat>>, slot: nat, cs: seq<nat>)
    requires slot < |chains| && Behind(g, f, dir, chains, slot) && chains[slot] <= cs
    ensures Behind(g, f, dir, chains[slot := cs], slot)
  {
    var n: nat :| Reaches(g, f, dir, chains, slot, n);
    assert cs[..n] == chains[slot][..n];
    assert chains[slot := cs][slot := cs[..n]] == chains[slot := chains[slot][..n]];
    assert Reaches(g, f, dir, chains[slot := cs], slot, n);
  }

  lemma ReadyLonger(g: Shape, m: Medium, f: Table, slot: nat, first: nat, size: nat, chains: seq<seq<nat>>, c: nat)
    requires Ready(g, m, f, slot, first, size, chains) && IsFree(g, f, c) && chains[slot] != []
    ensures chains[slot][|chains[slot]| - 1] < |f|
    ensures Ready(g, m, f[c := TERMINATOR][chains[slot][|chains[slot]| - 1] := c], slot, first, size,
                  chains[slot := chains[slot] + [c]])
  {
    Extend(g, f, Committed(m.dir, slot, first, size), chains, slot, c);
    StandsLonger(g, m.fat, m.dir, chains, slot, chains[slot] + [c]);
  }

  lemma ReadyFirst(g: Shape, m: Medium, f: Table, slot: nat, size: nat, chains: seq<seq<nat>>, c: nat)
    requires GoodShape(g) && Ready(g, m, f, slot, 0, size, chains) && IsFree(g, f, c) && |f| == PER_SECTOR * g.tableSectors
    ensures chains[slot] == [] && Ready(g, m, f[c := TERMINATOR], slot, c, size, chains[slot := [c]])
  {
    var after := Committed(m.dir, slot, 0, size);
    assert SlotSound(g, f, after[slot], chains[slot]);
    Claim(g, f, after, chains, slot, c);
    StandsLonger(g, m.fat, m.dir, chains, slot, [c]);
    assert after[slot := after[slot].(first := c)] == Committed(m.dir, slot, c, size);
  }

  // ------------------------------------------------------------------
  // What a growing file leaves alone
  // ------------------------------------------------------------------

  /** While a chain grew from `c0` to `c1`, no entry outside it changed, and what it gained was free. */
  ghost predicate Spared(f0: Table, f1: Table, c0: seq<nat>, c1: seq<nat>) {
    && |f0| == |f1|
    && (forall c {:trigger f1[c]} :: 0 <= c < |f0| && c !in c1 ==> f1[c] == f0[c])
    && (forall c {:trigger c in c1} :: c in c1 && c !in c0 && c < |f0| ==> f0[c] == FREE)
  }

  lemma SparedTwice(f0: Table, f1: Table, f2: Table, c0: seq<nat>, c1: seq<nat>, c2: seq<nat>)
    requires Spared(f0, f1, c0, c1) && Spared(f1, f2, c1, c2) && c1 <= c2
    ensures Spared(f0, f2, c0, c2)
  {
    forall c | c in c1
      ensures c in c2
    {
      var i :| 0 <= i < |c1| && c1[i] == c;
      assert c2[i] == c;
    }
  }

  lemma AppendSpares(g: Shape, f: Table, cs: seq<nat>, c: nat)
    requires IsFree(g, f, c) && cs != [] && cs[|cs| - 1] < |f|
    ensures Spared(f, f[c := TERMINATOR][cs[|cs| - 1] := c], cs, cs + [c])
  {
    assert (cs + [c])[|cs| - 1] == cs[|cs| - 1] && (cs + [c])[|cs|] == c;
  }

  /** No cluster outside the chain was written. */
  ghost predicate Untouched(d0: Clusters, d1: Clusters, cs: seq<nat>) {
    |d0| == |d1| && forall c {:trigger d1[c]} :: 0 <= c < |d0| && c !in cs ==> d1[c] == d0[c]
  }

  // ------------------------------------------------------------------
  // How far the medium's table is behind
  // ------------------------------------------------------------------

  /** Where the medium's table differs, it links nothing. */
  ghost predicate Links(g: Shape, mf: Table, f: Table) {
    |mf| == |f| && forall c :: 0 <= c < |f| ==> mf[c] == f[c] || !ValidCluster(g, mf[c])
  }

  function EntryOf(f: Table, c: nat): nat { if c < |f| then f[c] else FREE }

  /** The medium's table does not lead to the last cluster of a chain. */
  ghost predicate Dangling(mf: Table, cs: seq<nat>) {
    && cs != []
    && if |cs| == 1 then EntryOf(mf, cs[0]) == FREE else EntryOf(mf, cs[|cs| - 2]) != cs[|cs| - 1]
  }

  /** Nothing has been appended and the medium has the whole table, or the medium lacks the last link. */
  ghost predicate Lagging(g: Shape, mf: Table, f: Table, c0: seq<nat>, cs: seq<nat>) {
    Links(g, mf, f) && if cs == c0 then mf == f else Dangling(mf, cs)
  }

  lemma AppendLags(g: Shape, mf0: Table, f0: Table, mf: Table, cs: seq<nat>, c: nat)
    requires GoodShape(g) && Links(g, mf0, f0) && IsChain(g, f0, cs) && cs != [] && IsFree(g, f0, c)
    requires mf == mf0 || mf == f0 || mf == f0[c := TERMINATOR]
    ensures cs[|cs| - 1] < |f0| && Links(g, mf, f0[c := TERMINATOR][cs[|cs| - 1] := c]) && Dangling(mf, cs + [c])
  {
    var last := cs[|cs| - 1];
    LinkInChain(g, f0, cs, |cs| - 1);
    assert last != c;
    assert mf[last] != c;
    assert (cs + [c])[|cs| - 1] == last;
  }

  // ------------------------------------------------------------------
  // Bytes being written
  // ------------------------------------------------------------------

  function Overlay(s: seq<byte>, at: nat, x: seq<byte>): (r: seq<byte>)
    requires at + |x| <= |s|
    ensures |r| == |s|
  {
    s[..at] + x + s[at + |x|..]
  }

  /** `b` is `b0` with `x` written at `from`, and perhaps more behind both. */
  ghost predicate Patched(b0: seq<byte>, from: nat, x: seq<byte>, b: seq<byte>) {
    && |b0| <= |b| && from + |x| <= |b|
    && (forall i :: 0 <= i < |b0| && (i < from || from + |x| <= i) ==> b[i] == b0[i])
    && b[from..from + |x|] == x
  }

  lemma PatchedOverlays(b0: seq<byte>, from: nat, x: seq<byte>, b: seq<byte>, size: nat)
    requires Patched(b0, from, x, b) && size <= |b0|
    ensures Overlaid(b0, b, size, from, x)
  {
    forall i | 0 <= i < size && from <= i < from + |x|
      ensures b[i] == x[i - from]
    {
      assert b[from..from + |x|][i - from] == b[i];
    }
  }

  lemma PatchedLonger(b0: seq<byte>, from: nat, x: seq<byte>, b: seq<byte>, more: seq<byte>)
    requires Patched(b0, from, x, b)
    ensures Patched(b0, from, x, b + more)
  {
    assert (b + more)[from..from + |x|] == b[from..from + |x|];
  }

  lemma PatchedOn(b0: seq<byte>, from: nat, x: seq<byte>, b: seq<byte>, chunk: seq<byte>)
    requires Patched(b0, from, x, b) && from + |x| + |chunk| <= |b|
    ensures Patched(b0, from, x + chunk, Overlay(b, from + |x|, chunk))
  {
    var r := Overlay(b, from + |x|, chunk);
    assert r[from..from + |x|] == b[from..from + |x|];
    assert r[from + |x|..from + |x| + |chunk|] == chunk;
    assert r[from..from + |x + chunk|] == r[from..from + |x|] + r[from + |x|..from + |x| + |chunk|];
  }

  /** Bytes laid into one cluster of a chain appear at their place in the file. */
  lemma BytesOverlay(data: Clusters, cs: seq<nat>, i: nat, within: nat, x: seq<byte>)
    requires Distinct(cs) && i < |cs| && cs[i] < |data| && within + |x| <= |data[cs[i]]|
    ensures |Bytes(data, cs[..i])| + within + |x| <= |Bytes(data, cs)|
    ensures Bytes(data[cs[i] := Overlay(data[cs[i]], within, x)], cs)
         == Overlay(Bytes(data, cs), |Bytes(data, cs[..i])| + within, x)
  {
    BytesAround(data, cs, i);
    ReplacedOverlay(data, cs, i, Bytes(data, cs), Bytes(data, cs[..i]), data[cs[i]], Bytes(data, cs[i + 1..]), within, x);
  }

  lemma ReplacedOverlay(data: Clusters, cs: seq<nat>, i: nat, s: seq<byte>, front: seq<byte>, here: seq<byte>, back: seq<byte>,
                        within: nat, x: seq<byte>)
    requires Distinct(cs) && i < |cs| && cs[i] < |data| && within + |x| <= |here|
    requires front == Bytes(data, cs[..i]) && back == Bytes(data, cs[i + 1..]) && s == front + here + back
    ensures |front| + within + |x| <= |s|
    ensures Bytes(data[cs[i] := Overlay(here, within, x)], cs) == Overlay(s, |front| + within, x)
  {
    BytesReplaced(data, cs, i, Overlay(here, within, x));
    OverlayMiddle(s, Bytes(data[cs[i] := Overlay(here, within, x)], cs), front, here, back, within, x);
  }

  lemma BytesReplaced(data: Clusters, cs: seq<nat>, i: nat, b: seq<byte>)
    requires Distinct(cs) && i < |cs| && cs[i] < |data|
    ensures Bytes(data[cs[i] := b], cs) == Bytes(data, cs[..i]) + b + Bytes(data, cs[i + 1..])
  {
    BytesAround(data[cs[i] := b], cs, i);
    FrameAround(data, data[cs[i] := b], cs, i);
  }

  lemma FrameAround(d0: Clusters, d1: Clusters, cs: seq<nat>, i: nat)
    requires Distinct(cs) && i < |cs| && |d0| == |d1| && forall c :: 0 <= c < |d0| && c != cs[i] ==> d0[c] == d1[c]
    ensures Bytes(d0, cs[..i]) == Bytes(d1, cs[..i]) && Bytes(d0, cs[i + 1..]) == Bytes(d1, cs[i + 1..])
  {
    BytesFrame(d0, d1, cs[..i]);
    BytesFrame(d0, d1, cs[i + 1..]);
  }

  lemma OverlayMiddle(s: seq<byte>, r: seq<byte>, a: seq<byte>, m: seq<byte>, b: seq<byte>, within: nat, x: seq<byte>)
    requires within + |x| <= |m| && s == a + m + b && r == a + Overlay(m, within, x) + b
    ensures |a| + within + |x| <= |s| && r == Overlay(s, |a| + within, x)
  {
    assert s[..|a| + within] == a + m[..within];
    assert s[|a| + within + |x|..] == m[within + |x|..] + b;
  }

  lemma BytesAround(data: Clusters, cs: seq<nat>, i: nat)
    requires i < |cs| && cs[i] < |data|
    ensures Bytes(data, cs) == Bytes(data, cs[..i]) + data[cs[i]] + Bytes(data, cs[i + 1..])
  {
    assert cs == cs[..i] + [cs[i]] + cs[i + 1..];
    BytesConcat(data, cs[..i] + [cs[i]], cs[i + 1..]);
    BytesConcat(data, cs[..i], [cs[i]]);
    assert [cs[i]][..0] == [];
  }

  // ------------------------------------------------------------------
  // What a cut leaves of a file being written
  // ------------------------------------------------------------------

  /** The first `size` bytes of both are the same, but that `x` lies over the second's from `from`. */
  ghost predicate Overlaid(b0: seq<byte>, b: seq<byte>, size: nat, from: nat, x: seq<byte>) {
    && size <= |b0| && size <= |b|
    && forall i {:trigger b[i]} :: 0 <= i < size ==> b[i] == if from <= i < from + |x| then x[i - from] else b0[i]
  }

  /** `a` is `b` with some front part of `x` laid over it at `from`, as far as `b` reaches. */
  ghost predicate PartlyStored(b: seq<byte>, a: seq<byte>, from: nat, x: seq<byte>) {
    |a| == |b| && exists d: nat :: d <= |x| && Overlaid(b, a, |b|, from, x[..d])
  }

  /** The same file, but that some front part of `x` may lie over it at `from`. */
  ghost predicate Alike(a: File, b: File, from: nat, x: seq<byte>) {
    a.File? && b.File? && a.name == b.name && PartlyStored(b.contents, a.contents, from, x)
  }

  /** A sound medium holding these files, but that some front part of `x` may lie over one of them. */
  ghost predicate Torn(g: Shape, m: Medium, files: seq<File>, slot: nat, from: nat, x: seq<byte>) {
    && slot < |files|
    && exists file :: Alike(file, files[slot], from, x) && Whole(g, m, files[slot := file])
  }

  /** Every other file's bytes are what they were. */
  ghost predicate Unmoved(d0: Clusters, d1: Clusters, chains: seq<seq<nat>>, slot: nat) {
    forall k :: 0 <= k < |chains| && k != slot ==> Bytes(d0, chains[k]) == Bytes(d1, chains[k])
  }

  /** The files of the records, by these chains. */
  ghost predicate Shows(dir: seq<Slot>, data: Clusters, chains: seq<seq<nat>>, files: seq<File>) {
    && |dir| == |chains| == |files|
    && forall k :: 0 <= k < |dir| ==> FileOf(dir[k], data, chains[k]) == files[k]
  }

  /** However far the medium's table lags, a reader finds every file but the stretch being written. */
  lemma CutWhileWriting(g: Shape, m: Medium, d0: Clusters, chains0: seq<seq<nat>>, chains: seq<seq<nat>>,
                        slot: nat, from: nat, x: seq<byte>, all: seq<byte>, files: seq<File>)
    requires |chains0| == |chains| && slot < |chains| && chains == chains0[slot := chains[slot]]
    requires Shows(m.dir, d0, chains0, files) && m.dir[slot].Used?
    requires DataFits(g, m.data) && Unmoved(d0, m.data, chains0, slot)
    requires Overlaid(Bytes(d0, chains0[slot]), Bytes(m.data, chains[slot]), m.dir[slot].size, from, x) && x <= all
    requires Behind(g, m.fat, m.dir, chains, slot)
    ensures Torn(g, m, files, slot, from, all)
  {
    var n: nat :| Reaches(g, m.fat, m.dir, chains, slot, n);
    var cs := chains[slot];
    var cut := chains[slot := cs[..n]];
    var size := m.dir[slot].size;
    assert SlotSound(g, m.fat, m.dir[slot], cut[slot]);
    BytesLength(g, m.data, cs[..n]);
    assert cs == cs[..n] + cs[n..];
    BytesConcat(m.data, cs[..n], cs[n..]);
    var file := FileOf(m.dir[slot], m.data, cs[..n]);
    assert file.contents == Bytes(m.data, cs)[..size];
    assert files[slot] == FileOf(m.dir[slot], d0, chains0[slot]);
    assert Overlaid(files[slot].contents, file.contents, size, from, all[..|x|]);
    assert Alike(file, files[slot], from, all);
    forall k | 0 <= k < |m.dir|
      ensures FileOf(m.dir[k], m.data, cut[k]) == files[slot := file][k]
    {
      if k != slot { assert cut[k] == chains0[k]; }
    }
    assert Holds(g, m.fat, m.dir, m.data, files[slot := file], cut);
  }

  ghost predicate AllTorn(g: Shape, h0: seq<Medium>, h: seq<Medium>, files: seq<File>, slot: nat, from: nat, x: seq<byte>) {
    h0 <= h && forall i :: |h0| <= i < |h| ==> Torn(g, h[i], files, slot, from, x)
  }
}
