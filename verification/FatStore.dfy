/**
 A write at any offset of an open file, and the record committed after it.
 */
module FatStore {
  import opened ByteFields
  import opened FatVolume
  import opened FatTable
  import opened FatChains
  import opened FatWrite
  import opened FatGather

  /** Contents with `b` stored at `at`: a gap reads as zeros, and nothing behind `b` is lost. */
  function Stored(c: seq<byte>, at: nat, b: seq<byte>): (r: seq<byte>) {
    (if at <= |c| then c[..at] else c + Zeros(at - |c|)) + b + (if at + |b| < |c| then c[at + |b|..] else [])
  }

  /** What the handle can read. */
  ghost function Visible(data: Clusters, chains: seq<seq<nat>>, slot: nat, size: nat): seq<byte>
    requires slot < |chains|
  {
    Take(Bytes(data, chains[slot]), size)
  }

  // ------------------------------------------------------------------
  // Bytes
  // ------------------------------------------------------------------

  lemma PatchedIsStored(b0: seq<byte>, size: nat, at: nat, x: seq<byte>, b: seq<byte>)
    requires Patched(b0, at, x, b) && at <= size <= |b0|
    ensures b[..if at + |x| > size then at + |x| else size] == Stored(b0[..size], at, x)
  {
    var want := Stored(b0[..size], at, x);
    var got := b[..if at + |x| > size then at + |x| else size];
    forall i | 0 <= i < |got|
      ensures got[i] == want[i]
    {
      if at <= i < at + |x| { assert b[at..at + |x|][i - at] == x[i - at]; }
    }
  }

  lemma GapIsStored(b0: seq<byte>, size: nat, at: nat, b1: seq<byte>, x: seq<byte>, b: seq<byte>)
    requires size <= |b0| && size < at
    requires Patched(b0, size, Zeros(at - size), b1) && Patched(b1, at, x, b)
    ensures b[..at + |x|] == Stored(b0[..size], at, x)
  {
    var want := Stored(b0[..size], at, x);
    forall i | 0 <= i < at + |x|
      ensures b[..at + |x|][i] == want[i]
    {
      if size <= i < at { assert b1[size..at][i - size] == Zeros(at - size)[i - size]; }
      if at <= i { assert b[at..at + |x|][i - at] == x[i - at]; }
    }
  }

  lemma PatchedPartly(b0: seq<byte>, size: nat, at: nat, x: seq<byte>, b: seq<byte>, all: seq<byte>)
    requires Patched(b0, at, x, b) && size <= |b0| && x <= all
    ensures PartlyStored(Take(b0, size), Take(b, size), at, all)
  {
    PatchedOverlays(b0, at, x, b, size);
    assert Overlaid(Take(b0, size), Take(b, size), size, at, all[..|x|]);
  }

  /** Bytes laid behind what the record shows are not seen. */
  lemma PartlyHidden(b: seq<byte>, a: seq<byte>, from: nat, x: seq<byte>)
    requires PartlyStored(b, a, from, x) && |b| <= from
    ensures a == b
    ensures forall at: nat, y: seq<byte> :: PartlyStored(b, a, at, y)
  {
    forall at: nat, y: seq<byte>
      ensures PartlyStored(b, a, at, y)
    {
      assert Overlaid(b, a, |b|, at, y[..0]);
    }
  }

  lemma TornHidden(g: Shape, m: Medium, files: seq<File>, slot: nat, from: nat, x: seq<byte>)
    requires Torn(g, m, files, slot, from, x) && |files[slot].contents| <= from
    ensures Whole(g, m, files)
    ensures forall at: nat, y: seq<byte> :: Torn(g, m, files, slot, at, y)
  {
    var file :| Alike(file, files[slot], from, x) && Whole(g, m, files[slot := file]);
    PartlyHidden(files[slot].contents, file.contents, from, x);
    assert files[slot := file] == files;
    forall at: nat, y: seq<byte>
      ensures Torn(g, m, files, slot, at, y)
    {
      assert Alike(file, files[slot], at, y);
    }
  }

  /** Bytes laid behind a file's size are not among its contents yet. */
  lemma LaidShows(g: Shape, s: Start, m: Medium, slot: nat, c: seq<seq<nat>>, x: seq<byte>)
    requires Began(g, s, slot) && Laid(s.m, s.chains, m, c, slot, s.size, x)
    ensures Shows(m.dir, m.data, c, s.files)
  {
    BeganBytes(g, s, slot);
    forall k | 0 <= k < |m.dir|
      ensures FileOf(m.dir[k], m.data, c[k]) == s.files[k]
    {
      assert FileOf(s.m.dir[k], s.m.data, s.chains[k]) == s.files[k];
      if k == slot {
        assert Bytes(m.data, c[k])[..m.dir[k].size] == Bytes(s.m.data, s.chains[k])[..m.dir[k].size];
      } else {
        assert c[k] == s.chains[k];
      }
    }
  }

  /** The gap between a file's end and `to`, filled with zeros. */
  method ZeroRange(v: Volume, e: Entry, to: nat, ghost s: Start)
    returns (ok: bool, ghost x: seq<byte>, ghost longer: seq<seq<nat>>)
    requires Starting(v, e, s) && e.size < to
    modifies v`m, v`dirty, v`history, v`cache, v`cacheSector, v`table, v`hint, e`first, e`walked, e`walkedCluster
    ensures Wrote(v, e, s, longer, s.size, x, Zeros(to - s.size))
    ensures Shows(e.told, v.m.data, longer, s.files)
    ensures if ok then x == Zeros(to - s.size) else NoneFree(v.shape, v.table) && Short(v.shape, longer, e.slot, to - 1)
    ensures ok && s.m.fat == s.table ==> Reached(v, s, e.slot, longer, to)
  {
    BeganBytes(v.shape, s, e.slot);
    var done;
    ok, done, longer := FillRange(v, e, e.size, Zeros(to - e.size), s);
    x := Zeros(to - s.size)[..done];
    WroteShows(v, e, s, longer, x, Zeros(to - s.size));
  }

  lemma WroteShows(v: Volume, e: Entry, s: Start, longer: seq<seq<nat>>, x: seq<byte>, all: seq<byte>)
    requires Wrote(v, e, s, longer, s.size, x, all)
    ensures Shows(e.told, v.m.data, longer, s.files)
  {
    LaidShows(v.shape, s, Told(v, e), e.slot, longer, x);
  }

  lemma HiddenAll(g: Shape, s: Start, slot: nat, h: seq<Medium>, x: seq<byte>, at: nat, y: seq<byte>)
    requires Began(g, s, slot) && AllTorn(g, s.history, h, s.files, slot, s.size, x)
    ensures AllTorn(g, s.history, h, s.files, slot, at, y)
  {
    BeganBytes(g, s, slot);
    forall i | |s.history| <= i < |h|
      ensures Torn(g, h[i], s.files, slot, at, y)
    {
      TornHidden(g, h[i], s.files, slot, s.size, x);
    }
  }

  /** What a write left: the bytes stored, or some front part of them. */
  ghost predicate Outcome(s: Start, m: Medium, size: nat, longer: seq<seq<nat>>, slot: nat, offset: nat, bytes: seq<byte>, ok: bool) {
    && m.dir == s.m.dir && Longer(s.chains, longer, slot)
    && Unmoved(s.m.data, m.data, s.chains, slot) && Untouched(s.m.data, m.data, longer[slot])
    && if ok && bytes != [] then
         && size == (if offset + |bytes| > s.size then offset + |bytes| else s.size)
         && Visible(m.data, longer, slot, size) == Stored(Visible(s.m.data, s.chains, slot, s.size), offset, bytes)
       else
         && size == s.size
         && PartlyStored(Visible(s.m.data, s.chains, slot, s.size), Visible(m.data, longer, slot, size), offset, bytes)
  }

  lemma DirectOutcome(g: Shape, s: Start, m: Medium, longer: seq<seq<nat>>, slot: nat, offset: nat, bytes: seq<byte>, done: nat)
    requires Began(g, s, slot) && done <= |bytes| && offset <= s.size
    requires Laid(s.m, s.chains, m, longer, slot, offset, bytes[..done])
    ensures Outcome(s, m, s.size, longer, slot, offset, bytes, false)
    ensures offset + done <= |Bytes(m.data, longer[slot])|
    ensures bytes != [] && done == |bytes| ==>
      Outcome(s, m, if offset + |bytes| > s.size then offset + |bytes| else s.size, longer, slot, offset, bytes, true)
  {
    BeganBytes(g, s, slot);
    var b0, b := Bytes(s.m.data, s.chains[slot]), Bytes(m.data, longer[slot]);
    PatchedPartly(b0, s.size, offset, bytes[..done], b, bytes);
    if done == |bytes| {
      assert bytes[..done] == bytes;
      PatchedIsStored(b0, s.size, offset, bytes, b);
    }
  }

  lemma GapUntouched(m0: Medium, c0: seq<seq<nat>>, m1: Medium, c1: seq<seq<nat>>, m2: Medium, c2: seq<seq<nat>>, slot: nat,
                     from: nat, x: seq<byte>, at: nat, y: seq<byte>)
    requires Laid(m0, c0, m1, c1, slot, from, x) && Laid(m1, c1, m2, c2, slot, at, y)
    ensures m2.dir == m0.dir && Longer(c0, c2, slot) && Unmoved(m0.data, m2.data, c0, slot) && Untouched(m0.data, m2.data, c2[slot])
  {
    UnmovedTwice(m0.data, m1.data, m2.data, c0, c1, slot);
    UntouchedLonger(m0.data, m1.data, c1[slot], c2[slot]);
  }

  lemma GapOutcome(g: Shape, s: Start, s1: Start, x: seq<byte>, m: Medium, longer: seq<seq<nat>>, slot: nat, offset: nat,
                   bytes: seq<byte>, done: nat)
    requires Began(g, s, slot) && s.size < offset && done <= |bytes| && x == Zeros(offset - s.size)
    requires Laid(s.m, s.chains, s1.m, s1.chains, slot, s.size, x)
    requires Laid(s1.m, s1.chains, m, longer, slot, offset, bytes[..done])
    ensures Outcome(s, m, s.size, longer, slot, offset, bytes, false)
    ensures offset + done <= |Bytes(m.data, longer[slot])|
    ensures bytes != [] && done == |bytes| ==> Outcome(s, m, offset + |bytes|, longer, slot, offset, bytes, true)
  {
    BeganBytes(g, s, slot);
    var b0, b1, b := Bytes(s.m.data, s.chains[slot]), Bytes(s1.m.data, s1.chains[slot]), Bytes(m.data, longer[slot]);
    GapUntouched(s.m, s.chains, s1.m, s1.chains, m, longer, slot, s.size, x, offset, bytes[..done]);
    NothingStored(Take(b0, s.size), Take(b, s.size), offset, bytes);
    if done == |bytes| {
      assert bytes[..done] == bytes;
      GapIsStored(b0, s.size, offset, b1, bytes, b);
    }
  }

  /** Since `s`: what a write left, and that no cut shows more than the stretch it was writing. */
  ghost predicate WroteAt(v: Volume, e: Entry, s: Start, longer: seq<seq<nat>>, offset: nat, bytes: seq<byte>, ok: bool)
    reads v, e
  {
    true == (
      && Opened(v, e, longer) && RecordsKept(v, s) && Outcome(s, Told(v, e), e.size, longer, e.slot, offset, bytes, ok)
      && Spared(s.table, v.table, s.chains[e.slot], longer[e.slot])
      && AllTorn(v.shape, s.history, Tale(v, e), s.files, e.slot, offset, bytes)
      && (s.m.copy == s.m.fat ==> v.m.copy == v.m.fat))
  }

  /** All the bytes are in the chain, and the handle claims as far as they reach. */
  method SetSize(v: Volume, e: Entry, size: nat, ghost offset: nat, ghost bytes: seq<byte>, ghost s: Start, ghost longer: seq<seq<nat>>)
    requires WroteAt(v, e, s, longer, offset, bytes, false) && Outcome(s, Told(v, e), size, longer, e.slot, offset, bytes, true)
    requires e.size <= size <= |Bytes(v.m.data, longer[e.slot])|
    modifies e`size
    ensures WroteAt(v, e, s, longer, offset, bytes, true)
  {
    SizeReached(v, e, longer, size);
    e.size := size;
  }

  method WriteInside(v: Volume, e: Entry, offset: nat, bytes: seq<byte>, ghost s: Start)
    returns (ok: bool, ghost longer: seq<seq<nat>>)
    requires Starting(v, e, s) && bytes != [] && offset <= e.size
    modifies v`m, v`dirty, v`history, v`cache, v`cacheSector, v`table, v`hint, e
    ensures WroteAt(v, e, s, longer, offset, bytes, ok)
    ensures !ok ==> NoneFree(v.shape, v.table) && TooShort(v.shape, longer, e.slot, offset + |bytes|)
  {
    ghost var laid;
    BeganBytes(v.shape, s, e.slot);
    ok, laid, longer := WriteRange(v, e, offset, bytes, s);
    WroteInside(v, e, s, longer, offset, bytes, laid);
    if ok && offset + |bytes| > e.size { SetSize(v, e, offset + |bytes|, offset, bytes, s, longer); }
  }

  lemma WroteInside(v: Volume, e: Entry, s: Start, longer: seq<seq<nat>>, offset: nat, bytes: seq<byte>, done: nat)
    requires done <= |bytes| && Wrote(v, e, s, longer, offset, bytes[..done], bytes)
    requires bytes != [] && offset <= s.size
    ensures WroteAt(v, e, s, longer, offset, bytes, false)
    ensures offset + done <= |Bytes(v.m.data, longer[e.slot])|
    ensures done == |bytes| ==> if offset + done > e.size
      then Outcome(s, Told(v, e), offset + done, longer, e.slot, offset, bytes, true)
      else WroteAt(v, e, s, longer, offset, bytes, true)
  {
    DirectOutcome(v.shape, s, Told(v, e), longer, e.slot, offset, bytes, done);
  }

  /** A handle may claim as far as its chain reaches. */
  lemma SizeReached(v: Volume, e: Entry, chains: seq<seq<nat>>, size: nat)
    requires Opened(v, e, chains) && e.size <= size && size <= |Bytes(v.m.data, chains[e.slot])|
    ensures Ready(v.shape, Told(v, e), v.table, e.slot, e.first, size, chains)
  {
    var after := Committed(e.told, e.slot, e.first, e.size);
    ChainOf(v.shape, v.table, after, chains, e.slot);
    BytesLength(v.shape, v.m.data, chains[e.slot]);
    SoundWith(v.shape, v.table, after, chains, e.slot, after[e.slot].(size := size), chains[e.slot]);
    assert chains[e.slot := chains[e.slot]] == chains;
    assert after[e.slot := after[e.slot].(size := size)] == Committed(e.told, e.slot, e.first, size);
  }

  lemma NothingStored(b: seq<byte>, a: seq<byte>, at: nat, x: seq<byte>)
    requires a == b
    ensures PartlyStored(b, a, at, x)
  {
    assert Overlaid(b, a, |b|, at, x[..0]);
  }

  /** A gap that could not all be filled is still nothing a reader sees. */
  lemma GapOnly(v: Volume, e: Entry, s: Start, longer: seq<seq<nat>>, x: seq<byte>, all: seq<byte>, offset: nat, bytes: seq<byte>)
    requires Wrote(v, e, s, longer, s.size, x, all)
    ensures WroteAt(v, e, s, longer, offset, bytes, false)
  {
    BeganBytes(v.shape, s, e.slot);
    HiddenAll(v.shape, s, e.slot, Tale(v, e), all, offset, bytes);
    assert Take(Bytes(s.m.data, s.chains[e.slot]), s.size) == Take(Bytes(v.m.data, longer[e.slot]), s.size);
    NothingStored(Visible(s.m.data, s.chains, e.slot, s.size), Visible(v.m.data, longer, e.slot, s.size), offset, bytes);
  }

  lemma WroteBeyond(v: Volume, e: Entry, s: Start, x: seq<byte>, s1: Start, longer: seq<seq<nat>>, offset: nat, bytes: seq<byte>, done: nat)
    requires Gapped(v.shape, s, x, s1, e.slot, offset, bytes) && bytes != [] && done <= |bytes|
    requires Wrote(v, e, s1, longer, offset, bytes[..done], bytes)
    ensures WroteAt(v, e, s, longer, offset, bytes, false)
    ensures offset + done <= |Bytes(v.m.data, longer[e.slot])|
    ensures done == |bytes| ==> Outcome(s, Told(v, e), offset + done, longer, e.slot, offset, bytes, true)
  {
    GapOutcome(v.shape, s, s1, x, Told(v, e), longer, e.slot, offset, bytes, done);
    TornTwice(v.shape, s.history, s1.history, Tale(v, e), s.files, e.slot, offset, bytes);
    SparedTwice(s.table, s1.table, v.table, s.chains[e.slot], s1.chains[e.slot], longer[e.slot]);
  }

  lemma TornTwice(g: Shape, h0: seq<Medium>, h1: seq<Medium>, h2: seq<Medium>, files: seq<File>, slot: nat, from: nat, x: seq<byte>)
    requires AllTorn(g, h0, h1, files, slot, from, x) && AllTorn(g, h1, h2, files, slot, from, x)
    ensures AllTorn(g, h0, h2, files, slot, from, x)
  {
    forall i | |h0| <= i < |h2|
      ensures Torn(g, h2[i], files, slot, from, x)
    {
      if i < |h1| { assert h2[i] == h1[i]; }
    }
  }

  /** The gap before a write, and where the write itself then begins. */
  method FillGap(v: Volume, e: Entry, offset: nat, ghost bytes: seq<byte>, ghost s: Start)
    returns (ok: bool, ghost x: seq<byte>, ghost s1: Start)
    requires Starting(v, e, s) && e.size < offset
    modifies v`m, v`dirty, v`history, v`cache, v`cacheSector, v`table, v`hint, e`first, e`walked, e`walkedCluster
    ensures WroteAt(v, e, s, s1.chains, offset, bytes, false)
    ensures if ok then
        Starting(v, e, s1) && offset <= |Bytes(s1.m.data, s1.chains[e.slot])| && Gapped(v.shape, s, x, s1, e.slot, offset, bytes)
      else
        NoneFree(v.shape, v.table) && TooShort(v.shape, s1.chains, e.slot, offset)
  {
    ghost var longer;
    ok, x, longer := ZeroRange(v, e, offset, s);
    GapOnly(v, e, s, longer, x, Zeros(offset - s.size), offset, bytes);
    s1 := Now(v, e, longer, s.files);
    if ok { GapBegins(v, e, s, longer, x, s1, offset, bytes); }
  }

  method WriteBeyond(v: Volume, e: Entry, offset: nat, bytes: seq<byte>, ghost s: Start)
    returns (ok: bool, ghost longer: seq<seq<nat>>)
    requires Starting(v, e, s) && bytes != [] && e.size < offset
    modifies v`m, v`dirty, v`history, v`cache, v`cacheSector, v`table, v`hint, e
    ensures WroteAt(v, e, s, longer, offset, bytes, ok)
    ensures !ok ==> NoneFree(v.shape, v.table) && TooShort(v.shape, longer, e.slot, offset + |bytes|)
  {
    ghost var x, s1;
    ok, x, s1 := FillGap(v, e, offset, bytes, s);
    longer := s1.chains;
    if ok { ok, longer := WriteFilled(v, e, offset, bytes, s, x, s1); }
  }

  method WriteFilled(v: Volume, e: Entry, offset: nat, bytes: seq<byte>, ghost s: Start, ghost x: seq<byte>, ghost s1: Start)
    returns (ok: bool, ghost longer: seq<seq<nat>>)
    requires Starting(v, e, s1) && bytes != [] && Gapped(v.shape, s, x, s1, e.slot, offset, bytes)
    requires offset <= |Bytes(s1.m.data, s1.chains[e.slot])|
    modifies v`m, v`dirty, v`history, v`cache, v`cacheSector, v`table, v`hint, e
    ensures WroteAt(v, e, s, longer, offset, bytes, ok)
    ensures !ok ==> NoneFree(v.shape, v.table) && TooShort(v.shape, longer, e.slot, offset + |bytes|)
  {
    ghost var laid;
    ok, laid, longer := WriteRange(v, e, offset, bytes, s1);
    WroteBeyond(v, e, s, x, s1, longer, offset, bytes, laid);
    if ok { SetSize(v, e, offset + |bytes|, offset, bytes, s, longer); }
  }

  /** Behind a filled gap, a write begins with the same files on the medium. */
  lemma GapBegins(v: Volume, e: Entry, s: Start, longer: seq<seq<nat>>, x: seq<byte>, s1: Start, offset: nat, bytes: seq<byte>)
    requires s.size < offset && Wrote(v, e, s, longer, s.size, x, Zeros(offset - s.size)) && Shows(e.told, v.m.data, longer, s.files)
    requires x == Zeros(offset - s.size) && s1 == Now(v, e, longer, s.files)
    ensures Starting(v, e, s1) && offset <= |Bytes(s1.m.data, longer[e.slot])|
    ensures Gapped(v.shape, s, x, s1, e.slot, offset, bytes)
  {
    BeganBytes(v.shape, s, e.slot);
    HiddenAll(v.shape, s, e.slot, Tale(v, e), x, offset, bytes);
  }

  /** From `s` to `s1`, only the gap was filled. */
  ghost predicate Gapped(g: Shape, s: Start, x: seq<byte>, s1: Start, slot: nat, offset: nat, bytes: seq<byte>) {
    true == (
      && Began(g, s, slot) && s.size < offset && x == Zeros(offset - s.size)
      && Laid(s.m, s.chains, s1.m, s1.chains, slot, s.size, x)
      && Spared(s.table, s1.table, s.chains[slot], s1.chains[slot])
      && s1.files == s.files && s1.size == s.size && s1.dir == s.dir && SameRecords(s.past, s1.past, s.dir)
      && AllTorn(g, s.history, s1.history, s.files, slot, offset, bytes)
      && (s.m.copy == s.m.fat ==> s1.m.copy == s1.m.fat))
  }

  /** Neither the medium nor the handle moved, and nothing was written. */
  twostate predicate NothingMoved(v: Volume, e: Entry)
    reads v, e
  {
    && v.m == old(v.m) && v.table == old(v.table) && v.history == old(v.history)
    && e.first == old(e.first) && e.size == old(e.size) && e.walked == old(e.walked) && e.walkedCluster == old(e.walkedCluster)
  }

  method WriteAtUnflushed(v: Volume, e: Entry, offset: nat, bytes: seq<byte>, ghost s: Start)
    returns (ok: bool, ghost longer: seq<seq<nat>>)
    requires Starting(v, e, s)
    modifies v`m, v`dirty, v`history, v`cache, v`cacheSector, v`table, v`hint, e
    ensures WroteAt(v, e, s, longer, offset, bytes, ok)
    ensures bytes == [] ==> ok
    ensures bytes != [] && offset + |bytes| > MAX_FILE_BYTES ==> !ok
    ensures bytes == [] || offset + |bytes| > MAX_FILE_BYTES ==> NothingMoved(v, e) && v.dirty == old(v.dirty) && longer == s.chains
    ensures !ok ==> offset + |bytes| > MAX_FILE_BYTES
                    || (NoneFree(v.shape, v.table) && TooShort(v.shape, longer, e.slot, offset + |bytes|))
  {
    ok, longer := bytes == [] || offset + |bytes| <= MAX_FILE_BYTES, s.chains;
    if bytes == [] || !ok {
      NothingWritten(v, e, s, offset, bytes, ok);
    } else if offset > e.size {
      ok, longer := WriteBeyond(v, e, offset, bytes, s);
    } else {
      ok, longer := WriteInside(v, e, offset, bytes, s);
    }
  }

  lemma NothingWritten(v: Volume, e: Entry, s: Start, offset: nat, bytes: seq<byte>, ok: bool)
    requires Starting(v, e, s) && (bytes == [] || !ok)
    ensures WroteAt(v, e, s, s.chains, offset, bytes, ok)
  {
    var seen := Visible(s.m.data, s.chains, e.slot, s.size);
    NothingStored(seen, seen, offset, bytes);
  }

  /** The bytes stored at an offset, a gap before it zeroed, and the table on the medium before the call is over. */
  method WriteAt(v: Volume, e: Entry, offset: nat, bytes: seq<byte>, ghost s: Start)
    returns (ok: bool, ghost longer: seq<seq<nat>>)
    requires Starting(v, e, s)
    modifies v`m, v`dirty, v`history, v`cache, v`cacheSector, v`table, v`hint, e
    ensures WroteAt(v, e, s, longer, offset, bytes, ok) && !v.dirty && v.table == v.m.fat
    ensures bytes == [] ==> ok
    ensures bytes != [] && offset + |bytes| > MAX_FILE_BYTES ==> !ok
    ensures !old(v.dirty) && (bytes == [] || offset + |bytes| > MAX_FILE_BYTES) ==> NothingMoved(v, e) && longer == s.chains
    ensures !ok ==> offset + |bytes| > MAX_FILE_BYTES
                    || (NoneFree(v.shape, v.table) && TooShort(v.shape, longer, e.slot, offset + |bytes|))
  {
    ok, longer := WriteAtUnflushed(v, e, offset, bytes, s);
    FlushOpened(v, e, offset, bytes, ok, s, longer);
  }

  method FlushOpened(v: Volume, e: Entry, ghost offset: nat, ghost bytes: seq<byte>, ghost ok: bool, ghost s: Start, ghost longer: seq<seq<nat>>)
    requires Began(v.shape, s, e.slot) && WroteAt(v, e, s, longer, offset, bytes, ok)
    modifies v`m, v`dirty, v`history
    ensures WroteAt(v, e, s, longer, offset, bytes, ok) && !v.dirty && v.table == v.m.fat && v.m.data == old(v.m.data)
    ensures !old(v.dirty) ==> v.m == old(v.m) && v.history == old(v.history)
  {
    ghost var h0, h1 := v.history, Tale(v, e);
    ReadyStands(v.shape, Told(v, e), v.table, e.slot, e.first, e.size, longer);
    ChainOf(v.shape, v.table, Committed(e.told, e.slot, e.first, e.size), longer, e.slot);
    BytesLength(v.shape, v.m.data, longer[e.slot]);
    Flush(v, Standing(v.shape, e.told, longer, e.slot));
    RetoldWrites(h0, v.history, v.m, e.told, Standing(v.shape, e.told, longer, e.slot));
    OutcomeCuts(v.shape, s, Told(v, e), e.size, longer, e.slot, offset, bytes, ok, h1, Tale(v, e));
  }

  lemma OutcomeCuts(g: Shape, s: Start, m: Medium, size: nat, longer: seq<seq<nat>>, slot: nat, offset: nat, bytes: seq<byte>, ok: bool,
                    h1: seq<Medium>, h2: seq<Medium>)
    requires Began(g, s, slot) && Outcome(s, m, size, longer, slot, offset, bytes, ok) && DataFits(g, m.data)
    requires size <= |Bytes(m.data, longer[slot])|
    requires AllTorn(g, s.history, h1, s.files, slot, offset, bytes)
    requires TableWrites(h1, h2, m, Standing(g, m.dir, longer, slot))
    ensures AllTorn(g, s.history, h2, s.files, slot, offset, bytes)
  {
    forall i | |s.history| <= i < |h2|
      ensures Torn(g, h2[i], s.files, slot, offset, bytes)
    {
      if i < |h1| {
        assert h2[i] == h1[i];
      } else {
        OutcomeCut(g, s, h2[i], size, longer, slot, offset, bytes, ok);
      }
    }
  }

  /** After a write, a medium whose table lags behind still shows the files. */
  lemma OutcomeCut(g: Shape, s: Start, m: Medium, size: nat, longer: seq<seq<nat>>, slot: nat, offset: nat, bytes: seq<byte>, ok: bool)
    requires Began(g, s, slot) && Outcome(s, m, size, longer, slot, offset, bytes, ok) && DataFits(g, m.data)
    requires Behind(g, m.fat, m.dir, longer, slot) && size <= |Bytes(m.data, longer[slot])|
    ensures Torn(g, m, s.files, slot, offset, bytes)
  {
    BeganBytes(g, s, slot);
    var b0, b := Bytes(s.m.data, s.chains[slot]), Bytes(m.data, longer[slot]);
    var d := ShownOverlaid(b0, s.size, b, size, offset, bytes, ok, m.dir[slot].size);
    CutWhileWriting(g, m, s.m.data, s.chains, longer, slot, offset, bytes[..d], bytes, s.files);
  }

  /** How much of the bytes lies over what the record shows. */
  lemma ShownOverlaid(b0: seq<byte>, size0: nat, b: seq<byte>, size: nat, offset: nat, bytes: seq<byte>, ok: bool, shown: nat)
    returns (d: nat)
    requires shown <= size0 <= |b0| && size0 <= size <= |b|
    requires if ok && bytes != [] then Take(b, size) == Stored(Take(b0, size0), offset, bytes)
             else PartlyStored(Take(b0, size0), Take(b, size), offset, bytes)
    ensures d <= |bytes| && Overlaid(b0, b, shown, offset, bytes[..d])
  {
    if ok && bytes != [] {
      d := |bytes|;
      assert bytes[..d] == bytes;
      forall i | 0 <= i < shown
        ensures b[i] == if offset <= i < offset + |bytes| then bytes[i - offset] else b0[i]
      {
        assert b[i] == Take(b, size)[i] && b0[i] == Take(b0, size0)[i];
      }
    } else {
      d :| d <= |bytes| && Overlaid(Take(b0, size0), Take(b, size), size0, offset, bytes[..d]);
      forall i | 0 <= i < shown
        ensures b[i] == if offset <= i < offset + |bytes[..d]| then bytes[..d][i - offset] else b0[i]
      {
        assert b[i] == Take(b, size)[i] && b0[i] == Take(b0, size0)[i];
      }
    }
  }
}
