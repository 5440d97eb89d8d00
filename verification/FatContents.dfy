/** The contents of files against the clusters a check leaves them. */
module FatContents {
  import opened ByteFields
  import opened FatVolume
  import opened FatVerdict
  import opened FatFiles
  import opened FatResize
  import opened FatClean

  /** The same file, its contents in front of what may be less than a cluster more. */
  predicate FileKept(before: File, after: File, clusterSize: nat) {
    if before == NoFile then after == NoFile else
      && after.File? && after.name == before.name && before.contents <= after.contents
      && |after.contents| < |before.contents| + clusterSize
  }

  /** The same file, its contents in front of whatever more. */
  predicate FileFront(before: File, after: File) {
    if before == NoFile then after == NoFile else after.File? && after.name == before.name && before.contents <= after.contents
  }

  /** The same files, the one at `loose` perhaps with more behind it than the others may have. */
  ghost predicate AllKept(g: Shape, files: seq<File>, after: seq<File>, loose: nat) {
    && |after| == |files|
    && forall k {:trigger files[k]} {:trigger after[k]} :: 0 <= k < |files| ==>
         FileFront(files[k], after[k]) && (k != loose ==> FileKept(files[k], after[k], g.clusterSize))
  }

  /** Every record can be read, and each of these files is there with its contents in front. */
  ghost predicate Carried(g: Shape, m: Medium, files: seq<File>, loose: nat) {
    exists chains, after :: Readable(g, m, chains, after) && AllKept(g, files, after, loose)
  }

  lemma RoundsToItself(size: nat, n: nat)
    requires n > 0
    ensures n * ClustersFor(size, n) == size <==> size % n == 0
  {
    var q, r := size / n, size % n;
    assert size == n * q + r;
    if r == 0 { MultipleRounds(size, n, q); }
    if n * ClustersFor(size, n) == size { NoRemainder(n, q, r, ClustersFor(size, n)); }
  }

  lemma MultipleRounds(size: nat, n: nat, q: nat)
    requires n > 0 && size == n * q
    ensures ClustersFor(size, n) == q
  {
    if q > 0 { OneLess(n, q); }
    ClustersForUnique(size, n, q);
  }

  lemma OneLess(n: nat, q: nat)
    requires q > 0
    ensures n * (q - 1) == n * q - n
  {
  }

  lemma NoRemainder(n: nat, q: nat, r: nat, k: nat)
    requires r < n && n * k == n * q + r
    ensures r == 0
  {
    if k <= q { TimesGrows(n, k, q); } else { TimesGrows(n, q + 1, k); }
    assert n * (q + 1) == n * q + n;
  }

  /** Whether a record's chain is just what its size needs, or its size fills its clusters. */
  predicate Unrounded(g: Shape, s: Slot, held: nat)
    requires g.clusterSize > 0
  {
    s.Vacant? || held == ClustersFor(s.size, g.clusterSize) || s.size % g.clusterSize == 0
  }

  /** One file after the check: the same name, the old contents in front, and nothing behind them if and only if its size was not rounded up. */
  lemma CheckedFile(g: Shape, f: Table, s: Slot, data: Clusters, whole: seq<nat>)
    requires GoodShape(g) && DataFits(g, data) && SlotSound(g, f, s, whole)
    ensures var before, after := FileOf(s, data, whole), FileOf(CheckedSlot(g, s, |whole|), data, CheckedChain(g, s, whole));
      && FileKept(before, after, g.clusterSize)
      && (after == before <==> Unrounded(g, s, |whole|))
  {
    if s.Used? {
      var needed := ClustersFor(s.size, g.clusterSize);
      RoundingFits(g, s, |whole|);
      BytesLength(g, data, whole);
      if |whole| == needed {
        assert whole[..needed] == whole;
      } else {
        RoundedFile(g, s, data, whole, needed);
      }
    }
  }

  lemma RoundedFile(g: Shape, s: Slot, data: Clusters, whole: seq<nat>, needed: nat)
    requires GoodShape(g) && DataFits(g, data) && s.Used? && needed <= |whole|
    requires forall i :: 0 <= i < |whole| ==> whole[i] < |data|
    requires s.size <= g.clusterSize * needed
    ensures var b, b1 := Bytes(data, whole), Bytes(data, whole[..needed]);
      && |b1| == g.clusterSize * needed && s.size <= |b1| <= |b| && b[..s.size] <= b1
      && (b[..s.size] == b1 <==> s.size == |b1|)
  {
    BytesLength(g, data, whole);
    BytesLength(g, data, whole[..needed]);
    assert whole == whole[..needed] + whole[needed..];
    BytesConcat(data, whole[..needed], whole[needed..]);
    FilledOut(Bytes(data, whole), Bytes(data, whole[..needed]), s.size);
  }

  /** Contents against the whole clusters they lie in. */
  lemma FilledOut(b: seq<byte>, b1: seq<byte>, size: nat)
    requires b1 <= b && size <= |b1|
    ensures b[..size] <= b1 && (b[..size] == b1 <==> size == |b1|)
  {
  }

  /** What rounding a size up to its clusters comes to. */
  lemma RoundingFits(g: Shape, s: Slot, held: nat)
    requires GoodShape(g) && s.Used? && s.size <= g.clusterSize * held
    ensures var needed := ClustersFor(s.size, g.clusterSize);
      && needed <= held && s.size <= g.clusterSize * needed < s.size + g.clusterSize
      && (needed == 0 ==> s.size == 0) && needed * g.clusterSize == g.clusterSize * needed
      && (held != needed ==> (g.clusterSize * needed == s.size <==> Unrounded(g, s, held)))
  {
    var n := g.clusterSize;
    var needed := ClustersFor(s.size, n);
    ClustersForBounds(s.size, n);
    RoundsToItself(s.size, n);
    if s.size > 0 { KeepFits(n, s.size, needed, held); }
    if needed > 0 { assert n * (needed - 1) == n * needed - n; }
  }

  /** What is kept of a chain shows a record all it showed. */
  lemma SameFile(g: Shape, f: Table, s: Slot, data: Clusters, whole: seq<nat>)
    requires GoodShape(g) && DataFits(g, data) && SlotSound(g, f, s, whole)
    ensures FileOf(s, data, CheckedChain(g, s, whole)) == FileOf(s, data, whole)
  {
    if s.Used? {
      var needed := ClustersFor(s.size, g.clusterSize);
      RoundingFits(g, s, |whole|);
      RoundedFile(g, s, data, whole, needed);
    }
  }
}
