/**
 A FAT volume on its medium: the two copies of the table, the clusters, and a
 root directory of fixed length; and what it means for the medium to be sound.
 */
module FatVolume {
  import opened ByteFields

  const FREE: nat := 0
  const BAD: nat := 0xFFF7
  const END_FROM: nat := 0xFFF8
  const TERMINATOR: nat := 0xFFFF
  const FIRST_CLUSTER: nat := 2
  const SECTOR: nat := 512
  const MAX_FILE_BYTES: nat := 0xFFFF_FFFF
  /** Sixteen-bit entries in a sector of the table. */
  const PER_SECTOR: nat := 256

  datatype Slot = Vacant | Used(name: string, first: nat, size: nat)

  type Table = seq<nat>
  type Clusters = seq<seq<byte>>

  datatype Medium = Medium(fat: Table, copy: Table, data: Clusters, dir: seq<Slot>)

  /** How many clusters there are, how many bytes each holds, how many sectors the table takes. */
  datatype Shape = Shape(clusters: nat, clusterSize: nat, tableSectors: nat)

  predicate GoodShape(g: Shape) {
    && 0 < g.clusterSize <= 128 * SECTOR && g.clusterSize % SECTOR == 0
    && g.clusters + FIRST_CLUSTER <= BAD
    && g.clusters + FIRST_CLUSTER <= PER_SECTOR * g.tableSectors
  }

  predicate Fits(g: Shape, m: Medium) {
    && |m.fat| == |m.copy| == PER_SECTOR * g.tableSectors
    && DataFits(g, m.data)
  }

  predicate DataFits(g: Shape, data: Clusters) {
    |data| == g.clusters + FIRST_CLUSTER && forall c :: 0 <= c < |data| ==> |data[c]| == g.clusterSize
  }

  /** A number that names a cluster of the volume. */
  predicate ValidCluster(g: Shape, c: nat) {
    FIRST_CLUSTER <= c < g.clusters + FIRST_CLUSTER
  }

  // ------------------------------------------------------------------
  // Chains
  // ------------------------------------------------------------------

  ghost predicate Distinct(cs: seq<nat>) {
    forall i, j :: 0 <= i < j < |cs| ==> cs[i] != cs[j]
  }

  /** `cs` are clusters of the volume, each but the last linked to the next. */
  ghost predicate Linked(g: Shape, f: Table, cs: seq<nat>) {
    && |f| == PER_SECTOR * g.tableSectors && GoodShape(g)
    && (forall i :: 0 <= i < |cs| ==> ValidCluster(g, cs[i]))
    && (forall i :: 0 <= i < |cs| - 1 ==> f[cs[i]] == cs[i + 1])
    && Distinct(cs)
  }

  /** A whole chain, ended by an end-of-chain marker. */
  ghost predicate IsChain(g: Shape, f: Table, cs: seq<nat>) {
    Linked(g, f, cs) && (cs != [] ==> f[cs[|cs| - 1]] >= END_FROM)
  }

  ghost predicate Apart(a: seq<nat>, b: seq<nat>) {
    forall c :: c in a ==> c !in b
  }

  /** What a record claims is there: a whole chain from its first cluster, long enough for its size. */
  ghost predicate SlotSound(g: Shape, f: Table, s: Slot, cs: seq<nat>) {
    match s
    case Vacant => cs == []
    case Used(_, first, size) =>
      && IsChain(g, f, cs)
      && (if first == 0 then cs == [] else cs != [] && cs[0] == first)
      && size <= g.clusterSize * |cs|
  }

  /** Every record's chain is whole, and no two records share a cluster. */
  ghost predicate Sound(g: Shape, f: Table, dir: seq<Slot>, chains: seq<seq<nat>>) {
    && |chains| == |dir|
    && (forall k {:trigger SlotSound(g, f, dir[k], chains[k])} :: 0 <= k < |dir| ==> SlotSound(g, f, dir[k], chains[k]))
    && (forall j, k {:trigger Apart(chains[j], chains[k])} :: 0 <= j < |dir| && 0 <= k < |dir| && j != k ==> Apart(chains[j], chains[k]))
  }

  // ------------------------------------------------------------------
  // Contents
  // ------------------------------------------------------------------

  /** The bytes of a run of clusters. */
  function Bytes(data: Clusters, cs: seq<nat>): seq<byte> {
    if cs == [] then [] else
    var last := cs[|cs| - 1];
    Bytes(data, cs[..|cs| - 1]) + if last < |data| then data[last] else []
  }

  function Take<T>(s: seq<T>, n: nat): (r: seq<T>)
    ensures n <= |s| ==> r == s[..n]
  {
    if n <= |s| then s[..n] else s
  }

  datatype File = NoFile | File(name: string, contents: seq<byte>)

  /** The file a record and its chain make. */
  function FileOf(s: Slot, data: Clusters, cs: seq<nat>): File {
    match s
    case Vacant => NoFile
    case Used(name, _, size) => File(name, Take(Bytes(data, cs), size))
  }

  /** What the volume holds: sound, and these files in its records. */
  ghost predicate Holds(g: Shape, f: Table, dir: seq<Slot>, data: Clusters, files: seq<File>, chains: seq<seq<nat>>) {
    && Sound(g, f, dir, chains) && |files| == |dir|
    && forall k :: 0 <= k < |dir| ==> FileOf(dir[k], data, chains[k]) == files[k]
  }

  /** A medium a reader finds sound, holding exactly these files. */
  ghost predicate Whole(g: Shape, m: Medium, files: seq<File>) {
    exists chains :: Holds(g, m.fat, m.dir, m.data, files, chains)
  }

  /** A medium whose records all lead to whole chains of their own. */
  ghost predicate SoundMedium(g: Shape, m: Medium) {
    exists any :: Sound(g, m.fat, m.dir, any)
  }

  /** Every record's size is one its thirty-two bits hold. */
  predicate SizesFit(m: Medium) {
    forall k {:trigger m.dir[k]} :: 0 <= k < |m.dir| && m.dir[k].Used? ==> m.dir[k].size < 0x1_0000_0000
  }

  lemma TimesGrows(n: nat, a: nat, b: nat)
    requires a <= b
    ensures n * a <= n * b
  {
    assert n * b == n * a + n * (b - a);
  }

  lemma {:induction false} BytesLength(g: Shape, data: Clusters, cs: seq<nat>)
    requires DataFits(g, data) && forall i :: 0 <= i < |cs| ==> cs[i] < |data|
    ensures |Bytes(data, cs)| == g.clusterSize * |cs|
  {
    if cs != [] {
      var init := cs[..|cs| - 1];
      BytesLength(g, data, init);
      assert g.clusterSize * |cs| == g.clusterSize * |init| + g.clusterSize;
    }
  }

  /** Only the clusters of a run decide its bytes. */
  lemma {:induction false} BytesFrame(d0: Clusters, d1: Clusters, cs: seq<nat>)
    requires |d0| == |d1| && forall i :: 0 <= i < |cs| && cs[i] < |d0| ==> d0[cs[i]] == d1[cs[i]]
    ensures Bytes(d0, cs) == Bytes(d1, cs)
  {
    if cs != [] { BytesFrame(d0, d1, cs[..|cs| - 1]); }
  }

  lemma {:induction false} BytesConcat(data: Clusters, a: seq<nat>, b: seq<nat>)
    ensures Bytes(data, a + b) == Bytes(data, a) + Bytes(data, b)
  {
    if b == [] {
      assert a + b == a;
    } else {
      BytesConcat(data, a, b[..|b| - 1]);
      assert (a + b)[..|a + b| - 1] == a + b[..|b| - 1];
    }
  }
}
