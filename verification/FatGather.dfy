/**
 The bytes of a write, gathered: whole sectors that lie next to each other on
 the medium wait and go out as one request, in the order the caller gave them,
 before anything that is not a whole sector and at the end.
 */
module FatGather {
  import opened ByteFields
  import opened FatVolume
  import opened FatTable
  import opened FatChains
  import opened FatWrite

  /** Sectors waiting: where they start on the medium, where their bytes are in the caller's buffer, how many. */
  datatype Run = Run(sector: nat, at: nat, sectors: nat)

  /** Where a waiting sector belongs: in which cluster of the chain, and which sector of it. */
  datatype Place = Place(i: nat, w: nat)

  function PerCluster(g: Shape): (n: nat)
    requires GoodShape(g)
    ensures n > 0 && g.clusterSize == SECTOR * n
  {
    g.clusterSize / SECTOR
  }

  /** The sectors of the data area, numbered from that of the first cluster. */
  function SectorOf(g: Shape, cluster: nat, w: nat): nat
    requires GoodShape(g) && cluster >= FIRST_CLUSTER
  {
    PerCluster(g) * (cluster - FIRST_CLUSTER) + w
  }

  /** A sector of the medium is the one that byte `at` of the file starts. */
  ghost predicate PlacedAt(g: Shape, cs: seq<nat>, sector: nat, p: Place, at: nat) {
    true == (
      && GoodShape(g) && p.i < |cs| && cs[p.i] >= FIRST_CLUSTER && p.w < PerCluster(g)
      && sector == SectorOf(g, cs[p.i], p.w) && g.clusterSize * p.i + SECTOR * p.w == at)
  }

  /** What waits are the file's own sectors, in order, for the bytes up to `done`. */
  ghost predicate Waiting(g: Shape, cs: seq<nat>, run: Run, places: seq<Place>, from: nat, done: nat) {
    && |places| == run.sectors && run.at + SECTOR * run.sectors == done
    && forall j {:trigger places[j]} :: 0 <= j < run.sectors ==> PlacedAt(g, cs, run.sector + j, places[j], from + run.at + SECTOR * j)
  }

  lemma SameQuotient(n: nat, q: nat, w: nat, q1: nat, w1: nat)
    requires w < n && w1 < n && n * q + w == n * q1 + w1
    ensures q == q1 && w == w1
  {
    assert n * (q + 1) == n * q + n && n * (q1 + 1) == n * q1 + n;
    if q < q1 {
      TimesGrows(n, q + 1, q1);
    } else if q1 < q {
      TimesGrows(n, q1 + 1, q);
    }
  }

  lemma Divided(n: nat, q: nat, w: nat, k: nat)
    requires w < n && k == n * q + w
    ensures k / n == q && k % n == w
  {
    assert k == n * (k / n) + k % n;
    SameQuotient(n, q, w, k / n, k % n);
  }

  lemma SectorMeans(g: Shape, cluster: nat, w: nat, sector: nat)
    requires GoodShape(g) && cluster >= FIRST_CLUSTER && w < PerCluster(g) && sector == SectorOf(g, cluster, w)
    ensures sector / PerCluster(g) == cluster - FIRST_CLUSTER && sector % PerCluster(g) == w
  {
    Divided(PerCluster(g), cluster - FIRST_CLUSTER, w, sector);
  }

  /** The cluster and the place in it that a sector number means. */
  method FindSector(g: Shape, sector: nat, ghost cs: seq<nat>, ghost p: Place, ghost at: nat) returns (cluster: nat, within: nat)
    requires PlacedAt(g, cs, sector, p, at)
    ensures p.i < |cs| && cluster == cs[p.i] && within + SECTOR <= g.clusterSize && g.clusterSize * p.i + within == at
  {
    SectorMeans(g, cs[p.i], p.w, sector);
    var n := PerCluster(g);
    cluster, within := sector / n + FIRST_CLUSTER, SECTOR * (sector % n);
  }

  lemma WaitingLonger(g: Shape, cs: seq<nat>, longer: seq<nat>, run: Run, places: seq<Place>, from: nat, done: nat)
    requires Waiting(g, cs, run, places, from, done) && cs <= longer
    ensures Waiting(g, longer, run, places, from, done)
  {
    forall j | 0 <= j < run.sectors
      ensures PlacedAt(g, longer, run.sector + j, places[j], from + run.at + SECTOR * j)
    {
      assert PlacedAt(g, cs, run.sector + j, places[j], from + run.at + SECTOR * j);
    }
  }

  ghost function Places(i: nat, w: nat, count: nat): (ps: seq<Place>)
    ensures |ps| == count && forall j :: 0 <= j < count ==> ps[j] == Place(i, w + j)
  {
    seq(count, j requires 0 <= j < count => Place(i, w + j))
  }

  /** More whole sectors of one cluster, behind what waits. */
  lemma WaitingMore(g: Shape, cs: seq<nat>, run: Run, places: seq<Place>, from: nat, done: nat, i: nat, w: nat, count: nat)
    requires Waiting(g, cs, run, places, from, done) && GoodShape(g)
    requires i < |cs| && cs[i] >= FIRST_CLUSTER && w + count <= PerCluster(g) && g.clusterSize * i + SECTOR * w == from + done
    requires run.sector + run.sectors == SectorOf(g, cs[i], w)
    ensures Waiting(g, cs, run.(sectors := run.sectors + count), places + Places(i, w, count), from, done + SECTOR * count)
  {
    var more, ps := run.(sectors := run.sectors + count), places + Places(i, w, count);
    forall j | 0 <= j < more.sectors
      ensures PlacedAt(g, cs, more.sector + j, ps[j], from + more.at + SECTOR * j)
    {
      if j < run.sectors {
        assert ps[j] == places[j];
      } else {
        assert ps[j] == Place(i, w + (j - run.sectors));
      }
    }
  }

  /** What waits, written: one request. */
  method Drain(v: Volume, e: Entry, run: Run, bytes: seq<byte>, done: nat, ghost places: seq<Place>,
               ghost s: Start, ghost longer: seq<seq<nat>>, ghost from: nat)
    requires done <= |bytes| && e.slot < |longer| && Waiting(v.shape, longer[e.slot], run, places, from, done)
    requires Wrote(v, e, s, longer, from, bytes[..run.at], bytes)
    modifies v`m, v`history
    ensures Wrote(v, e, s, longer, from, bytes[..done], bytes) && v.m.fat == old(v.m.fat)
  {
    for j := 0 to run.sectors
      invariant Wrote(v, e, s, longer, from, bytes[..run.at + SECTOR * j], bytes) && v.m.fat == old(v.m.fat)
    {
      ghost var p := places[j];
      DrainSector(v, e, run.sector + j, bytes, run.at + SECTOR * j, p, s, longer, from);
    }
  }

  method DrainSector(v: Volume, e: Entry, sector: nat, bytes: seq<byte>, at: nat, ghost p: Place,
                     ghost s: Start, ghost longer: seq<seq<nat>>, ghost from: nat)
    requires at + SECTOR <= |bytes| && e.slot < |longer| && PlacedAt(v.shape, longer[e.slot], sector, p, from + at)
    requires Wrote(v, e, s, longer, from, bytes[..at], bytes)
    modifies v`m, v`history
    ensures Wrote(v, e, s, longer, from, bytes[..at + SECTOR], bytes) && v.m.fat == old(v.m.fat)
  {
    var cluster, within := FindSector(v.shape, sector, longer[e.slot], p, from + at);
    assert bytes[..at] + bytes[at..at + SECTOR] == bytes[..at + SECTOR];
    WriteSector(v, e, cluster, within, bytes[at..at + SECTOR], p.i, s, longer, from, bytes[..at], bytes);
  }

  /** A write under way: the bytes before what waits are on the medium, and those that wait have their places. */
  ghost predicate Gathering(v: Volume, e: Entry, s: Start, longer: seq<seq<nat>>, from: nat, bytes: seq<byte>, run: Run, places: seq<Place>, done: nat)
    reads v, e
  {
    true == (
      && done <= |bytes| && e.slot < |longer| && Waiting(v.shape, longer[e.slot], run, places, from, done)
      && Wrote(v, e, s, longer, from, bytes[..run.at], bytes))
  }

  /** Nothing waits. */
  method Request(v: Volume, e: Entry, run: Run, bytes: seq<byte>, done: nat, ghost places: seq<Place>,
                 ghost s: Start, ghost longer: seq<seq<nat>>, ghost from: nat)
    returns (none: Run)
    requires Gathering(v, e, s, longer, from, bytes, run, places, done)
    modifies v`m, v`history
    ensures none == Run(0, done, 0) && Gathering(v, e, s, longer, from, bytes, none, [], done) && v.m.fat == old(v.m.fat)
  {
    Drain(v, e, run, bytes, done, places, s, longer, from);
    none := Run(0, done, 0);
  }

  /** How many whole sectors may go in one piece. */
  method WholeSectors(g: Shape, within: nat, remaining: nat) returns (whole: nat)
    requires GoodShape(g) && within < g.clusterSize
    ensures whole * SECTOR <= remaining && within + SECTOR * whole <= g.clusterSize
    ensures whole > 0 ==> within % SECTOR == 0 && within / SECTOR + whole <= PerCluster(g)
  {
    whole := 0;
    if within % SECTOR == 0 && remaining >= SECTOR {
      var wanted := remaining / SECTOR;
      var left := PerCluster(g) - within / SECTOR;
      whole := if wanted < left then wanted else left;
    }
  }

  /** Whole sectors added to what waits, which goes out first if they do not carry on from it. */
  method Extend(v: Volume, e: Entry, cluster: nat, within: nat, whole: nat, bytes: seq<byte>, run0: Run, done: nat, ghost places0: seq<Place>,
                ghost i: nat, ghost s: Start, ghost longer: seq<seq<nat>>, ghost from: nat)
    returns (run: Run, ghost places: seq<Place>)
    requires Gathering(v, e, s, longer, from, bytes, run0, places0, done) && whole > 0 && done + SECTOR * whole <= |bytes|
    requires GoodShape(v.shape) && Here(v.shape, longer, e.slot, cluster, within, i, from + done) && cluster >= FIRST_CLUSTER
    requires within % SECTOR == 0 && within / SECTOR + whole <= PerCluster(v.shape)
    modifies v`m, v`history
    ensures Gathering(v, e, s, longer, from, bytes, run, places, done + SECTOR * whole) && v.m.fat == old(v.m.fat)
  {
    var w := within / SECTOR;
    var sector := SectorOf(v.shape, cluster, w);
    run, places := run0, places0;
    if run.sectors == 0 || run.sector + run.sectors != sector {
      run := Request(v, e, run, bytes, done, places, s, longer, from);
      run, places := Run(sector, done, 0), [];
    }
    WaitingMore(v.shape, longer[e.slot], run, places, from, done, i, w, whole);
    run, places := run.(sectors := run.sectors + whole), places + Places(i, w, whole);
  }

  /** Part of a sector, on its own and behind what waits. */
  method PutPart(v: Volume, e: Entry, cluster: nat, within: nat, take: nat, bytes: seq<byte>, run0: Run, done: nat, ghost places: seq<Place>,
                 ghost i: nat, ghost s: Start, ghost longer: seq<seq<nat>>, ghost from: nat)
    returns (run: Run)
    requires Gathering(v, e, s, longer, from, bytes, run0, places, done) && done + take <= |bytes|
    requires Here(v.shape, longer, e.slot, cluster, within, i, from + done) && within + take <= v.shape.clusterSize
    modifies v`m, v`history
    ensures Gathering(v, e, s, longer, from, bytes, run, [], done + take) && v.m.fat == old(v.m.fat)
  {
    run := Request(v, e, run0, bytes, done, places, s, longer, from);
    assert bytes[..done] + bytes[done..done + take] == bytes[..done + take];
    WriteSector(v, e, cluster, within, bytes[done..done + take], i, s, longer, from, bytes[..done], bytes);
    run := Run(0, done + take, 0);
  }

  /** A cluster of an open file is one of the volume's. */
  lemma OpenedCluster(v: Volume, e: Entry, longer: seq<seq<nat>>, i: nat)
    requires Opened(v, e, longer) && e.slot < |longer| && i < |longer[e.slot]|
    ensures longer[e.slot][i] >= FIRST_CLUSTER
  {
    ChainOf(v.shape, v.table, Committed(e.told, e.slot, e.first, e.size), longer, e.slot);
  }

  /** As much as goes in one piece: whole sectors to wait, or part of one. */
  method GatherSome(v: Volume, e: Entry, cluster: nat, within: nat, bytes: seq<byte>, run0: Run, done: nat, ghost places0: seq<Place>,
                    ghost i: nat, ghost s: Start, ghost longer: seq<seq<nat>>, ghost from: nat)
    returns (take: nat, run: Run, ghost places: seq<Place>)
    requires Gathering(v, e, s, longer, from, bytes, run0, places0, done) && done < |bytes|
    requires Here(v.shape, longer, e.slot, cluster, within, i, from + done) && within < v.shape.clusterSize
    modifies v`m, v`history
    ensures 0 < take && done + take <= |bytes| && Gathering(v, e, s, longer, from, bytes, run, places, done + take)
    ensures Here(v.shape, longer, e.slot, cluster, within + take, i, from + done + take) && v.m.fat == old(v.m.fat)
  {
    OpenedCluster(v, e, longer, i);
    RoomFits(v.shape, within);
    var whole := WholeSectors(v.shape, within, |bytes| - done);
    if whole > 0 {
      take := SECTOR * whole;
      run, places := Extend(v, e, cluster, within, whole, bytes, run0, done, places0, i, s, longer, from);
    } else {
      var room: nat := SECTOR - within % SECTOR;
      take := if |bytes| - done < room then |bytes| - done else room;
      places := [];
      run := PutPart(v, e, cluster, within, take, bytes, run0, done, places0, i, s, longer, from);
    }
  }

  /** What waits still has its places when the chain has grown. */
  method GatherOn(v: Volume, e: Entry, cluster: nat, bytes: seq<byte>, done: nat, ghost run: Run, ghost places: seq<Place>,
                  ghost i: nat, ghost s: Start, ghost chains: seq<seq<nat>>, ghost from: nat)
    returns (ok: bool, next: nat, ghost longer: seq<seq<nat>>)
    requires Gathering(v, e, s, chains, from, bytes, run, places, done)
    requires Here(v.shape, chains, e.slot, cluster, v.shape.clusterSize, i, from + done) && Trails(v, s, e.slot, chains, i)
    modifies v`m, v`dirty, v`history, v`cache, v`cacheSector, v`table, v`hint
    ensures Gathering(v, e, s, longer, from, bytes, run, places, done)
    ensures if ok then Here(v.shape, longer, e.slot, next, 0, i + 1, from + done) && Trails(v, s, e.slot, longer, i + 1)
            else NoneFree(v.shape, v.table) && Short(v.shape, longer, e.slot, from + done)
  {
    ok, next, longer := WriteOn(v, e, cluster, i, from + done, s, chains, from, bytes[..run.at], bytes);
    WaitingLonger(v.shape, chains[e.slot], longer[e.slot], run, places, from, done);
  }

  /** One piece, and the way to the next cluster when that one is full. */
  method GatherStep(v: Volume, e: Entry, cluster0: nat, within0: nat, bytes: seq<byte>, run0: Run, done0: nat, ghost places0: seq<Place>,
                    ghost i0: nat, ghost s: Start, ghost chains: seq<seq<nat>>, ghost from: nat)
    returns (ok: bool, cluster: nat, within: nat, run: Run, done: nat, ghost places: seq<Place>, ghost i: nat, ghost longer: seq<seq<nat>>)
    requires Gathering(v, e, s, chains, from, bytes, run0, places0, done0) && done0 < |bytes| && Trails(v, s, e.slot, chains, i0)
    requires Here(v.shape, chains, e.slot, cluster0, within0, i0, from + done0) && within0 < v.shape.clusterSize
    modifies v`m, v`dirty, v`history, v`cache, v`cacheSector, v`table, v`hint
    ensures done0 < done <= |bytes| && Gathering(v, e, s, longer, from, bytes, run, places, done)
    ensures if ok then Here(v.shape, longer, e.slot, cluster, within, i, from + done) && Trails(v, s, e.slot, longer, i)
            else done < |bytes| && NoneFree(v.shape, v.table) && Short(v.shape, longer, e.slot, from + done)
    ensures ok && done < |bytes| ==> within < v.shape.clusterSize
  {
    ok, cluster, i, longer := true, cluster0, i0, chains;
    var take: nat;
    take, run, places := GatherSome(v, e, cluster, within0, bytes, run0, done0, places0, i, s, longer, from);
    done, within := done0 + take, within0 + take;
    if done < |bytes| && within == v.shape.clusterSize {
      ok, cluster, longer := GatherOn(v, e, cluster, bytes, done, run, places, i, s, longer, from);
      within, i := 0, i + 1;
    }
  }

  /** Bytes into a file from an offset its chain reaches or ends at. Of a write that fails, what still waits is not written. */
  method WriteRange(v: Volume, e: Entry, from: nat, bytes: seq<byte>, ghost s: Start)
    returns (ok: bool, ghost laid: nat, ghost longer: seq<seq<nat>>)
    requires Starting(v, e, s) && from <= |Bytes(s.m.data, s.chains[e.slot])|
    modifies v`m, v`dirty, v`history, v`cache, v`cacheSector, v`table, v`hint, e`first, e`walked, e`walkedCluster
    ensures laid <= |bytes| && Wrote(v, e, s, longer, from, bytes[..laid], bytes)
    ensures if ok then laid == |bytes| else NoneFree(v.shape, v.table) && (bytes != [] ==> TooShort(v.shape, longer, e.slot, from + |bytes|))
  {
    var cluster: nat, within: nat, done: nat;
    var run := Run(0, 0, 0);
    ghost var i: nat := 0;
    ghost var places: seq<Place> := [];
    done := 0;
    ok, cluster, within, i, longer := WriteFrom(v, e, from, s, bytes);
    while ok && done < |bytes|
      invariant Gathering(v, e, s, longer, from, bytes, run, places, done)
      invariant if ok then Here(v.shape, longer, e.slot, cluster, within, i, from + done) && Trails(v, s, e.slot, longer, i)
                else NoneFree(v.shape, v.table) && Short(v.shape, longer, e.slot, from + done) && (bytes != [] ==> done < |bytes|)
      invariant ok && done < |bytes| ==> within < v.shape.clusterSize
      decreases ok, |bytes| - done
    {
      ok, cluster, within, run, done, places, i, longer := GatherStep(v, e, cluster, within, bytes, run, done, places, i, s, longer, from);
    }
    laid := run.at;
    if ok {
      run := Request(v, e, run, bytes, done, places, s, longer, from);
      laid := done;
    }
  }
}
