/**
 The allocation table behind a one-sector cache: entries are changed in the
 cache, and reach both copies on the medium when another sector takes its
 place or when somebody asks for a flush.
 */
module FatTable {
  import opened FatVolume

  class Volume {
    const shape: Shape

    var m: Medium
    var cache: seq<nat>
    var cacheSector: int     // negative while the cache names no sector
    var dirty: bool
    var hint: nat

    /** What the table says, the cache included. */
    ghost var table: Table
    /** The medium after every write so far: what a power cut may leave. */
    ghost var history: seq<Medium>

    ghost predicate Valid()
      reads this
    {
      true == (
        && GoodShape(shape) && Fits(shape, m) && AllFit(shape, history)
        && -1 <= cacheSector < shape.tableSectors
        && (cacheSector >= 0 ==> |cache| == PER_SECTOR)
        && |table| == |m.fat|
        && (forall c :: 0 <= c < |table| ==> table[c] == if Cached(c, cacheSector) then cache[c % PER_SECTOR] else m.fat[c])
        && (!dirty ==> table == m.fat))
    }

    constructor (g: Shape, medium: Medium)
      requires GoodShape(g) && Fits(g, medium)
      ensures Valid() && shape == g && m == medium && table == m.fat && !dirty && history == [medium]
    {
      shape, m := g, medium;
      cache, cacheSector, dirty, hint := [], -1, false, FIRST_CLUSTER;
      table, history := medium.fat, [medium];
    }
  }

  ghost predicate AllFit(g: Shape, h: seq<Medium>) {
    forall i {:trigger h[i]} :: 0 <= i < |h| ==> Fits(g, h[i])
  }

  predicate Cached(c: nat, sector: int) { c / PER_SECTOR == sector }

  /** Every medium written since `h0` has the same clusters and records as `m`, and a table that is `ok`. */
  ghost predicate TableWrites(h0: seq<Medium>, h1: seq<Medium>, m: Medium, ok: Table -> bool) {
    && h0 <= h1
    && forall i :: |h0| <= i < |h1| ==> h1[i].dir == m.dir && h1[i].data == m.data && ok(h1[i].fat)
  }

  /** Between two states, only the table moved, and only through tables that are `ok`. */
  twostate predicate TableOnly(v: Volume, ok: Table -> bool)
    reads v
  {
    && v.m.dir == old(v.m.dir) && v.m.data == old(v.m.data)
    && ok(v.m.fat)
    && TableWrites(old(v.history), v.history, v.m, ok)
    && (old(v.m.copy == v.m.fat) ==> v.m.copy == v.m.fat)
  }

  /** The medium's table is what it was, or has caught up with this one. */
  twostate predicate OldOr(v: Volume, t: Table)
    reads v
  {
    v.m.fat == old(v.m.fat) || v.m.fat == t
  }

  /** A sector of a table, replaced. */
  function Splice(f: Table, sector: nat, entries: seq<nat>): (r: Table)
    requires PER_SECTOR * (sector + 1) <= |f| && |entries| == PER_SECTOR
    ensures |r| == |f|
    ensures forall c :: 0 <= c < |f| ==>
      r[c] == if Cached(c, sector) then entries[c % PER_SECTOR] else f[c]
  {
    f[..PER_SECTOR * sector] + entries + f[PER_SECTOR * (sector + 1)..]
  }

  /** The cached sector over the first copy of the table, and then over the other. */
  method WriteBack(v: Volume)
    requires v.Valid() && v.cacheSector >= 0
    modifies v`m, v`dirty, v`history
    ensures v.Valid() && !v.dirty && v.m.fat == v.table
    ensures PER_SECTOR * (v.cacheSector + 1) <= |old(v.m.copy)| && |v.cache| == PER_SECTOR
    ensures v.m == old(v.m).(fat := v.table, copy := Splice(old(v.m.copy), v.cacheSector, v.cache))
    ensures v.history == old(v.history) + [old(v.m).(fat := v.table), v.m]
    ensures old(v.m.copy == v.m.fat) ==> v.m.copy == v.m.fat
  {
    v.m := v.m.(fat := Splice(v.m.fat, v.cacheSector, v.cache));
    assert v.m.fat == v.table;
    v.history := v.history + [v.m];
    v.m := v.m.(copy := Splice(v.m.copy, v.cacheSector, v.cache));
    v.history := v.history + [v.m];
    v.dirty := false;
  }

  /** The cached sector, to every copy of the table, if it has changed. */
  method Flush(v: Volume, ghost ok: Table -> bool)
    requires v.Valid() && ok(v.table)
    modifies v`m, v`dirty, v`history
    ensures v.Valid() && !v.dirty && v.table == v.m.fat
    ensures TableOnly(v, ok) && (!old(v.dirty) ==> v.m == old(v.m) && v.history == old(v.history))
  {
    if !v.dirty { return; }
    if v.cacheSector < 0 {
      v.dirty := false;
      return;
    }
    WriteBack(v);
  }

  method LoadSector(v: Volume, sector: nat, ghost ok: Table -> bool)
    requires v.Valid() && ok(v.m.fat) && ok(v.table) && sector < v.shape.tableSectors
    modifies v`m, v`dirty, v`history, v`cache, v`cacheSector
    ensures v.Valid() && v.cacheSector == sector
    ensures TableOnly(v, ok) && OldOr(v, v.table)
  {
    if v.cacheSector == sector { return; }
    Flush(v, ok);
    v.cache := v.m.fat[PER_SECTOR * sector..PER_SECTOR * (sector + 1)];
    v.cacheSector := sector;
  }

  method Get(v: Volume, cluster: nat, ghost ok: Table -> bool) returns (value: nat)
    requires v.Valid() && ok(v.m.fat) && ok(v.table) && cluster < PER_SECTOR * v.shape.tableSectors
    modifies v`m, v`dirty, v`history, v`cache, v`cacheSector
    ensures v.Valid() && value == v.table[cluster] && Cached(cluster, v.cacheSector)
    ensures TableOnly(v, ok) && OldOr(v, v.table)
  {
    LoadSector(v, cluster / PER_SECTOR, ok);
    value := v.cache[cluster % PER_SECTOR];
  }

  /** An entry changed, in the cache alone: the medium sees it later. */
  method Set(v: Volume, cluster: nat, value: nat, ghost ok: Table -> bool)
    requires v.Valid() && ok(v.m.fat) && ok(v.table) && cluster < |v.table|
    modifies v`m, v`dirty, v`history, v`cache, v`cacheSector, v`table
    ensures v.Valid() && v.table == old(v.table)[cluster := value]
    ensures TableOnly(v, ok) && OldOr(v, old(v.table))
  {
    var before := Get(v, cluster, ok);
    v.cache := v.cache[cluster % PER_SECTOR := value];
    v.table := v.table[cluster := value];
    v.dirty := true;
  }

  // ------------------------------------------------------------------
  // Walking and allocating
  // ------------------------------------------------------------------

  datatype Link = End | To(cluster: nat) | Corrupt

  function LinkOf(g: Shape, value: nat): Link {
    if value >= END_FROM then End else if ValidCluster(g, value) then To(value) else Corrupt
  }

  method Next(v: Volume, cluster: nat, ghost ok: Table -> bool) returns (link: Link)
    requires v.Valid() && ok(v.m.fat) && ok(v.table) && ValidCluster(v.shape, cluster)
    modifies v`m, v`dirty, v`history, v`cache, v`cacheSector
    ensures v.Valid() && cluster < |v.table| && link == LinkOf(v.shape, v.table[cluster])
    ensures TableOnly(v, ok) && OldOr(v, v.table)
  {
    var value := Get(v, cluster, ok);
    link := LinkOf(v.shape, value);
  }

  predicate IsFree(g: Shape, f: Table, c: nat) {
    ValidCluster(g, c) && c < |f| && f[c] == FREE
  }

  ghost predicate NoneFree(g: Shape, f: Table) {
    forall c: nat :: !IsFree(g, f, c)
  }

  /** Every cluster from `lo` up to `hi` is taken. */
  ghost predicate Taken(g: Shape, f: Table, lo: nat, hi: nat) {
    forall c: nat :: lo <= c < hi ==> !IsFree(g, f, c)
  }

  /** Where a search stands: about to look at `grown`, which is `start` or lies behind what it has looked at. */
  ghost predicate Searching(g: Shape, f: Table, start: nat, grown: nat, scanned: nat) {
    true == (
      && scanned <= g.clusters && (g.clusters > 0 ==> FIRST_CLUSTER <= start < g.clusters + FIRST_CLUSTER)
      && (if scanned == 0 then Wrapped(g, grown) == start else Searched(g, f, start, grown, scanned)))
  }

  /** What a search from `start` has looked at after `scanned` clusters, wrapping once. */
  ghost predicate Searched(g: Shape, f: Table, start: nat, candidate: nat, scanned: nat) {
    var total := g.clusters + FIRST_CLUSTER;
    if start + scanned <= total
    then candidate == start + scanned && Taken(g, f, start, candidate)
    else candidate == start + scanned - g.clusters && Taken(g, f, start, total) && Taken(g, f, FIRST_CLUSTER, candidate)
  }

  function Wrapped(g: Shape, candidate: nat): nat {
    if candidate >= g.clusters + FIRST_CLUSTER then FIRST_CLUSTER else candidate
  }

  lemma SearchedMore(g: Shape, f: Table, start: nat, grown: nat, scanned: nat)
    requires Searching(g, f, start, grown, scanned) && scanned < g.clusters && !IsFree(g, f, Wrapped(g, grown))
    ensures Searching(g, f, start, Wrapped(g, grown) + 1, scanned + 1)
  {
  }

  lemma SearchedAll(g: Shape, f: Table, start: nat, grown: nat)
    requires Searching(g, f, start, grown, g.clusters)
    ensures NoneFree(g, f)
  {
  }

  /** A free cluster, marked as the end of a chain; refused only when there is none at all. */
  method Alloc(v: Volume, ghost ok: Table -> bool) returns (found: bool, grown: nat)
    requires v.Valid() && ok(v.m.fat) && ok(v.table)
    modifies v`m, v`dirty, v`history, v`cache, v`cacheSector, v`table, v`hint
    ensures v.Valid() && TableOnly(v, ok) && OldOr(v, old(v.table))
    ensures found ==> IsFree(v.shape, old(v.table), grown) && v.table == old(v.table)[grown := TERMINATOR]
    ensures !found ==> v.table == old(v.table) && NoneFree(v.shape, v.table)
  {
    ghost var was := v.table;
    grown := if v.hint > FIRST_CLUSTER then v.hint else FIRST_CLUSTER;
    ghost var start := Wrapped(v.shape, grown);
    var scanned := 0;
    while scanned < v.shape.clusters
      invariant v.Valid() && TableOnly(v, ok) && v.table == was && OldOr(v, was)
      invariant scanned <= v.shape.clusters && Searching(v.shape, was, start, grown, scanned)
    {
      ghost var seen := grown;
      if grown >= v.shape.clusters + FIRST_CLUSTER { grown := FIRST_CLUSTER; }
      var value := Get(v, grown, ok);
      if value == FREE {
        Set(v, grown, TERMINATOR, ok);
        v.hint := grown + 1;
        return true, grown;
      }
      SearchedMore(v.shape, was, start, seen, scanned);
      grown, scanned := grown + 1, scanned + 1;
    }
    found := false;
    SearchedAll(v.shape, was, start, grown);
  }

  /** A grown cluster behind `last`. Its end-of-chain mark is in the table before the link to it. */
  method Append(v: Volume, last: nat, ghost ok: Table -> bool) returns (found: bool, grown: nat)
    requires v.Valid() && ok(v.m.fat) && ok(v.table) && ValidCluster(v.shape, last)
    requires forall c: nat :: IsFree(v.shape, v.table, c) ==> ok(v.table[c := TERMINATOR])
    modifies v`m, v`dirty, v`history, v`cache, v`cacheSector, v`table, v`hint
    ensures v.Valid() && TableOnly(v, ok)
    ensures found ==> last < |v.table| && IsFree(v.shape, old(v.table), grown)
                      && v.table == old(v.table)[grown := TERMINATOR][last := grown]
                      && (OldOr(v, old(v.table)) || v.m.fat == old(v.table)[grown := TERMINATOR])
    ensures !found ==> v.table == old(v.table) && NoneFree(v.shape, v.table)
  {
    found, grown := Alloc(v, ok);
    if found { Set(v, last, grown, ok); }
  }

  /** `f` with some of the clusters of `cs` given back. */
  ghost predicate PartlyFreed(f: Table, g: Table, cs: seq<nat>) {
    |f| == |g| && forall c :: 0 <= c < |f| ==> f[c] == g[c] || (c in cs && f[c] == FREE)
  }

  ghost predicate Freed(f: Table, g: Table, cs: seq<nat>) {
    |f| == |g| && forall c :: 0 <= c < |f| ==> f[c] == if c in cs then FREE else g[c]
  }

  /** Where a walk goes next. */
  function NextOf(f: Table, first: nat, cs: seq<nat>): nat {
    if cs == [] || cs[|cs| - 1] >= |f| then first else f[cs[|cs| - 1]]
  }

  /** `cs` are the clusters a walk from `first` comes to, until it leaves the volume, ends, or turns back. */
  ghost predicate Walks(g: Shape, f: Table, first: nat, cs: seq<nat>) {
    && Linked(g, f, cs)
    && if cs == [] then !ValidCluster(g, first) else
         var next := f[cs[|cs| - 1]];
         cs[0] == first && (ValidCluster(g, next) ==> next in cs)
  }

  /** On any table there is such a walk. */
  lemma {:induction false} WalkExists(g: Shape, f: Table, first: nat, so: seq<nat>) returns (cs: seq<nat>)
    requires Linked(g, f, so) && |so| <= g.clusters && (so != [] ==> so[0] == first) && GoodShape(g)
    ensures Walks(g, f, first, cs)
    decreases g.clusters - |so|
  {
    var next := if so == [] then first else f[so[|so| - 1]];
    if ValidCluster(g, next) && next !in so {
      ChainFits(g, f, so + [next]);
      cs := WalkExists(g, f, first, so + [next]);
    } else {
      cs := so;
    }
  }

  /** Two ways along the links of one table from one cluster go the same way. */
  lemma {:induction false} SameWay(g: Shape, f: Table, a: seq<nat>, b: seq<nat>, i: nat)
    requires Linked(g, f, a) && Linked(g, f, b) && a != [] && b != [] && a[0] == b[0] && i < |a| && i < |b|
    ensures a[i] == b[i]
  {
    if i > 0 {
      SameWay(g, f, a, b, i - 1);
      LinkedNext(g, f, a, i - 1);
      LinkedNext(g, f, b, i - 1);
    }
  }

  lemma LinkedNext(g: Shape, f: Table, cs: seq<nat>, i: nat)
    requires Linked(g, f, cs) && i < |cs|
    ensures cs[i] < |f| && (i + 1 < |cs| ==> f[cs[i]] == cs[i + 1] && ValidCluster(g, cs[i + 1]) && cs[i + 1] < END_FROM)
    ensures i + 1 < |cs| ==> cs[i + 1] !in cs[..i + 1]
  {
  }

  /** Nothing linked from a walk's first cluster goes on where the walk stops. */
  lemma WalkIsLongest(g: Shape, f: Table, first: nat, walk: seq<nat>, cs: seq<nat>)
    requires Walks(g, f, first, walk) && Linked(g, f, cs) && (cs != [] ==> cs[0] == first)
    ensures |cs| <= |walk| && cs == walk[..|cs|]
  {
    if cs != [] {
      assert ValidCluster(g, cs[0]);
      var n := |walk|;
      if |cs| > n {
        forall i | 0 <= i < n
          ensures cs[i] == walk[i]
        {
          SameWay(g, f, cs, walk, i);
        }
        assert cs[..n] == walk;
        LinkedNext(g, f, cs, n - 1);
      } else {
        forall i | 0 <= i < |cs|
          ensures cs[i] == walk[i]
        {
          SameWay(g, f, cs, walk, i);
        }
      }
    }
  }

  lemma WalkUnique(g: Shape, f: Table, first: nat, a: seq<nat>, b: seq<nat>)
    requires Walks(g, f, first, a) && Walks(g, f, first, b)
    ensures a == b
  {
    WalkIsLongest(g, f, first, a, b);
    WalkIsLongest(g, f, first, b, a);
    assert a[..|a|] == a && b[..|b|] == b;
  }

  /** `guard` clusters of the walk are freed, and `cluster` is where it goes on if it does. */
  ghost predicate Freeing(f: Table, was: Table, first: nat, cs: seq<nat>, guard: nat, more: bool, cluster: nat) {
    true == (
      && Freed(f, was, Take(cs, guard))
      && (if more then guard <= |cs| && cluster == (if guard < |cs| then cs[guard] else NextOf(was, first, cs)) else guard >= |cs|))
  }

  /** The `guard`th cluster of a walk, zeroed behind those before it. */
  lemma FreedMore(f: Table, was: Table, cs: seq<nat>, guard: nat)
    requires guard < |cs| && Freed(f, was, cs[..guard]) && cs[guard] < |f| && Distinct(cs)
    ensures f[cs[guard]] == was[cs[guard]] && Freed(f[cs[guard] := FREE], was, cs[..guard + 1])
  {
    assert cs[..guard + 1] == cs[..guard] + [cs[guard]];
    assert cs[guard] !in cs[..guard];
  }

  lemma FreedIsPartly(f: Table, was: Table, cs: seq<nat>, guard: nat)
    requires Freed(f, was, Take(cs, guard))
    ensures PartlyFreed(f, was, cs)
  {
    if guard <= |cs| { assert cs == cs[..guard] + cs[guard..]; }
  }

  /** Where a walk goes from its `guard`th cluster. */
  lemma WalkOn(g: Shape, f: Table, first: nat, cs: seq<nat>, guard: nat)
    requires Walks(g, f, first, cs) && guard < |cs|
    ensures cs[guard] < |f| && f[cs[guard]] == if guard + 1 < |cs| then cs[guard + 1] else NextOf(f, first, cs)
  {
    if guard + 1 < |cs| { LinkedNext(g, f, cs, guard); }
  }

  /** A walk that comes back to itself has been freed whole. */
  lemma FreedAgain(f: Table, was: Table, cs: seq<nat>, cluster: nat)
    requires Freed(f, was, cs) && cluster in cs && cluster < |f|
    ensures f[cluster := FREE] == f
  {
  }

  /** One more link read and zeroed. */
  lemma FreeingMore(g: Shape, f: Table, was: Table, first: nat, cs: seq<nat>, guard: nat, cluster: nat)
    requires Walks(g, was, first, cs) && Freeing(f, was, first, cs, guard, true, cluster) && ValidCluster(g, cluster)
    ensures cluster < |f| && PartlyFreed(f, was, cs)
    ensures f[cluster] >= END_FROM || f[cluster] < FIRST_CLUSTER ==>
      Freeing(f[cluster := FREE], was, first, cs, guard + 1, false, cluster)
    ensures FIRST_CLUSTER <= f[cluster] < END_FROM ==>
      Freeing(f[cluster := FREE], was, first, cs, guard + 1, true, f[cluster])
  {
    FreedIsPartly(f, was, cs, guard);
    assert cs[..|cs|] == cs;
    if guard < |cs| {
      WalkOn(g, was, first, cs, guard);
      FreedMore(f, was, cs, guard);
    } else {
      FreedAgain(f, was, cs, cluster);
    }
  }

  /** Where the walk goes no further, it is freed. */
  lemma FreedAll(g: Shape, f: Table, was: Table, first: nat, cs: seq<nat>, guard: nat, more: bool, cluster: nat)
    requires Walks(g, was, first, cs) && Freeing(f, was, first, cs, guard, more, cluster) && !(more && ValidCluster(g, cluster))
    ensures Freed(f, was, cs)
  {
    assert cs[..|cs|] == cs;
  }

  /** Where it goes on after as many clusters as there are, it has come round. */
  lemma FreedRound(g: Shape, f: Table, was: Table, first: nat, cs: seq<nat>, guard: nat, cluster: nat)
    requires Walks(g, was, first, cs) && Freeing(f, was, first, cs, guard, true, cluster) && ValidCluster(g, cluster) && guard >= g.clusters
    ensures Freed(f, was, cs) && |cs| == g.clusters && !IsChain(g, was, cs)
  {
    ChainFits(g, was, cs);
    assert cs[..|cs|] == cs;
  }

  /**
   A chain given back, each link read before its entry is zeroed. On any table
   the walk's clusters are freed and no others; the guard stops it only where a
   walk through every cluster of the volume turns back on itself.
   */
  method FreeChain(v: Volume, first: nat, ghost cs: seq<nat>, ghost ok: Table -> bool) returns (corrupt: bool)
    requires v.Valid() && ok(v.m.fat) && Walks(v.shape, v.table, first, cs)
    requires forall f :: PartlyFreed(f, v.table, cs) ==> ok(f)
    modifies v`m, v`dirty, v`history, v`cache, v`cacheSector, v`table
    ensures v.Valid() && TableOnly(v, ok)
    ensures Freed(v.table, old(v.table), cs)
    ensures corrupt ==> |cs| == v.shape.clusters && !IsChain(v.shape, old(v.table), cs)
  {
    ghost var was := v.table;
    ChainFits(v.shape, was, cs);
    var cluster: nat, guard: nat, more := first, 0, true;
    while more && ValidCluster(v.shape, cluster)
      invariant v.Valid() && TableOnly(v, ok)
      invariant Freeing(v.table, was, first, cs, guard, more, cluster)
      decreases more, |cs| - guard
    {
      if guard + 1 > v.shape.clusters {
        FreedRound(v.shape, v.table, was, first, cs, guard, cluster);
        return true;
      }
      more, cluster := FreeNext(v, cluster, was, first, cs, guard, ok);
      guard := guard + 1;
    }
    FreedAll(v.shape, v.table, was, first, cs, guard, more, cluster);
    corrupt := false;
  }

  /** One link read, and its entry zeroed. */
  method FreeNext(v: Volume, cluster: nat, ghost was: Table, ghost first: nat, ghost cs: seq<nat>, ghost guard: nat, ghost ok: Table -> bool)
    returns (more: bool, next: nat)
    requires v.Valid() && ok(v.m.fat) && Walks(v.shape, was, first, cs) && ValidCluster(v.shape, cluster)
    requires Freeing(v.table, was, first, cs, guard, true, cluster) && forall f :: PartlyFreed(f, was, cs) ==> ok(f)
    modifies v`m, v`dirty, v`history, v`cache, v`cacheSector, v`table
    ensures v.Valid() && TableOnly(v, ok)
    ensures Freeing(v.table, was, first, cs, guard + 1, more, next)
  {
    FreeingMore(v.shape, v.table, was, first, cs, guard, cluster);
    next := cluster;
    var following := FreeLink(v, cluster, ok);
    more := !(following >= END_FROM || following < FIRST_CLUSTER);
    if more { next := following; }
  }

  lemma LinkInChain(g: Shape, f: Table, cs: seq<nat>, i: nat)
    requires IsChain(g, f, cs) && i < |cs|
    ensures cs[i] < |f|
    ensures if i + 1 < |cs| then f[cs[i]] == cs[i + 1] && FIRST_CLUSTER <= cs[i + 1] < END_FROM else f[cs[i]] >= END_FROM
  {
  }

  method FreeLink(v: Volume, cluster: nat, ghost ok: Table -> bool) returns (following: nat)
    requires v.Valid() && ok(v.m.fat) && ok(v.table) && ValidCluster(v.shape, cluster)
    modifies v`m, v`dirty, v`history, v`cache, v`cacheSector, v`table
    ensures v.Valid() && TableOnly(v, ok)
    ensures cluster < |v.table| && following == old(v.table)[cluster] && v.table == old(v.table)[cluster := FREE]
  {
    following := Get(v, cluster, ok);
    Set(v, cluster, FREE, ok);
  }

  /** The rest of a chain is a chain. */
  lemma ChainRest(g: Shape, f: Table, cs: seq<nat>, i: nat)
    requires IsChain(g, f, cs) && i < |cs|
    ensures IsChain(g, f, cs[i..]) && Walks(g, f, cs[i], cs[i..])
  {
    var rest := cs[i..];
    forall k | 0 <= k < |rest| - 1
      ensures f[rest[k]] == rest[k + 1]
    {
      LinkInChain(g, f, cs, i + k);
    }
    LinkInChain(g, f, cs, |cs| - 1);
  }

  /** A chain has no more clusters than the volume. */
  lemma ChainFits(g: Shape, f: Table, cs: seq<nat>)
    requires Linked(g, f, cs)
    ensures |cs| <= g.clusters
  {
    DistinctBounded(cs, FIRST_CLUSTER, g.clusters + FIRST_CLUSTER);
  }

  /** A volume of this shape has no room for a file that thirty-two bits could not tell the size of. */
  lemma RecordFits(g: Shape, f: Table, s: Slot, cs: seq<nat>)
    requires GoodShape(g) && SlotSound(g, f, s, cs) && s.Used?
    ensures s.size < 0x1_0000_0000
  {
    ChainFits(g, f, cs);
    TimesGrows(g.clusterSize, |cs|, g.clusters);
    TimesGrows(g.clusters, g.clusterSize, 128 * SECTOR);
  }

  lemma {:induction false} DistinctBounded(cs: seq<nat>, lo: nat, hi: nat)
    requires lo <= hi && Distinct(cs) && forall i :: 0 <= i < |cs| ==> lo <= cs[i] < hi
    ensures |cs| <= hi - lo
  {
    var s := set i | 0 <= i < |cs| :: cs[i];
    SetOfDistinct(cs);
    SetBounded(s, lo, hi);
  }

  lemma {:induction false} SetOfDistinct(cs: seq<nat>)
    requires Distinct(cs)
    ensures |set i | 0 <= i < |cs| :: cs[i]| == |cs|
  {
    if cs != [] {
      var init := cs[..|cs| - 1];
      SetOfDistinct(init);
      var last := cs[|cs| - 1];
      assert (set i | 0 <= i < |cs| :: cs[i]) == (set i | 0 <= i < |init| :: init[i]) + {last};
      assert last !in (set i | 0 <= i < |init| :: init[i]);
    }
  }

  lemma {:induction false} SetBounded(s: set<nat>, lo: nat, hi: nat)
    requires lo <= hi && forall x :: x in s ==> lo <= x < hi
    ensures |s| <= hi - lo
    decreases hi
  {
    if lo == hi {
      assert s == {};
    } else {
      SetBounded(s - {hi - 1}, lo, hi - 1);
    }
  }
}
