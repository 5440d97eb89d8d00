/**
 A call on the record of a file somebody has open, and then that handle closed:
 each such call exactly, told from the volume before it.
 */
module FatCareless {
  import opened ByteFields
  import opened FatVolume
  import opened FatTable
  import opened FatVerdict
  import opened FatChains
  import opened FatWrite
  import opened FatStore
  import opened FatFiles
  import opened FatResize
  import opened FatHandles
  import opened FatTruncate
  import opened FatSession
  import opened FatStale

  /** A record that names a free cluster leads nowhere. */
  lemma NamesFree(g: Shape, m: Medium, slot: nat)
    requires slot < |m.dir| && m.dir[slot].Used? && m.dir[slot].first != 0
    requires m.dir[slot].first < |m.fat| && m.fat[m.dir[slot].first] == FREE
    ensures !SoundMedium(g, m)
  {
    forall any | Sound(g, m.fat, m.dir, any)
      ensures false
    {
      assert SlotSound(g, m.fat, m.dir[slot], any[slot]);
      LinkInChain(g, m.fat, any[slot], 0);
    }
  }

  /** One record changed with its chain leaves a stray handle as it was. */
  lemma StrayBesideRecord(g: Shape, m0: Medium, c0: seq<seq<nat>>, m1: Medium, c1: seq<seq<nat>>, slot: nat, h: Handle, cs: seq<nat>, view: View)
    requires Stray(g, m0, c0, h, cs, view) && DataFits(g, m0.data) && OnlySlot(m0, c0, m1, c1, slot)
    ensures Stray(g, m1, c1, h, cs, view)
  {
    LeavesByRecord(m0, c0, m1, c1, slot, map[]);
    StrayStays(g, m0, c0, map[], m1, c1, map[], h, cs, view);
  }

  /** So does a file moved from one record to another. */
  lemma StrayBesideMove(g: Shape, m0: Medium, c0: seq<seq<nat>>, m1: Medium, c1: seq<seq<nat>>, src: nat, dst: nat, h: Handle, cs: seq<nat>, view: View)
    requires Stray(g, m0, c0, h, cs, view) && DataFits(g, m0.data) && MovedOnly(m0, c0, m1, c1, src, dst)
    ensures Stray(g, m1, c1, h, cs, view)
  {
    LeavesByMove(m0, c0, m1, c1, src, dst, map[]);
    StrayStays(g, m0, c0, map[], m1, c1, map[], h, cs, view);
  }

  /** What a handle holds, if its record leads there, is what the record's chain is. */
  lemma LedThere(g: Shape, m: Medium, chains: seq<seq<nat>>, slot: nat, h: Handle, cs: seq<nat>, view: View)
    requires Hand(g, m, chains, slot, h, cs, view) && m.dir[slot].first != 0
    ensures chains[slot] == cs != [] && h.first == cs[0] == m.dir[slot].first && IsChain(g, m.fat, cs)
    ensures h.first in cs && h.first < |m.fat|
  {
    LinkInChain(g, m.fat, cs, 0);
  }

  /** The record an open handle was opened on. */
  ghost predicate OpenRecord(m: Medium, hands: map<nat, Handle>, slot: nat) {
    slot in hands && slot < |m.dir| && m.dir[slot].Used?
  }

  // ------------------------------------------------------------------
  // The handle closed
  // ------------------------------------------------------------------

  /** The record at `slot` could say what this handle does, by this chain and with these contents. */
  ghost predicate SaysBy(g: Shape, m: Medium, chains: seq<seq<nat>>, slot: nat, h: Handle, own: seq<nat>, contents: seq<byte>) {
    true == (
      && SlotSound(g, m.fat, Used("", h.first, h.size), own) && Take(Bytes(m.data, own), h.size) == contents
      && forall k {:trigger chains[k]} :: 0 <= k < |chains| && k != slot ==> Apart(chains[k], own))
  }

  /** What a handle's word for the record at its place is worth: these contents, or, if `led` astray, nothing sound. */
  ghost predicate Worth(g: Shape, m: Medium, chains: seq<seq<nat>>, slot: nat, h: Handle, contents: seq<byte>, led: bool) {
    slot < |m.dir| && m.dir[slot].Used? ==>
      if led then !SoundMedium(g, m.(dir := Committed(m.dir, slot, h.first, h.size)))
      else exists own :: SaysBy(g, m, chains, slot, h, own, contents)
  }

  lemma StrayWorth(g: Shape, m: Medium, chains: seq<seq<nat>>, slot: nat, h: Handle, cs: seq<nat>, view: View)
    requires Stray(g, m, chains, h, cs, view)
    ensures Worth(g, m, chains, slot, h, view.contents, false)
  {
    StrayChain(g, m, chains, h, cs, view, "");
    assert SaysBy(g, m, chains, slot, h, cs, view.contents);
  }

  /** Sound if and only if the handle was not led astray; and then this file has these contents. */
  ghost predicate ClosedOver(g: Shape, m: Medium, files: seq<File>, slot: nat, name: string, led: bool, contents: seq<byte>) {
    true == (
      && (SoundMedium(g, m) <==> !led)
      && (!led ==> slot < |files| && Whole(g, m, files[slot := File(name, contents)])))
  }

  /** Whatever was there before is written over. */
  lemma OverAgain(g: Shape, m: Medium, files: seq<File>, slot: nat, file: File, name: string, led: bool, contents: seq<byte>)
    requires slot < |files|
    ensures ClosedOver(g, m, files[slot := file], slot, name, led, contents) ==> ClosedOver(g, m, files, slot, name, led, contents)
  {
    assert files[slot := file][slot := File(name, contents)] == files[slot := File(name, contents)];
  }

  lemma ClosedOverNow(g: Shape, m: Medium, chains: seq<seq<nat>>, files: seq<File>, slot: nat, h: Handle, contents: seq<byte>, led: bool, m1: Medium)
    requires Holds(g, m.fat, m.dir, m.data, files, chains) && Worth(g, m, chains, slot, h, contents, led)
    requires slot < |m.dir| && m.dir[slot].Used? && m1 == m.(dir := Committed(m.dir, slot, h.first, h.size))
    ensures ClosedOver(g, m1, files, slot, m.dir[slot].name, led, contents)
  {
    if !led {
      var own :| SaysBy(g, m, chains, slot, h, own, contents);
      HoldsWith(g, m.fat, m.dir, m.data, files, chains, slot, Used(m.dir[slot].name, h.first, h.size), own);
      assert Sound(g, m1.fat, m1.dir, chains[slot := own]);
    }
  }

  /** A handle closed, whatever its record is by now. */
  method CloseOver(v: Volume, slot: nat, h: Handle, ghost chains: seq<seq<nat>>, ghost files: seq<File>, ghost contents: seq<byte>, ghost led: bool)
    requires Rest(v, chains, files) && slot < |v.m.dir| && Worth(v.shape, v.m, chains, slot, h, contents, led)
    modifies v`m, v`history
    ensures slot < |files| && old(v.history) <= v.history
    ensures h.dirty && files[slot].File? ==> ClosedOver(v.shape, v.m, files, slot, files[slot].name, led, contents)
    ensures !h.dirty || files[slot] == NoFile ==> Whole(v.shape, v.m, files)
  {
    FilesOfRecords(v, chains, files);
    RestIsWhole(v, chains, files);
    if h.dirty {
      ghost var m := v.m;
      WriteRecord(v, slot, h);
      if m.dir[slot].Used? { ClosedOverNow(v.shape, m, chains, files, slot, h, contents, led, v.m); }
    }
  }

  lemma RestIsWhole(v: Volume, chains: seq<seq<nat>>, files: seq<File>)
    requires Rest(v, chains, files)
    ensures Whole(v.shape, v.m, files) && DataFits(v.shape, v.m.data)
  {
  }

  // ------------------------------------------------------------------
  // Deleted, and its record given to a new file
  // ------------------------------------------------------------------

  lemma RemovedWorth(g: Shape, m0: Medium, c0: seq<seq<nat>>, slot: nat, h: Handle, cs: seq<nat>, view: View, m1: Medium, c1: seq<seq<nat>>,
                     at: nat, m2: Medium)
    requires Hand(g, m0, c0, slot, h, cs, view) && DataFits(g, m0.data) && DataFits(g, m1.data)
    requires OnlySlot(m0, c0, m1, c1, slot) && Freed(m1.fat, m0.fat, c0[slot])
    requires OnlySlot(m1, c1, m2, c1, at) && m2.fat == m1.fat
    ensures Worth(g, m2, c1, slot, h, view.contents, m0.dir[slot].first != 0)
  {
    if m0.dir[slot].first == 0 {
      LedNowhere(g, m0, c0, slot, h, cs, view);
      StrayBesideRecord(g, m0, c0, m1, c1, slot, h, cs, view);
      StrayBesideRecord(g, m1, c1, m2, c1, at, h, cs, view);
      StrayWorth(g, m2, c1, slot, h, cs, view);
    } else if m2.dir[slot].Used? {
      LedThere(g, m0, c0, slot, h, cs, view);
      NamesFree(g, m2.(dir := Committed(m2.dir, slot, h.first, h.size)), slot);
    }
  }

  /** With a record just given up, a new file is refused for its name only. */
  lemma VacancyMakes(files: seq<File>, slot: nat, name: string, one: seq<File>)
    requires slot < |files| && one == files[slot := NoFile]
    ensures (forall k :: 0 <= k < |files| ==> !Called(one[k], name)) && (exists k :: 0 <= k < |files| && one[k] == NoFile)
            <==> forall k :: 0 <= k < |files| && k != slot ==> !Called(files[k], name)
  {
    assert one[slot] == NoFile && forall k :: 0 <= k < |files| && k != slot ==> one[k] == files[k];
    if forall k :: 0 <= k < |files| ==> !Called(one[k], name) {
      forall k | 0 <= k < |files| && k != slot
        ensures !Called(files[k], name)
      {
        assert !Called(one[k], name);
      }
    }
  }

  /** A file deleted while somebody has it open, and a new one made. */
  method RemoveAndCreate(v: Volume, slot: nat, name: string, ghost h: Handle, ghost cs: seq<nat>, ghost view: View,
                         ghost chains: seq<seq<nat>>, ghost files: seq<File>)
    returns (made: bool, at: nat, ghost fewer: seq<seq<nat>>, ghost after: seq<File>)
    requires Rest(v, chains, files) && Hand(v.shape, v.m, chains, slot, h, cs, view) && slot < |files| && files[slot].File?
    modifies v`m, v`dirty, v`history, v`cache, v`cacheSector, v`table
    ensures (made ==> at < |files|) && old(v.history) <= v.history
    ensures after == if made then files[slot := NoFile][at := File(name, [])] else files[slot := NoFile]
    ensures made <==> forall k :: 0 <= k < |files| && k != slot ==> !Called(files[k], name)
    ensures made ==> FirstVacant(files[slot := NoFile], at)
    ensures Rest(v, fewer, after) && after[slot] == if made && at == slot then File(name, []) else NoFile
    ensures slot < |old(v.m.dir)| && old(v.m.dir)[slot].Used? && |v.m.dir| == |files|
    ensures Worth(v.shape, v.m, fewer, slot, h, view.contents, old(v.m.dir)[slot].first != 0)
  {
    FilesOfRecords(v, chains, files);
    ghost var m0 := v.m;
    fewer := Remove(v, slot, chains, files);
    RestIsWhole(v, fewer, files[slot := NoFile]);
    ghost var m1 := v.m;
    made, at := Create(v, name, fewer, files[slot := NoFile]);
    VacancyMakes(files, slot, name, files[slot := NoFile]);
    after := if made then files[slot := NoFile][at := File(name, [])] else files[slot := NoFile];
    RemovedWorth(v.shape, m0, chains, slot, h, cs, view, m1, fewer, if made then at else slot, v.m);
  }

  /**
   A file deleted while open, a new one made, and the handle closed. Where the new
   file got the old one's record, the volume is sound if and only if that record
   had no clusters; the new name then shows what the old handle read.
   */
  method RemovedUnder(v: Volume, hands: map<nat, Handle>, slot: nat, name: string, ghost d: Desk, ghost chains: seq<seq<nat>>,
                      ghost held: map<nat, seq<nat>>)
    returns (made: bool, at: nat, ghost after: seq<File>)
    requires Desked(v, hands, d, chains, held) && slot in hands
    modifies v`m, v`dirty, v`history, v`cache, v`cacheSector, v`table
    ensures OpenRecord(old(v.m), hands, slot) && slot in d.open && slot < |d.files| && (made ==> at < |d.files|) && old(v.history) <= v.history
    ensures made <==> forall k :: 0 <= k < |d.files| && k != slot ==> !Called(d.files[k], name)
    ensures made ==> FirstVacant(d.files[slot := NoFile], at)
    ensures after == if made then d.files[slot := NoFile][at := File(name, [])] else d.files[slot := NoFile]
    ensures made && at == slot && hands[slot].dirty ==>
      ClosedOver(v.shape, v.m, after, slot, name, old(v.m.dir)[slot].first != 0, d.open[slot].contents)
    ensures !(made && at == slot && hands[slot].dirty) ==> Whole(v.shape, v.m, after)
  {
    HandHeld(v, hands, slot, d, chains, held);
    ghost var fewer;
    made, at, fewer, after := RemoveAndCreate(v, slot, name, hands[slot], held[slot], d.open[slot], chains, d.files);
    CloseOver(v, slot, hands[slot], fewer, after, d.open[slot].contents, old(v.m.dir)[slot].first != 0);
  }

  /** What a desk says of one handle. */
  lemma HandHeld(v: Volume, hands: map<nat, Handle>, slot: nat, d: Desk, chains: seq<seq<nat>>, held: map<nat, seq<nat>>)
    requires Desked(v, hands, d, chains, held) && slot in hands
    ensures OpenRecord(v.m, hands, slot) && slot in held && slot in d.open && slot < |d.files| && d.files[slot].File?
    ensures Hand(v.shape, v.m, chains, slot, hands[slot], held[slot], d.open[slot]) && d.open[slot].dirty == hands[slot].dirty
    ensures Rest(v, chains, d.files)
  {
    assert Hand(v.shape, v.m, chains, slot, hands[slot], held[slot], d.open[slot]);
    assert FileOf(v.m.dir[slot], v.m.data, chains[slot]) == d.files[slot];
  }

  // ------------------------------------------------------------------
  // Replaced by another
  // ------------------------------------------------------------------

  lemma ReplacedWorth(g: Shape, m0: Medium, c0: seq<seq<nat>>, dst: nat, h: Handle, cs: seq<nat>, view: View, m1: Medium, c1: seq<seq<nat>>, src: nat)
    requires Hand(g, m0, c0, dst, h, cs, view) && DataFits(g, m0.data) && MovedOnly(m0, c0, m1, c1, src, dst)
    requires forall c {:trigger m1.fat[c]} :: 0 <= c < |m1.fat| && c in c0[dst] ==> m1.fat[c] == FREE
    ensures Worth(g, m1, c1, dst, h, view.contents, m0.dir[dst].first != 0)
  {
    if m0.dir[dst].first == 0 {
      LedNowhere(g, m0, c0, dst, h, cs, view);
      StrayBesideMove(g, m0, c0, m1, c1, src, dst, h, cs, view);
      StrayWorth(g, m1, c1, dst, h, cs, view);
    } else if m1.dir[dst].Used? {
      LedThere(g, m0, c0, dst, h, cs, view);
      NamesFree(g, m1.(dir := Committed(m1.dir, dst, h.first, h.size)), dst);
    }
  }

  /** The file at `src`, moved to a name that means the one at `dst`. */
  function MovedFiles(files: seq<File>, src: nat, name: string, dst: nat): seq<File>
    requires IsFile(files, src) && dst < |files|
  {
    files[dst := File(name, files[src].contents)][src := NoFile]
  }

  /** A name goes to one file only. */
  lemma OneTarget(files: seq<File>, name: string, a: nat, b: nat)
    requires a < |files| && b < |files| && Target(files, name, a) && Target(files, name, b) && Called(files[a], name)
    ensures a == b
  {
  }

  /**
   A file replaced by another while open, and its handle closed. The volume is
   sound if and only if the replaced record had no clusters; the name then
   shows what the old handle read, and not what was moved there.
   */
  method ReplacedUnder(v: Volume, hands: map<nat, Handle>, src: nat, name: string, dst: nat, ghost d: Desk, ghost chains: seq<seq<nat>>,
                       ghost held: map<nat, seq<nat>>)
    requires Desked(v, hands, d, chains, held) && dst in hands && IsFile(d.files, src) && src != dst
    requires dst < |d.files| && Called(d.files[dst], name) && Target(d.files, name, dst)
    modifies v`m, v`dirty, v`history, v`cache, v`cacheSector, v`table
    ensures OpenRecord(old(v.m), hands, dst) && dst in d.open
    ensures hands[dst].dirty ==>
      ClosedOver(v.shape, v.m, MovedFiles(d.files, src, name, dst), dst, name, old(v.m.dir)[dst].first != 0, d.open[dst].contents)
    ensures !hands[dst].dirty ==> Whole(v.shape, v.m, MovedFiles(d.files, src, name, dst))
  {
    HandHeld(v, hands, dst, d, chains, held);
    ghost var m0 := v.m;
    var ok, at;
    ghost var moved, cut;
    ok, at, moved, cut := Rename(v, src, name, chains, d.files);
    OneTarget(d.files, name, dst, at);
    ReplacedWorth(v.shape, m0, chains, dst, hands[dst], held[dst], d.open[dst], v.m, moved, src);
    CloseOver(v, dst, hands[dst], moved, MovedFiles(d.files, src, name, dst), d.open[dst].contents, m0.dir[dst].first != 0);
  }

  // ------------------------------------------------------------------
  // Moved away, and its old record given to a new file
  // ------------------------------------------------------------------

  lemma MovedWorth(g: Shape, m0: Medium, c0: seq<seq<nat>>, src: nat, h: Handle, cs: seq<nat>, view: View, m1: Medium, c1: seq<seq<nat>>, dst: nat,
                   at: nat, m2: Medium)
    requires Hand(g, m0, c0, src, h, cs, view) && DataFits(g, m0.data) && DataFits(g, m1.data)
    requires MovedOnly(m0, c0, m1, c1, src, dst) && src != dst && Sound(g, m1.fat, m1.dir, c1)
    requires OnlySlot(m1, c1, m2, c1, at) && m2.fat == m1.fat && (m2 == m1 || m1.dir[at].Vacant?)
    ensures Worth(g, m2, c1, src, h, view.contents, m0.dir[src].first != 0)
  {
    if m0.dir[src].first == 0 {
      LedNowhere(g, m0, c0, src, h, cs, view);
      StrayBesideMove(g, m0, c0, m1, c1, src, dst, h, cs, view);
      StrayBesideRecord(g, m1, c1, m2, c1, at, h, cs, view);
      StrayWorth(g, m2, c1, src, h, cs, view);
    } else if m2.dir[src].Used? {
      LedThere(g, m0, c0, src, h, cs, view);
      assert SlotSound(g, m1.fat, m1.dir[dst], c1[dst]);
      NamesTaken(g, m2.(dir := Committed(m2.dir, src, h.first, h.size)), src, dst);
    }
  }

  /** Two records that name one cluster are not both sound. */
  lemma NamesTaken(g: Shape, m: Medium, a: nat, b: nat)
    requires a < |m.dir| && b < |m.dir| && a != b && m.dir[a].Used? && m.dir[b].Used? && m.dir[a].first == m.dir[b].first != 0
    ensures !SoundMedium(g, m)
  {
    forall any | Sound(g, m.fat, m.dir, any)
      ensures false
    {
      SharedIsEmpty(g, m.fat, m.dir, any, a, b);
    }
  }

  /** The files after that, and then perhaps another made. */
  function MovedThen(files: seq<File>, src: nat, name: string, dst: nat, made: bool, at: nat, other: string): (r: seq<File>)
    requires IsFile(files, src) && dst < |files| && (made ==> at < |files|)
    ensures |r| == |files|
  {
    var moved := MovedFiles(files, src, name, dst);
    if made then moved[at := File(other, [])] else moved
  }

  /** A file moved while somebody has it open, and a new one made. */
  method MoveAndCreate(v: Volume, src: nat, name: string, other: string, ghost h: Handle, ghost cs: seq<nat>, ghost view: View,
                       ghost chains: seq<seq<nat>>, ghost files: seq<File>)
    returns (ok: bool, dst: nat, made: bool, at: nat, ghost moved: seq<seq<nat>>, ghost after: seq<File>)
    requires Rest(v, chains, files) && Hand(v.shape, v.m, chains, src, h, cs, view) && IsFile(files, src)
    modifies v`m, v`dirty, v`history, v`cache, v`cacheSector, v`table
    ensures (ok ==> dst < |files|) && (made ==> ok && dst != src && at < |files|) && src < |old(v.m.dir)| && old(v.m.dir)[src].Used?
    ensures ok && dst != src ==> after == MovedThen(files, src, name, dst, made, at, other)
    ensures made ==> FirstVacant(MovedFiles(files, src, name, dst), at)
    ensures ok && dst != src ==>
      && Rest(v, moved, after) && |v.m.dir| == |files| == |after|
      && after[src] == (if made && at == src then File(other, []) else NoFile)
      && Worth(v.shape, v.m, moved, src, h, view.contents, old(v.m.dir)[src].first != 0)
  {
    FilesOfRecords(v, chains, files);
    ghost var m0, cut := v.m, 0;
    ok, dst, moved, cut := Rename(v, src, name, chains, files);
    made, at, after := false, 0, files;
    if ok && dst != src {
      after := MovedFiles(files, src, name, dst);
      ghost var m1 := v.m;
      RestIsWhole(v, moved, after);
      made, at := Create(v, other, moved, after);
      MovedWorth(v.shape, m0, chains, src, h, cs, view, m1, moved, dst, if made then at else src, v.m);
      if made { after := after[at := File(other, [])]; }
    }
  }

  /**
   A file moved while open, a new one made, and the handle closed. Where the new
   file got the old record, the volume is sound if and only if the file had no
   clusters; the new name then shows what the handle read, and the moved one nothing.
   */
  method MovedUnder(v: Volume, hands: map<nat, Handle>, src: nat, name: string, other: string, ghost d: Desk, ghost chains: seq<seq<nat>>,
                    ghost held: map<nat, seq<nat>>)
    returns (ok: bool, dst: nat, made: bool, at: nat, ghost after: seq<File>)
    requires Desked(v, hands, d, chains, held) && src in hands
    modifies v`m, v`dirty, v`history, v`cache, v`cacheSector, v`table
    ensures OpenRecord(old(v.m), hands, src) && src in d.open && IsFile(d.files, src)
    ensures (ok ==> dst < |d.files|) && (made ==> ok && dst != src && at < |d.files|)
    ensures ok && dst != src ==> after == MovedThen(d.files, src, name, dst, made, at, other)
    ensures made ==> FirstVacant(MovedFiles(d.files, src, name, dst), at)
    ensures made && at == src && hands[src].dirty ==>
      ClosedOver(v.shape, v.m, after, src, other, old(v.m.dir)[src].first != 0, d.open[src].contents)
    ensures ok && dst != src && !(made && at == src && hands[src].dirty) ==> Whole(v.shape, v.m, after)
  {
    HandHeld(v, hands, src, d, chains, held);
    ghost var moved, led := chains, v.m.dir[src].first != 0;
    ok, dst, made, at, moved, after := MoveAndCreate(v, src, name, other, hands[src], held[src], d.open[src], chains, d.files);
    if ok && dst != src {
      CloseOver(v, src, hands[src], moved, after, d.open[src].contents, led);
    }
  }

  // ------------------------------------------------------------------
  // Cut short by another opener
  // ------------------------------------------------------------------

  /** Two whole chains from one cluster are one. */
  lemma ChainUnique(g: Shape, f: Table, a: seq<nat>, b: seq<nat>)
    requires IsChain(g, f, a) && IsChain(g, f, b) && a != [] && b != [] && a[0] == b[0]
    ensures a == b
  {
    LinkInChain(g, f, a, |a| - 1);
    LinkInChain(g, f, b, |b| - 1);
    WalkUnique(g, f, a[0], a, b);
  }

  /** What is left of a chain reaches a size or does not. */
  lemma KeptCount(g: Shape, f: Table, c0: seq<nat>, c1: seq<nat>, size: nat)
    requires GoodShape(g) && CutDown(g, f, c0, c1, size)
    ensures |c1| == ClustersFor(size, g.clusterSize)
  {
    ClustersForUnique(size, g.clusterSize, |c1|);
  }

  lemma FrontBytes(g: Shape, data: Clusters, own: seq<nat>, cs: seq<nat>, size: nat)
    requires DataFits(g, data) && own <= cs && (forall i :: 0 <= i < |own| ==> own[i] < |data|) && size <= g.clusterSize * |own|
    ensures Take(Bytes(data, own), size) == Take(Bytes(data, cs), size)
  {
    assert cs == own + cs[|own|..];
    BytesConcat(data, own, cs[|own|..]);
    BytesLength(g, data, own);
  }

  /** The chain a handle was led to, cut by another: its word is good as long as what is left reaches. */
  lemma CutWorth(g: Shape, m0: Medium, c0: seq<seq<nat>>, slot: nat, h: Handle, cs: seq<nat>, view: View, m1: Medium, c1: seq<seq<nat>>, size: nat)
    requires Hand(g, m0, c0, slot, h, cs, view) && m0.dir[slot].first != 0 && 0 < size && slot < |c1| && GoodShape(g) && DataFits(g, m1.data)
    requires CutDown(g, m1.fat, cs, c1[slot], size) && m1.data == m0.data
    requires Sound(g, m1.fat, m1.dir, c1) && m1.dir[slot].Used?
    ensures Worth(g, m1, c1, slot, h, view.contents, h.size > g.clusterSize * ClustersFor(size, g.clusterSize))
  {
    var own := c1[slot];
    LedThere(g, m0, c0, slot, h, cs, view);
    KeptCount(g, m1.fat, cs, own, size);
    ChainOf(g, m1.fat, m1.dir, c1, slot);
    if h.size <= g.clusterSize * |own| {
      FrontBytes(g, m1.data, own, cs, h.size);
      forall k | 0 <= k < |c1| && k != slot
        ensures Apart(c1[k], own)
      {
      }
      assert SaysBy(g, m1, c1, slot, h, own, view.contents);
    } else {
      ClaimsTooMuch(g, m1.(dir := Committed(m1.dir, slot, h.first, h.size)), slot, own);
    }
  }

  lemma ClaimsTooMuch(g: Shape, m: Medium, slot: nat, own: seq<nat>)
    requires slot < |m.dir| && m.dir[slot].Used? && IsChain(g, m.fat, own) && own != [] && m.dir[slot].first == own[0] >= FIRST_CLUSTER
    requires m.dir[slot].size > g.clusterSize * |own|
    ensures !SoundMedium(g, m)
  {
    forall any | Sound(g, m.fat, m.dir, any)
      ensures false
    {
      ChainOf(g, m.fat, m.dir, any, slot);
      ChainUnique(g, m.fat, own, any[slot]);
    }
  }

  /** Whether a handle was led to clusters that a cut by another takes away. */
  predicate LedPast(g: Shape, s: Slot, h: Handle, size: nat)
    requires s.Used? && g.clusterSize > 0
  {
    s.first != 0 && (size == 0 || h.size > g.clusterSize * ClustersFor(size, g.clusterSize))
  }

  lemma EmptiedWorth(g: Shape, m0: Medium, c0: seq<seq<nat>>, slot: nat, h: Handle, cs: seq<nat>, view: View, m1: Medium, c1: seq<seq<nat>>)
    requires Hand(g, m0, c0, slot, h, cs, view) && m0.dir[slot].first != 0 && Freed(m1.fat, m0.fat, c0[slot])
    ensures Worth(g, m1, c1, slot, h, view.contents, true)
  {
    LedThere(g, m0, c0, slot, h, cs, view);
    if slot < |m1.dir| && m1.dir[slot].Used? { NamesFree(g, m1.(dir := Committed(m1.dir, slot, h.first, h.size)), slot); }
  }

  /** A handle's word after another opener of its file has cut it. */
  lemma OtherCutWorth(g: Shape, m0: Medium, c0: seq<seq<nat>>, held0: map<nat, seq<nat>>, slot: nat, h: Handle, cs: seq<nat>, view: View,
                      m1: Medium, c1: seq<seq<nat>>, held1: map<nat, seq<nat>>, size: nat)
    requires Hand(g, m0, c0, slot, h, cs, view) && DataFits(g, m0.data) && DataFits(g, m1.data) && GoodShape(g)
    requires LeavesBe(m0, c0, held0, m1, c1, held1) && Sound(g, m1.fat, m1.dir, c1) && m1.dir[slot].Used?
    requires m0.dir[slot].first == 0 ==> forall k {:trigger held0[k]} :: k in held0 ==> Apart(cs, held0[k])
    requires if size == 0 then Freed(m1.fat, m0.fat, c0[slot]) else CutDown(g, m1.fat, c0[slot], c1[slot], size) && m1.data == m0.data
    ensures Worth(g, m1, c1, slot, h, view.contents, LedPast(g, m0.dir[slot], h, size))
  {
    if m0.dir[slot].first == 0 {
      LedNowhere(g, m0, c0, slot, h, cs, view);
      StrayStays(g, m0, c0, held0, m1, c1, held1, h, cs, view);
      StrayWorth(g, m1, c1, slot, h, cs, view);
    } else if size == 0 {
      EmptiedWorth(g, m0, c0, slot, h, cs, view, m1, c1);
    } else {
      LedThere(g, m0, c0, slot, h, cs, view);
      CutWorth(g, m0, c0, slot, h, cs, view, m1, c1, size);
    }
  }

  /** A handle set aside holds nothing that one just opened does. */
  lemma OpenedAgain(v: Volume, hands: map<nat, Handle>, slot: nat, d: Desk, chains: seq<seq<nat>>, held: map<nat, seq<nat>>)
    requires Desked(v, hands, d, chains, held) && slot in hands
    ensures slot < |v.m.dir| && v.m.dir[slot].Used? && slot in held && slot < |chains|
    ensures v.m.dir[slot].first == 0 ==>
      forall k {:trigger (held - {slot})[slot := chains[slot]][k]} :: k in (held - {slot})[slot := chains[slot]] ==>
        Apart(held[slot], (held - {slot})[slot := chains[slot]][k])
  {
    SetAside(v, hands, slot, d, chains, held);
    assert Hand(v.shape, v.m, chains, slot, hands[slot], held[slot], d.open[slot]);
  }

  /** The file opened once more, by somebody who does not know of the first handle. */
  method OpenAgain(v: Volume, hands: map<nat, Handle>, slot: nat, ghost d: Desk, ghost chains: seq<seq<nat>>, ghost held: map<nat, seq<nat>>)
    returns (now: map<nat, Handle>, ghost d1: Desk, ghost held1: map<nat, seq<nat>>)
    requires Desked(v, hands, d, chains, held) && slot in hands
    ensures OpenRecord(v.m, hands, slot) && slot < |d.files| && slot < |chains| && slot in held
    ensures slot in now && now[slot] == Opening(v.m.dir[slot]) && Desked(v, now, d1, chains, held1)
    ensures d1.files == d.files && d.files[slot].File? && slot in d1.open && d1.open[slot] == View(d.files[slot].contents, false)
    ensures slot in held1 && held1[slot] == chains[slot]
    ensures v.m.dir[slot].first == 0 ==> forall k {:trigger held1[k]} :: k in held1 ==> Apart(held[slot], held1[k])
  {
    HandHeld(v, hands, slot, d, chains, held);
    SetAside(v, hands, slot, d, chains, held);
    OpenedAgain(v, hands, slot, d, chains, held);
    ghost var d0 := Desk(d.files, d.open - {slot});
    now, held1 := OpenFile(v, hands - {slot}, slot, d0, chains, held - {slot});
    d1 := Opens(d0, slot);
  }

  /** A file cut short through a second handle. */
  method CutByOther(v: Volume, hands: map<nat, Handle>, slot: nat, size: nat, ghost d: Desk, ghost chains: seq<seq<nat>>, ghost held: map<nat, seq<nat>>)
    returns (ghost kept: seq<seq<nat>>)
    requires Desked(v, hands, d, chains, held) && slot in hands && IsFile(d.files, slot) && size <= |d.files[slot].contents|
    modifies v`m, v`dirty, v`history, v`cache, v`cacheSector, v`table
    ensures OpenRecord(old(v.m), hands, slot) && slot in d.open
    ensures Rest(v, kept, d.files[slot := File(d.files[slot].name, d.files[slot].contents[..size])])
    ensures Worth(v.shape, v.m, kept, slot, hands[slot], d.open[slot].contents, LedPast(v.shape, old(v.m.dir)[slot], hands[slot], size))
  {
    HandHeld(v, hands, slot, d, chains, held);
    ghost var m0, d1, held1 := v.m, d, held;
    var now;
    now, d1, held1 := OpenAgain(v, hands, slot, d, chains, held);
    SizeRead(v, now, d1, chains, held1, slot);
    if size == 0 {
      now, kept := EmptyOpen(v, now, slot, d1, chains, held1);
    } else {
      now, kept := CutOpen(v, now, slot, size, d1, chains, held1);
    }
    DeskSound(v, now, Resized(d1, slot, d1.open[slot].contents[..size]), kept, held1[slot := kept[slot]], slot);
    OtherCutWorth(v.shape, m0, chains, held1, slot, hands[slot], held[slot], d.open[slot], v.m, kept, held1[slot := kept[slot]], size);
  }

  lemma SizeRead(v: Volume, hands: map<nat, Handle>, d: Desk, chains: seq<seq<nat>>, held: map<nat, seq<nat>>, slot: nat)
    requires Desked(v, hands, d, chains, held) && slot in hands
    ensures slot in d.open && hands[slot].size == |d.open[slot].contents| && DataFits(v.shape, v.m.data) && GoodShape(v.shape)
  {
    HandSize(v, hands, d, chains, held, slot);
  }

  lemma DeskSound(v: Volume, hands: map<nat, Handle>, d: Desk, chains: seq<seq<nat>>, held: map<nat, seq<nat>>, slot: nat)
    requires Desked(v, hands, d, chains, held) && slot < |d.files| && d.files[slot].File?
    ensures Rest(v, chains, d.files) && Sound(v.shape, v.m.fat, v.m.dir, chains) && slot < |v.m.dir| && v.m.dir[slot].Used?
    ensures DataFits(v.shape, v.m.data)
  {
    FilesOfRecords(v, chains, d.files);
  }

  /**
   A file cut to `size` through a second handle, and the first closed. The volume
   is sound if and only if the file had no clusters, or what the cut leaves of
   them reaches as far as the first handle; the cut is then undone.
   */
  method CutUnder(v: Volume, hands: map<nat, Handle>, slot: nat, size: nat, ghost d: Desk, ghost chains: seq<seq<nat>>, ghost held: map<nat, seq<nat>>)
    requires Desked(v, hands, d, chains, held) && slot in hands && IsFile(d.files, slot) && size <= |d.files[slot].contents|
    modifies v`m, v`dirty, v`history, v`cache, v`cacheSector, v`table
    ensures OpenRecord(old(v.m), hands, slot) && slot in d.open
    ensures hands[slot].dirty ==>
      ClosedOver(v.shape, v.m, d.files, slot, d.files[slot].name, LedPast(v.shape, old(v.m.dir)[slot], hands[slot], size), d.open[slot].contents)
    ensures !hands[slot].dirty ==> Whole(v.shape, v.m, d.files[slot := File(d.files[slot].name, d.files[slot].contents[..size])])
  {
    HandHeld(v, hands, slot, d, chains, held);
    ghost var led := LedPast(v.shape, v.m.dir[slot], hands[slot], size);
    ghost var kept := CutByOther(v, hands, slot, size, d, chains, held);
    ghost var after := d.files[slot := File(d.files[slot].name, d.files[slot].contents[..size])];
    CloseOver(v, slot, hands[slot], kept, after, d.open[slot].contents, led);
    OverAgain(v.shape, v.m, d.files, slot, after[slot], d.files[slot].name, led, d.open[slot].contents);
  }

  // ------------------------------------------------------------------
  // Made longer by another opener
  // ------------------------------------------------------------------

  /** What a record shows as far as a handle's size, once another opener has made the file longer: what it read, but for zeros from the record's end on. */
  ghost predicate ShownLonger(first: nat, end: nat, size: nat, ok: bool, view: View, shown: seq<byte>) {
    true == (
      && |shown| == |view.contents|
      && if first == 0 then shown == view.contents
         else exists k: nat :: end + k <= size && (ok ==> end + k == size) && Overlaid(view.contents, shown, |shown|, end, Zeros(k)))
  }

  lemma GrownChain(g: Shape, m0: Medium, c0: seq<seq<nat>>, slot: nat, h: Handle, cs: seq<nat>, view: View,
                   m1: Medium, c1: seq<seq<nat>>, longer: seq<nat>)
    requires Hand(g, m0, c0, slot, h, cs, view) && m0.dir[slot].first != 0 && GoodShape(g) && DataFits(g, m1.data) && DataFits(g, m0.data)
    requires Sound(g, m1.fat, m1.dir, c1) && |m1.dir| == |m0.dir| && m1.dir[slot].Used? && cs <= longer
    requires m1.dir[slot].first != 0 ==> c1[slot] == longer
    requires m1.dir[slot].size > 0 || m1.dir[slot] == m0.dir[slot]
    ensures SaysBy(g, m1, c1, slot, h, c1[slot], Take(Bytes(m1.data, c1[slot]), h.size))
    ensures h.size == |view.contents| <= |Bytes(m1.data, c1[slot])|
  {
    LedThere(g, m0, c0, slot, h, cs, view);
    HandBytes(g, m0, c0, slot, h, cs, view);
    ChainOf(g, m1.fat, m1.dir, c1, slot);
    BytesLength(g, m1.data, c1[slot]);
    TimesGrows(g.clusterSize, |cs|, |c1[slot]|);
    forall k | 0 <= k < |c1| && k != slot
      ensures Apart(c1[k], c1[slot])
    {
    }
  }

  /** What another opener who has made the file longer, or has not for want of clusters, leaves of the medium. */
  ghost predicate OtherGrew(g: Shape, m0: Medium, c0: seq<seq<nat>>, held0: map<nat, seq<nat>>, slot: nat, m1: Medium, c1: seq<seq<nat>>,
                            held1: map<nat, seq<nat>>, end: nat, size: nat, ok: bool) {
    true == (
      && DataFits(g, m0.data) && DataFits(g, m1.data) && GoodShape(g) && slot in held0 && slot in held1 && slot < |c0|
      && LeavesBe(m0, c0, held0, m1, c1, held1) && Sound(g, m1.fat, m1.dir, c1)
      && slot < |m0.dir| && slot < |m1.dir| && m1.dir[slot].Used? && ZeroedIn(m0, m1, held0, held1, slot, end, size, ok)
      && held0[slot] == c0[slot] <= held1[slot] && (m1.dir[slot].first != 0 ==> c1[slot] == held1[slot])
      && if ok then m1.dir[slot].size == size else m1.dir[slot] == m0.dir[slot])
  }

  /** A handle's word after another opener of its file has made it longer. */
  lemma GrownWorth(g: Shape, m0: Medium, c0: seq<seq<nat>>, held0: map<nat, seq<nat>>, slot: nat, h: Handle, cs: seq<nat>, view: View,
                   m1: Medium, c1: seq<seq<nat>>, held1: map<nat, seq<nat>>, end: nat, size: nat, ok: bool) returns (shown: seq<byte>)
    requires Hand(g, m0, c0, slot, h, cs, view) && OtherGrew(g, m0, c0, held0, slot, m1, c1, held1, end, size, ok)
    requires m0.dir[slot].first == 0 ==> forall k {:trigger held0[k]} :: k in held0 ==> Apart(cs, held0[k])
    ensures Worth(g, m1, c1, slot, h, shown, false) && ShownLonger(m0.dir[slot].first, end, size, ok, view, shown)
  {
    if m0.dir[slot].first == 0 {
      LedNowhere(g, m0, c0, slot, h, cs, view);
      StrayStays(g, m0, c0, held0, m1, c1, held1, h, cs, view);
      StrayWorth(g, m1, c1, slot, h, cs, view);
      shown := view.contents;
    } else {
      LedThere(g, m0, c0, slot, h, cs, view);
      GrownChain(g, m0, c0, slot, h, cs, view, m1, c1, held1[slot]);
      shown := Take(Bytes(m1.data, c1[slot]), h.size);
      HandBytes(g, m0, c0, slot, h, cs, view);
      ZerosShown(Bytes(m0.data, cs), end, size, ok, Bytes(m1.data, held1[slot]), h.size);
      ChainOf(g, m1.fat, m1.dir, c1, slot);
    }
  }

  lemma ZerosShown(b0: seq<byte>, end: nat, size: nat, ok: bool, b: seq<byte>, n: nat)
    requires end < size && Zeroed(b0, end, size - end, b, ok) && n <= |b0|
    ensures n <= |b| && exists k: nat :: end + k <= size && (ok ==> end + k == size) && Overlaid(b0[..n], b[..n], n, end, Zeros(k))
  {
    var k: nat :| k <= size - end && (ok ==> k == size - end) && Patched(b0, end, Zeros(k), b);
    PatchedOverlays(b0, end, Zeros(k), b, n);
    assert Overlaid(b0[..n], b[..n], n, end, Zeros(k));
  }

  /** A file just opened made longer, or not for want of clusters. */
  method GrowJustOpened(v: Volume, hands: map<nat, Handle>, slot: nat, size: nat, ghost d: Desk, ghost chains: seq<seq<nat>>, ghost held: map<nat, seq<nat>>)
    returns (ok: bool, ghost c1: seq<seq<nat>>, ghost held1: map<nat, seq<nat>>, ghost file: File)
    requires Desked(v, hands, d, chains, held) && slot in hands && slot in held && slot < |chains| && held[slot] == chains[slot]
    requires IsFile(d.files, slot) && hands[slot].size == |d.files[slot].contents| < size
    requires slot in d.open && d.open[slot].contents == d.files[slot].contents
    modifies v`m, v`dirty, v`history, v`cache, v`cacheSector, v`table, v`hint
    ensures file == if ok then File(d.files[slot].name, Stored(d.files[slot].contents, size, [])) else d.files[slot]
    ensures Rest(v, c1, d.files[slot := file])
    ensures OtherGrew(v.shape, old(v.m), chains, held, slot, v.m, c1, held1, |d.files[slot].contents|, size, ok)
  {
    ghost var m0, at := v.m, 0;
    var now;
    SizeRead(v, hands, d, chains, held, slot);
    ok, now, c1, held1, at := GrowOpen(v, hands, slot, size, d, chains, held);
    file := d.files[slot];
    if ok {
      file := File(file.name, Stored(file.contents, size, []));
      LongerDesk(d, slot, size);
      NowLonger(v, now, Resized(d, slot, Stored(d.open[slot].contents, size, [])), c1, held1, slot, m0, chains, held, |d.files[slot].contents|, size, true);
    } else {
      SameFiles(d.files, slot);
      NowLonger(v, now, d, c1, held1, slot, m0, chains, held, |d.files[slot].contents|, size, false);
    }
  }

  lemma LongerDesk(d: Desk, slot: nat, size: nat)
    requires slot in d.open && slot < |d.files| && d.files[slot].File? && d.open[slot].contents == d.files[slot].contents && |d.open[slot].contents| < size
    ensures var longer := Stored(d.open[slot].contents, size, []);
      |longer| == size && Resized(d, slot, longer).files == d.files[slot := File(d.files[slot].name, longer)]
  {
  }

  lemma SameFiles(files: seq<File>, slot: nat)
    requires slot < |files|
    ensures files[slot := files[slot]] == files
  {
  }

  lemma NowLonger(v: Volume, hands: map<nat, Handle>, d: Desk, chains: seq<seq<nat>>, held: map<nat, seq<nat>>, slot: nat,
                  m0: Medium, c0: seq<seq<nat>>, held0: map<nat, seq<nat>>, end: nat, size: nat, ok: bool)
    requires Desked(v, hands, d, chains, held) && GoodShape(v.shape) && DataFits(v.shape, m0.data) && slot < |m0.dir|
    requires HeldGrew(m0.fat, v.m.fat, held0, held, slot) && slot < |c0| && held0[slot] == c0[slot]
    requires LeavesBe(m0, c0, held0, v.m, chains, held) && ZeroedIn(m0, v.m, held0, held, slot, end, size, ok)
    requires slot < |d.files| && d.files[slot].File? && if ok then |d.files[slot].contents| == size else v.m.dir == m0.dir
    ensures OtherGrew(v.shape, m0, c0, held0, slot, v.m, chains, held, end, size, ok) && Rest(v, chains, d.files)
  {
    DeskSound(v, hands, d, chains, held, slot);
    DeskChain(v, hands, d, chains, held, slot);
  }

  /** A file made longer through a second handle, or not for want of clusters. */
  method GrowByOther(v: Volume, hands: map<nat, Handle>, slot: nat, size: nat, ghost d: Desk, ghost chains: seq<seq<nat>>, ghost held: map<nat, seq<nat>>)
    returns (ok: bool, ghost c1: seq<seq<nat>>, ghost file: File, ghost shown: seq<byte>)
    requires Desked(v, hands, d, chains, held) && slot in hands && IsFile(d.files, slot) && |d.files[slot].contents| < size
    modifies v`m, v`dirty, v`history, v`cache, v`cacheSector, v`table, v`hint
    ensures OpenRecord(old(v.m), hands, slot) && slot in d.open && slot < |v.m.dir|
    ensures file == if ok then File(d.files[slot].name, Stored(d.files[slot].contents, size, [])) else d.files[slot]
    ensures Rest(v, c1, d.files[slot := file])
    ensures Worth(v.shape, v.m, c1, slot, hands[slot], shown, false)
    ensures ShownLonger(old(v.m.dir)[slot].first, |d.files[slot].contents|, size, ok, d.open[slot], shown)
  {
    HandHeld(v, hands, slot, d, chains, held);
    ghost var m0, d1, held1, held2 := v.m, d, held, held;
    var now;
    now, d1, held1 := OpenAgain(v, hands, slot, d, chains, held);
    SizeRead(v, now, d1, chains, held1, slot);
    ok, c1, held2, file := GrowJustOpened(v, now, slot, size, d1, chains, held1);
    shown := GrownWorth(v.shape, m0, chains, held1, slot, hands[slot], held[slot], d.open[slot], v.m, c1, held2, |d.files[slot].contents|, size, ok);
  }

  lemma DeskChain(v: Volume, hands: map<nat, Handle>, d: Desk, chains: seq<seq<nat>>, held: map<nat, seq<nat>>, slot: nat)
    requires Desked(v, hands, d, chains, held) && slot in held
    ensures slot < |v.m.dir| && v.m.dir[slot].Used? && slot < |chains| && slot < |d.files| && d.files[slot].File?
    ensures v.m.dir[slot].first != 0 ==> chains[slot] == held[slot]
    ensures FileOf(v.m.dir[slot], v.m.data, chains[slot]) == d.files[slot] && v.m.dir[slot].size == |d.files[slot].contents|
  {
    HandHeld(v, hands, slot, d, chains, held);
    HandRecord(v.shape, v.m, chains, slot, hands[slot], held[slot], d.open[slot]);
    if v.m.dir[slot].first != 0 { LedThere(v.shape, v.m, chains, slot, hands[slot], held[slot], d.open[slot]); }
    DeskSound(v, hands, d, chains, held, slot);
    SizeShown(v.shape, v.m, chains, d.files, slot);
  }

  lemma SizeShown(g: Shape, m: Medium, chains: seq<seq<nat>>, files: seq<File>, slot: nat)
    requires Holds(g, m.fat, m.dir, m.data, files, chains) && DataFits(g, m.data) && slot < |m.dir| && m.dir[slot].Used?
    ensures FileOf(m.dir[slot], m.data, chains[slot]) == files[slot] && m.dir[slot].size == |files[slot].contents|
  {
    ChainOf(g, m.fat, m.dir, chains, slot);
    BytesLength(g, m.data, chains[slot]);
  }

  /**
   A file made longer through a second handle, and the first closed. Always
   sound. But where the file had clusters, what the first handle had written
   behind the record's end is zeros, as far as the other reached.
   */
  method GrownUnder(v: Volume, hands: map<nat, Handle>, slot: nat, size: nat, ghost d: Desk, ghost chains: seq<seq<nat>>, ghost held: map<nat, seq<nat>>)
    returns (ok: bool, ghost file: File, ghost shown: seq<byte>)
    requires Desked(v, hands, d, chains, held) && slot in hands && IsFile(d.files, slot) && |d.files[slot].contents| < size
    modifies v`m, v`dirty, v`history, v`cache, v`cacheSector, v`table, v`hint
    ensures OpenRecord(old(v.m), hands, slot) && slot in d.open
    ensures hands[slot].dirty ==> ClosedOver(v.shape, v.m, d.files, slot, d.files[slot].name, false, shown)
    ensures ShownLonger(old(v.m.dir)[slot].first, |d.files[slot].contents|, size, ok, d.open[slot], shown)
    ensures file == if ok then File(d.files[slot].name, Stored(d.files[slot].contents, size, [])) else d.files[slot]
    ensures !hands[slot].dirty ==> Whole(v.shape, v.m, d.files[slot := file])
  {
    ghost var c1;
    ok, c1, file, shown := GrowByOther(v, hands, slot, size, d, chains, held);
    CloseOver(v, slot, hands[slot], c1, d.files[slot := file], shown, false);
    OverAgain(v.shape, v.m, d.files, slot, file, d.files[slot].name, false, shown);
  }

  // ------------------------------------------------------------------
  // Closed at any later time
  // ------------------------------------------------------------------

  /** The handle's first cluster is in the chain its record has by now, with enough behind it. */
  ghost predicate InOwnChain(g: Shape, cs: seq<nat>, h: Handle, i: nat) {
    i < |cs| && cs[i] == h.first && h.size <= g.clusterSize * (|cs| - i)
  }

  /**
   Whenever a handle is closed whose first cluster is free by then or some record's:
   sound if and only if that record is the one at its own place, and what its
   chain has from there on reaches.
   */
  lemma LaterClose(g: Shape, m: Medium, chains: seq<seq<nat>>, slot: nat, h: Handle)
    requires Sound(g, m.fat, m.dir, chains) && slot < |m.dir| && m.dir[slot].Used? && h.first != 0
    requires (h.first < |m.fat| && m.fat[h.first] == FREE) || exists k :: 0 <= k < |chains| && h.first in chains[k]
    ensures SoundMedium(g, m.(dir := Committed(m.dir, slot, h.first, h.size))) <==> exists i: nat :: InOwnChain(g, chains[slot], h, i)
  {
    var m1 := m.(dir := Committed(m.dir, slot, h.first, h.size));
    ChainOf(g, m.fat, m.dir, chains, slot);
    if i: nat :| InOwnChain(g, chains[slot], h, i) {
      RestOfChain(g, m.fat, m.dir, chains, slot, i);
      SoundWith(g, m.fat, m.dir, chains, slot, m1.dir[slot], chains[slot][i..]);
      assert Sound(g, m1.fat, m1.dir, chains[slot := chains[slot][i..]]);
    }
    if h.first < |m.fat| && m.fat[h.first] == FREE {
      NamesFree(g, m1, slot);
    } else {
      var k :| 0 <= k < |chains| && h.first in chains[k];
      if any :| Sound(g, m1.fat, m1.dir, any) { OwnersChain(g, m, chains, slot, h, k, any); }
    }
  }

  lemma RestOfChain(g: Shape, f: Table, dir: seq<Slot>, chains: seq<seq<nat>>, slot: nat, i: nat)
    requires Sound(g, f, dir, chains) && slot < |dir| && dir[slot].Used? && i < |chains[slot]|
    ensures IsChain(g, f, chains[slot][i..])
    ensures forall k {:trigger chains[k]} :: 0 <= k < |chains| && k != slot ==> Apart(chains[k], chains[slot][i..])
  {
    ChainOf(g, f, dir, chains, slot);
    ChainRest(g, f, chains[slot], i);
    assert chains[slot] == chains[slot][..i] + chains[slot][i..];
    forall k | 0 <= k < |chains| && k != slot
      ensures Apart(chains[k], chains[slot][i..])
    {
      assert Apart(chains[k], chains[slot]);
    }
  }

  lemma OwnersChain(g: Shape, m: Medium, chains: seq<seq<nat>>, slot: nat, h: Handle, k: nat, any: seq<seq<nat>>)
    requires Sound(g, m.fat, m.dir, chains) && slot < |m.dir| && m.dir[slot].Used? && h.first != 0
    requires k < |chains| && h.first in chains[k] && Sound(g, m.fat, Committed(m.dir, slot, h.first, h.size), any)
    ensures exists i: nat :: InOwnChain(g, chains[slot], h, i)
  {
    ChainOf(g, m.fat, Committed(m.dir, slot, h.first, h.size), any, slot);
    assert SlotSound(g, m.fat, m.dir[k], chains[k]);
    if k == slot {
      var i: nat :| i < |chains[slot]| && chains[slot][i] == h.first;
      RestOfChain(g, m.fat, m.dir, chains, slot, i);
      ChainUnique(g, m.fat, any[slot], chains[slot][i..]);
      assert InOwnChain(g, chains[slot], h, i);
    } else {
      assert SlotSound(g, m.fat, Committed(m.dir, slot, h.first, h.size)[k], any[k]);
      assert Apart(any[slot], any[k]) && any[slot][0] in any[slot];
      ChainUnique(g, m.fat, any[k], chains[k]);
    }
  }

  // ------------------------------------------------------------------
  // Written through, whoever has its clusters by now
  // ------------------------------------------------------------------

  /** What a handle reads by the table alone, whatever any record says. */
  ghost predicate Alone(g: Shape, m: Medium, h: Handle, cs: seq<nat>, view: View) {
    Hand(g, m.(dir := [Used("", 0, 0)]), [[]], 0, h, cs, view)
  }

  /** What a record shows by a chain that shares nothing with this one is what it showed. */
  ghost predicate SparesApart(g: Shape, m0: Medium, m1: Medium, cs: seq<nat>) {
    forall k: nat, ck, file {:trigger ShowsBy(g, m1, k, ck, file)} {:trigger ShowsBy(g, m0, k, ck, file), Apart(ck, cs)} ::
      ShowsBy(g, m0, k, ck, file) && Apart(ck, cs) ==> ShowsBy(g, m1, k, ck, file)
  }

  /** The entry of a handle told of no record but its own. */
  method ResumeAlone(v: Volume, h: Handle, ghost cs: seq<nat>, ghost view: View) returns (e: Entry, ghost s: Start)
    requires v.Valid() && !v.dirty && v.table == v.m.fat == v.m.copy && Alone(v.shape, v.m, h, cs, view)
    ensures fresh(e) && e.slot == 0 && e.told == [Used("", 0, 0)] && Starting(v, e, s)
    ensures s.m == v.m.(dir := e.told) && s.past == v.history && s.dir == v.m.dir
    ensures Going(v.shape, s, map[0 := h], Desk([File("", [])], map[0 := view]), [[]], map[0 := cs], 0)
    ensures h == Handle(e.first, e.size, e.walked, e.walkedCluster, h.dirty)
  {
    ghost var dir, files := [Used("", 0, 0)], [File("", [])];
    ghost var m1 := v.m.(dir := dir);
    assert IsChain(v.shape, v.m.fat, []);
    assert Holds(v.shape, m1.fat, m1.dir, m1.data, files, [[]]);
    HandGoing(v.shape, m1, map[0 := h], Desk(files, map[0 := view]), [[]], map[0 := cs], 0, v.history);
    s := StartOf(m1, h, v.history, [[]], 0, cs, files).(dir := v.m.dir);
    e := new Entry(0, h.first, h.size, h.walked, h.walkedCluster, dir);
    ResumedStarts(v, e, s, [[]], cs, files);
  }

  lemma AloneSpares(g: Shape, m0: Medium, m1: Medium, cs: seq<nat>, c1: seq<seq<nat>>, held1: map<nat, seq<nat>>)
    requires LeavesBe(m0.(dir := [Used("", 0, 0)]), [[]], map[0 := cs], m1.(dir := [Used("", 0, 0)]), c1, held1)
    requires m1.dir == m0.dir && DataFits(g, m0.data)
    ensures SparesApart(g, m0, m1, cs)
  {
    forall k: nat, ck, file | ShowsBy(g, m0, k, ck, file) && Apart(ck, cs)
      ensures ShowsBy(g, m1, k, ck, file)
    {
      if m0.dir[k].Used? {
        forall c | c in ck
          ensures c < |m0.fat| && m1.fat[c] == m0.fat[c] && c < |m0.data| && m1.data[c] == m0.data[c]
        {
          var i :| 0 <= i < |ck| && ck[i] == c;
          LinkInChain(g, m0.fat, ck, i);
          assert !Somebodys(c, [[]], map[0 := cs]);
        }
        ChainFrame(g, m0.fat, m1.fat, ck);
        BytesFrame(m0.data, m1.data, ck);
      }
    }
  }

  /**
   Bytes written through a handle whose clusters are a whole chain, whoever else
   has come to have them: every record that shares none of them shows the file it
   did, and none is written.
   */
  method WriteAlone(v: Volume, h: Handle, offset: nat, bytes: seq<byte>, ghost cs: seq<nat>, ghost view: View)
    returns (ok: bool, h1: Handle, ghost cs1: seq<nat>, ghost view1: View)
    requires v.Valid() && !v.dirty && v.table == v.m.fat == v.m.copy && Alone(v.shape, v.m, h, cs, view)
    modifies v`m, v`dirty, v`history, v`cache, v`cacheSector, v`table, v`hint
    ensures v.Valid() && !v.dirty && v.table == v.m.fat == v.m.copy && Alone(v.shape, v.m, h1, cs1, view1)
    ensures StoredInto(view.contents, view1.contents, offset, bytes, ok)
    ensures bytes != [] && offset + |bytes| > MAX_FILE_BYTES ==>
      !ok && v.m == old(v.m) && v.history == old(v.history) && h1 == h && cs1 == cs && view1 == view
    ensures v.m.dir == old(v.m.dir) && SparesApart(v.shape, old(v.m), v.m, cs)
  {
    ghost var m0 := v.m;
    var e, now;
    ghost var s, d1, c1, held1;
    e, s := ResumeAlone(v, h, cs, view);
    ok, now, d1, c1, held1 := PutThrough(v, e, offset, bytes, map[0 := h], Desk([File("", [])], map[0 := view]), [[]], map[0 := cs], s);
    AloneSpares(v.shape, m0, v.m, cs, c1, held1);
    h1, cs1, view1 := now[0], held1[0], d1.open[0];
    StillAlone(v, e.told, now, d1, c1, held1);
  }

  lemma StillAlone(v: Volume, told: seq<Slot>, hands: map<nat, Handle>, d: Desk, chains: seq<seq<nat>>, held: map<nat, seq<nat>>)
    requires DeskedAs(v, told, hands, d, chains, held) && told == [Used("", 0, 0)] && 0 in hands && 0 in d.open && 0 in held
    ensures Alone(v.shape, v.m, hands[0], held[0], d.open[0])
  {
    assert Hand(v.shape, v.m.(dir := told), chains, 0, hands[0], held[0], d.open[0]);
    assert SlotSound(v.shape, v.m.fat, told[0], chains[0]);
    assert chains == [[]];
  }

  /** Of the bytes written into a cluster, the `j`th falls within what a record shows by its `i`th, and is not what was there. */
  ghost predicate Alters(g: Shape, data: Clusters, cs: seq<nat>, size: nat, c: nat, within: nat, chunk: seq<byte>, i: nat, j: nat)
    requires c < |data| && within + |chunk| <= |data[c]|
  {
    i < |cs| && cs[i] == c && j < |chunk| && g.clusterSize * i + within + j < size && data[c][within + j] != chunk[j]
  }

  lemma BytesBefore(g: Shape, data: Clusters, cs: seq<nat>, i: nat, at: nat)
    requires DataFits(g, data) && i < |cs| && (forall k :: 0 <= k < |cs| ==> cs[k] < |data|) && at == g.clusterSize * i
    ensures at == |Bytes(data, cs[..i])| && at + g.clusterSize <= |Bytes(data, cs)|
    ensures Bytes(data, cs)[at..at + g.clusterSize] == data[cs[i]]
  {
    BytesLength(g, data, cs[..i]);
    BytesAround(data, cs, i);
  }

  /** The place a cluster has in a chain is the only one where it can be altered. */
  lemma AltersHere(g: Shape, data: Clusters, cs: seq<nat>, size: nat, c: nat, within: nat, chunk: seq<byte>, i: nat, at: nat)
    requires Distinct(cs) && i < |cs| && cs[i] == c && at == g.clusterSize * i && c < |data| && within + |chunk| <= |data[c]|
    ensures (forall k: nat, j: nat :: !Alters(g, data, cs, size, c, within, chunk, k, j))
            <==> forall j: nat :: j < |chunk| && at + within + j < size ==> data[c][within + j] == chunk[j]
  {
    if j: nat :| j < |chunk| && at + within + j < size && data[c][within + j] != chunk[j] {
      assert Alters(g, data, cs, size, c, within, chunk, i, j);
    }
    forall k: nat, j: nat | Alters(g, data, cs, size, c, within, chunk, k, j)
      ensures k == i
    {
    }
  }

  /** A file keeps its contents if and only if no byte that falls within them is another. */
  lemma SectorShows(g: Shape, f: Table, s: Slot, data: Clusters, cs: seq<nat>, c: nat, within: nat, chunk: seq<byte>)
    requires SlotSound(g, f, s, cs) && s.Used? && DataFits(g, data) && c < |data| && within + |chunk| <= |data[c]|
    ensures FileOf(s, FatWrite.Put(data, c, within, chunk), cs) == FileOf(s, data, cs)
            <==> forall i: nat, j: nat :: !Alters(g, data, cs, s.size, c, within, chunk, i, j)
  {
    BytesLength(g, data, cs);
    if c in cs {
      var i: nat :| i < |cs| && cs[i] == c;
      var at := g.clusterSize * i;
      SectorAt(g, data, cs, c, within, chunk, i, at, s.size);
      AltersHere(g, data, cs, s.size, c, within, chunk, i, at);
    } else {
      BytesFrame(data, FatWrite.Put(data, c, within, chunk), cs);
    }
  }

  lemma SectorAt(g: Shape, data: Clusters, cs: seq<nat>, c: nat, within: nat, chunk: seq<byte>, i: nat, at: nat, size: nat)
    requires DataFits(g, data) && Distinct(cs) && (forall k :: 0 <= k < |cs| ==> cs[k] < |data|) && c < |data| && within + |chunk| <= |data[c]|
    requires i < |cs| && cs[i] == c && at == g.clusterSize * i && size <= |Bytes(data, cs)|
    ensures Take(Bytes(FatWrite.Put(data, c, within, chunk), cs), size) == Take(Bytes(data, cs), size)
            <==> forall j: nat :: j < |chunk| && at + within + j < size ==> data[c][within + j] == chunk[j]
  {
    BytesBefore(g, data, cs, i, at);
    BytesOverlay(data, cs, i, within, chunk);
    FrontKept(Bytes(data, cs), Bytes(FatWrite.Put(data, c, within, chunk), cs), at, data[c], within, chunk, size);
  }

  /** Bytes written over a part `here` of others: the front is what it was if they fall behind it or are the same. */
  lemma FrontKept(b: seq<byte>, b1: seq<byte>, at: nat, here: seq<byte>, within: nat, x: seq<byte>, size: nat)
    requires at + |here| <= |b| && b[at..at + |here|] == here && within + |x| <= |here| && size <= |b|
    requires b1 == Overlay(b, at + within, x)
    ensures Take(b1, size) == Take(b, size) <==> forall j: nat :: j < |x| && at + within + j < size ==> here[within + j] == x[j]
  {
    assert forall j {:trigger here[j]} :: 0 <= j < |here| ==> b[at + j] == here[j];
    if forall j: nat :: j < |x| && at + within + j < size ==> here[within + j] == x[j] {
      forall i | 0 <= i < size
        ensures b1[i] == b[i]
      {
        if at + within <= i < at + within + |x| { assert here[within + (i - at - within)] == x[i - at - within]; }
      }
      assert b1[..size] == b[..size];
    }
    if b1[..size] == b[..size] {
      forall j: nat | j < |x| && at + within + j < size
        ensures here[within + j] == x[j]
      {
        assert b1[..size][at + within + j] == b[..size][at + within + j];
      }
    }
  }

  /** One sector written by whoever still has the cluster's number: the files stay if and only if no record shows another byte for it. */
  method SectorUnder(v: Volume, cluster: nat, within: nat, chunk: seq<byte>, ghost chains: seq<seq<nat>>, ghost files: seq<File>)
    requires Rest(v, chains, files) && cluster < |v.m.data| && within + |chunk| <= |v.m.data[cluster]|
    modifies v`m, v`history
    ensures v.m.fat == old(v.m.fat) && v.m.dir == old(v.m.dir) && Sound(v.shape, v.m.fat, v.m.dir, chains)
    ensures Holds(v.shape, v.m.fat, v.m.dir, v.m.data, files, chains)
            <==> forall k: nat, i: nat, j: nat :: k < |v.m.dir| && v.m.dir[k].Used? ==>
                   !Alters(v.shape, old(v.m.data), chains[k], v.m.dir[k].size, cluster, within, chunk, i, j)
  {
    ghost var m0 := v.m;
    RestIsWhole(v, chains, files);
    PutSector(v, cluster, within, chunk);
    forall k | 0 <= k < |m0.dir| && m0.dir[k].Used?
      ensures FileOf(m0.dir[k], v.m.data, chains[k]) == files[k]
              <==> forall i: nat, j: nat :: !Alters(v.shape, m0.data, chains[k], m0.dir[k].size, cluster, within, chunk, i, j)
    {
      assert SlotSound(v.shape, m0.fat, m0.dir[k], chains[k]) && FileOf(m0.dir[k], m0.data, chains[k]) == files[k];
      SectorShows(v.shape, m0.fat, m0.dir[k], m0.data, chains[k], cluster, within, chunk);
    }
  }
}
