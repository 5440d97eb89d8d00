/**
 A medium a power cut left, mounted and checked: for any run of operations and
 any cut in it, which files are there afterwards and which clusters are free.
 */
module FatRecovery {
  import opened FatVolume
  import opened FatTable
  import opened FatVerdict
  import opened FatChains
  import opened FatFiles
  import opened FatResize
  import opened FatSession
  import opened FatFollow
  import opened FatCourse
  import opened FatCheck
  import opened FatClean
  import opened FatContents
  import opened FatDoubled

  // ------------------------------------------------------------------
  // A sound medium
  // ------------------------------------------------------------------

  /** Some record needs the cluster for its size. */
  ghost predicate Needed(g: Shape, m: Medium, c: nat) {
    g.clusterSize > 0 &&
    exists k, cs {:trigger SlotSound(g, m.fat, m.dir[k], cs)} :: 0 <= k < |m.dir| && SlotSound(g, m.fat, m.dir[k], cs) && c in CheckedChain(g, m.dir[k], cs)
  }

  /** Exactly the clusters no record needs are free, but the defective ones. */
  ghost predicate FreesUnneeded(g: Shape, m: Medium, m1: Medium) {
    |m1.fat| == |m.fat| &&
    forall c: nat {:trigger Needed(g, m, c)} :: c < |m.fat| && ValidCluster(g, c) ==> (m1.fat[c] == FREE <==> !Needed(g, m, c) && m.fat[c] != BAD)
  }

  /** A file is there unchanged if and only if its size was not rounded up. */
  ghost predicate SameUnlessRounded(g: Shape, m: Medium, files: seq<File>, m1: Medium) {
    && g.clusterSize > 0 && |files| == |m.dir| == |m1.dir|
    && forall k, cs {:trigger SlotSound(g, m.fat, m.dir[k], cs)} :: 0 <= k < |m.dir| && SlotSound(g, m.fat, m.dir[k], cs) ==>
         (FileOf(m1.dir[k], m1.data, CheckedChain(g, m.dir[k], cs)) == files[k] <==> Unrounded(g, m.dir[k], |cs|))
  }

  lemma NeededIsHeld(g: Shape, m: Medium, chains: seq<seq<nat>>, kept: seq<seq<nat>>, c: nat)
    requires g.clusterSize > 0 && |kept| == |chains| == |m.dir|
    requires forall k {:trigger SlotSound(g, m.fat, m.dir[k], chains[k])} :: 0 <= k < |m.dir| ==> SlotSound(g, m.fat, m.dir[k], chains[k])
    requires forall k {:trigger kept[k]} :: 0 <= k < |m.dir| ==> kept[k] == CheckedChain(g, m.dir[k], chains[k])
    ensures Needed(g, m, c) <==> Held(kept, c)
  {
    if Needed(g, m, c) {
      var k, cs :| 0 <= k < |m.dir| && SlotSound(g, m.fat, m.dir[k], cs) && c in CheckedChain(g, m.dir[k], cs);
      SoundIsWalk(g, m.fat, m.dir[k], cs);
      assert SlotSound(g, m.fat, m.dir[k], chains[k]);
      SoundIsWalk(g, m.fat, m.dir[k], chains[k]);
      WalkOfUnique(g, m.fat, m.dir[k], cs, chains[k]);
      assert c in kept[k];
    }
    if Held(kept, c) {
      var k :| 0 <= k < |kept| && c in kept[k];
      assert SlotSound(g, m.fat, m.dir[k], chains[k]);
    }
  }

  /** What a check makes of a medium that held these files whole. */
  lemma WholeRecovered(g: Shape, m: Medium, files: seq<File>, walks: seq<seq<nat>>, found: Findings, m1: Medium)
    requires GoodShape(g) && DataFits(g, m.data) && Whole(g, m, files) && m1.data == m.data && m1.copy == m1.fat
    requires CheckedTo(g, m.fat, m.dir, walks, m1.fat, m1.dir) && CountedTo(g, m, walks, found)
    ensures found.crossed == 0 && Clean(g, m1) && Carried(g, m1, files, |files|) && FreesUnneeded(g, m, m1)
    ensures SameUnlessRounded(g, m, files, m1)
  {
    var chains :| Holds(g, m.fat, m.dir, m.data, files, chains);
    SoundIsTidied(g, m.fat, m.dir, walks, chains, m1.fat, m1.dir);
    UncrossedIsClean(g, m.fat, m.dir, walks, m1.fat, m1.dir);
    var kept := KeptAll(g, m.fat, m.dir, walks);
    assert CleanBy(g, m1, kept);
    var after := seq(|files|, k requires 0 <= k < |files| => FileOf(m1.dir[k], m1.data, kept[k]));
    forall k | 0 <= k < |files|
      ensures FileKept(files[k], after[k], g.clusterSize) && (after[k] == files[k] <==> Unrounded(g, m.dir[k], |chains[k]|))
      ensures SlotSound(g, m1.fat, m1.dir[k], kept[k])
    {
      assert SlotSound(g, m.fat, m.dir[k], chains[k]) && FileOf(m.dir[k], m.data, chains[k]) == files[k];
      assert Exact(g, m1.fat, m1.dir[k], kept[k]) && kept[k] == CheckedChain(g, m.dir[k], chains[k]);
      CheckedFile(g, m.fat, m.dir[k], m.data, chains[k]);
    }
    assert Readable(g, m1, kept, after) && AllKept(g, files, after, |files|);
    forall k, cs | 0 <= k < |m.dir| && SlotSound(g, m.fat, m.dir[k], cs)
      ensures cs == chains[k]
    {
      assert SlotSound(g, m.fat, m.dir[k], chains[k]);
      SoundIsWalk(g, m.fat, m.dir[k], cs);
      SoundIsWalk(g, m.fat, m.dir[k], chains[k]);
      WalkOfUnique(g, m.fat, m.dir[k], cs, chains[k]);
    }
    forall c: nat | c < |m.fat| && ValidCluster(g, c)
      ensures m1.fat[c] == FREE <==> !Needed(g, m, c) && m.fat[c] != BAD
    {
      assert forall k {:trigger kept[k]} :: 0 <= k < |m.dir| ==> kept[k] == CheckedChain(g, m.dir[k], chains[k]);
      NeededIsHeld(g, m, chains, kept, c);
    }
  }

  // ------------------------------------------------------------------
  // A medium a rename left
  // ------------------------------------------------------------------

  /** The files a doubled medium shows: the one file under both names. */
  function BothNames(m: Medium, files: seq<File>, src: nat, dst: nat): seq<File> {
    if src < |files| && dst < |files| && files[dst].File? && src < |m.dir| && m.dir[src].Used?
    then files[src := File(m.dir[src].name, files[dst].contents)] else files
  }

  lemma DoubledEmptyIsWhole(g: Shape, m: Medium, files: seq<File>, src: nat, dst: nat)
    requires GoodShape(g) && Doubled(g, m, files, src, dst) && m.dir[src].first == 0
    ensures Whole(g, m, BothNames(m, files, src, dst))
  {
    var one := m.dir[src := Vacant];
    var chains :| Holds(g, m.fat, one, m.data, files, chains);
    assert SlotSound(g, m.fat, one[dst], chains[dst]) && SlotSound(g, m.fat, one[src], chains[src]);
    assert FileOf(one[dst], m.data, chains[dst]) == files[dst];
    HoldsWith(g, m.fat, one, m.data, files, chains, src, m.dir[src], []);
    assert one[src := m.dir[src]] == m.dir && FileOf(m.dir[src], m.data, []) == File(m.dir[src].name, files[dst].contents);
    assert Holds(g, m.fat, m.dir, m.data, BothNames(m, files, src, dst), chains[src := []]);
  }

  /** What a check makes of it, when the file has clusters: all is carried through exactly if the file has bytes. */
  lemma DoubledRecovered(g: Shape, m: Medium, files: seq<File>, src: nat, dst: nat, walks: seq<seq<nat>>, found: Findings, m1: Medium)
    requires GoodShape(g) && DataFits(g, m.data) && Doubled(g, m, files, src, dst) && m.dir[src].first != 0
    requires CheckedTo(g, m.fat, m.dir, walks, m1.fat, m1.dir) && CountedTo(g, m, walks, found) && m1.data == m.data
    ensures found.crossed == 1 && FreesUnneeded(g, m, m1)
    ensures Carried(g, m1, BothNames(m, files, src, dst), |files|) <==> m.dir[src].size > 0
    ensures Later(src, dst) < |m1.dir| == |m.dir| && m1.dir[Later(src, dst)] == m.dir[Later(src, dst)]
  {
    var lo, hi := Sooner(src, dst), Later(src, dst);
    var chains := DoubledIsTwice(g, m, files, src, dst);
    WholeWalks(g, m.fat, m.dir, chains, walks);
    TwiceContests(g, m.fat, m.dir, chains, lo, hi);
    TwiceIsChecked(g, m.fat, m.dir, chains, lo, hi, m1.fat, m1.dir);
    TwiceCarried(g, m, BothNames(m, files, src, dst), chains, lo, hi, m1);
    var kept := CheckedChains(g, m.dir, chains);
    forall c: nat | c < |m.fat| && ValidCluster(g, c)
      ensures m1.fat[c] == FREE <==> !Needed(g, m, c) && m.fat[c] != BAD
    {
      NeededIsHeld(g, m, chains, kept, c);
    }
  }

  /** And what a second one does: nothing at all if and only if the file has bytes. */
  lemma DoubledAgain(g: Shape, m: Medium, files: seq<File>, src: nat, dst: nat, walks: seq<seq<nat>>, m1: Medium,
                     again: seq<seq<nat>>, second: Findings)
    requires GoodShape(g) && Doubled(g, m, files, src, dst) && m.dir[src].first != 0
    requires CheckedTo(g, m.fat, m.dir, walks, m1.fat, m1.dir) && m1.copy == m1.fat
    requires AllWalks(g, m1.fat, m1.dir, again) && CountedTo(g, m1, again, second)
    ensures Quiet(Uncrossed(second)) <==> m.dir[src].size > 0
  {
    var lo, hi := Sooner(src, dst), Later(src, dst);
    var chains := DoubledIsTwice(g, m, files, src, dst);
    WholeWalks(g, m.fat, m.dir, chains, walks);
    TwiceIsChecked(g, m.fat, m.dir, chains, lo, hi, m1.fat, m1.dir);
    TwiceAgain(g, m.fat, m.dir, chains, lo, hi, m1, again, second);
  }

  // ------------------------------------------------------------------
  // A medium a growing file left
  // ------------------------------------------------------------------

  /** The walks of a medium with one record ahead: nobody runs into anybody. */
  lemma AheadWalks(g: Shape, m: Medium, files: seq<File>, slot: nat, before: Slot, chains: seq<seq<nat>>, walk: seq<nat>, walks: seq<seq<nat>>)
    requires GoodShape(g) && AheadBy(g, m, files, slot, before, chains, walk) && AllWalks(g, m.fat, m.dir, walks)
    ensures |chains| == |m.dir| && walks == chains[slot := walk]
    ensures forall k :: 0 <= k < |walks| ==> !Contests(walks, k)
  {
    forall k | 0 <= k < |m.dir|
      ensures walks[k] == chains[slot := walk][k]
    {
      assert SlotSound(g, m.fat, m.dir[slot := before][k], chains[k]) && WalkOf(g, m.fat, m.dir[k], walks[k]);
      if k == slot {
        WalkUnique(g, m.fat, m.dir[slot].first, walks[k], walk);
      } else {
        SoundIsWalk(g, m.fat, m.dir[k], chains[k]);
        WalkOfUnique(g, m.fat, m.dir[k], walks[k], chains[k]);
      }
    }
    forall k | 0 <= k < |walks|
      ensures !Contests(walks, k)
    {
      forall j | 0 <= j < k
        ensures Apart(walks[j], walks[k])
      {
        if j != slot && k != slot { assert Apart(chains[j], chains[k]); }
      }
      ApartIsUncontested(walks, k);
    }
  }

  /** The record that was ahead keeps at least what it held before. */
  lemma AheadFile(g: Shape, f: Table, before: Slot, s: Slot, data: Clusters, cs: seq<nat>, walk: seq<nat>, f1: Table)
    requires GoodShape(g) && DataFits(g, data) && SlotSound(g, f, before, cs) && before.Used? && s.Used? && s.first != 0
    requires before.name == s.name && before.size < s.size && (before.first == 0 || before.first == s.first) && Walks(g, f, s.first, walk)
    requires Exact(g, f1, SlotAfter(g, f, s, walk, false), KeptOf(g, f, s, walk))
    ensures FileFront(FileOf(before, data, cs), FileOf(SlotAfter(g, f, s, walk, false), data, KeptOf(g, f, s, walk)))
  {
    var kept := KeptOf(g, f, s, walk);
    KeptInWalk(g, f, s, walk);
    if before.first != 0 {
      SoundIsWalk(g, f, before, cs);
      WalkUnique(g, f, s.first, walk, cs);
      AheadSize(g, f, before, s, cs);
      FrontOfFront(g, data, cs, kept, before.size, SlotAfter(g, f, s, cs, false).size);
    }
  }

  lemma FrontOfFront(g: Shape, data: Clusters, cs: seq<nat>, kept: seq<nat>, size: nat, size1: nat)
    requires DataFits(g, data) && kept <= cs && (forall i :: 0 <= i < |cs| ==> cs[i] < |data|)
    requires size <= g.clusterSize * |kept| && size <= size1
    ensures Take(Bytes(data, cs), size) <= Take(Bytes(data, kept), size1)
  {
    BytesLength(g, data, kept);
    assert cs == kept + cs[|kept|..];
    BytesConcat(data, kept, cs[|kept|..]);
  }

  /** A larger size on a whole chain leaves at least the clusters and the size there were. */
  lemma AheadSize(g: Shape, f: Table, before: Slot, s: Slot, cs: seq<nat>)
    requires GoodShape(g) && SlotSound(g, f, before, cs) && before.Used? && s.Used? && before.first == s.first != 0 && before.size < s.size
    ensures before.size <= g.clusterSize * |KeptOf(g, f, s, cs)|
    ensures before.size <= SlotAfter(g, f, s, cs, false).size
  {
    var n, needed := g.clusterSize, ClustersFor(s.size, g.clusterSize);
    ClustersForBounds(s.size, n);
    LinkInChain(g, f, cs, |cs| - 1);
    assert StoppedBy(g, f, s.first, cs) == Ended;
    assert needed * n == n * needed && |cs| * n == n * |cs|;
  }

  lemma AheadRecovered(g: Shape, m: Medium, files: seq<File>, slot: nat, walks: seq<seq<nat>>, found: Findings, m1: Medium)
    requires GoodShape(g) && DataFits(g, m.data) && Ahead(g, m, files, slot) && m1.data == m.data && m1.copy == m1.fat
    requires CheckedTo(g, m.fat, m.dir, walks, m1.fat, m1.dir) && CountedTo(g, m, walks, found)
    ensures found.crossed == 0 && Clean(g, m1) && Carried(g, m1, files, slot)
  {
    var before, chains, walk :| AheadBy(g, m, files, slot, before, chains, walk);
    AheadWalks(g, m, files, slot, before, chains, walk, walks);
    NoCrossings(walks, |walks|);
    UncrossedIsClean(g, m.fat, m.dir, walks, m1.fat, m1.dir);
    var kept := KeptAll(g, m.fat, m.dir, walks);
    assert CleanBy(g, m1, kept);
    var after := seq(|files|, k requires 0 <= k < |files| => FileOf(m1.dir[k], m1.data, kept[k]));
    forall k | 0 <= k < |files|
      ensures FileFront(files[k], after[k]) && (k != slot ==> FileKept(files[k], after[k], g.clusterSize))
      ensures SlotSound(g, m1.fat, m1.dir[k], kept[k])
    {
      AheadOne(g, m, files, slot, before, chains, walk, walks, m1, k);
    }
    assert Readable(g, m1, kept, after) && AllKept(g, files, after, slot);
  }

  lemma AheadOne(g: Shape, m: Medium, files: seq<File>, slot: nat, before: Slot, chains: seq<seq<nat>>, walk: seq<nat>, walks: seq<seq<nat>>,
                 m1: Medium, k: nat)
    requires GoodShape(g) && DataFits(g, m.data) && AheadBy(g, m, files, slot, before, chains, walk) && m1.data == m.data
    requires CheckedTo(g, m.fat, m.dir, walks, m1.fat, m1.dir) && walks == chains[slot := walk] && !Contests(walks, k) && k < |files|
    ensures k < |m1.dir| && SlotSound(g, m1.fat, m1.dir[k], KeptOf(g, m.fat, m.dir[k], walks[k]))
    ensures var after := FileOf(m1.dir[k], m1.data, KeptOf(g, m.fat, m.dir[k], walks[k]));
      FileFront(files[k], after) && (k != slot ==> FileKept(files[k], after, g.clusterSize))
  {
    var dir0 := m.dir[slot := before];
    assert SlotSound(g, m.fat, dir0[k], chains[k]) && FileOf(dir0[k], m.data, chains[k]) == files[k];
    assert Dealt(g, m.fat, m.dir, walks, m1.fat, m1.dir, k);
    if k == slot {
      AheadFile(g, m.fat, before, m.dir[k], m.data, chains[k], walk, m1.fat);
    } else {
      if m.dir[k].Used? { AnswerSound(g, m.fat, m.dir[k], chains[k]); }
      CheckedFile(g, m.fat, m.dir[k], m.data, chains[k]);
    }
  }

  // ------------------------------------------------------------------
  // Any cut in any run
  // ------------------------------------------------------------------

  /** The files a cut medium shows a reader; one at `loose`, if that is a file, has its record ahead of its chain. */
  ghost predicate CutShows(g: Shape, m: Medium, a: seq<File>, op: Op, b: seq<File>, shown: seq<File>, loose: nat) {
    || (loose == |shown| && Whole(g, m, shown) && (shown == a || shown == b || PutShows(a, op, shown) || NamesShow(g, m, a, op, b, shown)))
    || (loose == |shown| && NamesShow(g, m, a, op, b, shown))
    || (op.Resize? && loose == op.slot && shown == a && Ahead(g, m, a, op.slot))
  }

  /** Some front part of the bytes being put lies over one file. */
  ghost predicate PutShows(a: seq<File>, op: Op, shown: seq<File>) {
    op.Put? && op.slot < |a| && |shown| == |a| && Alike(shown[op.slot], a[op.slot], op.offset, op.bytes) && shown == a[op.slot := shown[op.slot]]
  }

  /** One file is under both names. */
  ghost predicate NamesShow(g: Shape, m: Medium, a: seq<File>, op: Op, b: seq<File>, shown: seq<File>) {
    op.MoveTo? && exists dst :: 0 <= dst < |a| && Moved(a, op.src, op.name, dst, b) && Doubled(g, m, b, op.src, dst) && shown == BothNames(m, b, op.src, dst)
  }

  /** Caught under both names, a file with clusters and no bytes. */
  ghost predicate Hollow(g: Shape, m: Medium, a: seq<File>, op: Op, b: seq<File>) {
    op.MoveTo? && op.src < |m.dir| && m.dir[op.src].Used? && m.dir[op.src].first != 0 && m.dir[op.src].size == 0 && CaughtMoving(g, m, a, op, b)
  }

  /**
   What mounting and checking makes of a cut medium, and what checking again
   does. Every file the cut showed is carried through, and nothing is left to
   repair, if and only if it is not a hollow one under two names; exactly the
   clusters no record needs are free.
   */
  ghost predicate RecoveredCut(g: Shape, m: Medium, a: seq<File>, op: Op, b: seq<File>, m1: Medium, second: Findings, shown: seq<File>, loose: nat) {
    && CutShows(g, m, a, op, b, shown, loose)
    && (Carried(g, m1, shown, loose) <==> !Hollow(g, m, a, op, b))
    && (Quiet(Uncrossed(second)) <==> !Hollow(g, m, a, op, b))
    && (if loose == |shown| then FreesUnneeded(g, m, m1) else Clean(g, m1))
    && (Whole(g, m, shown) ==> Clean(g, m1) && SameUnlessRounded(g, m, shown, m1))
  }

  lemma WholeIsNotHollow(g: Shape, m: Medium, files: seq<File>, a: seq<File>, op: Op, b: seq<File>)
    requires Whole(g, m, files)
    ensures !Hollow(g, m, a, op, b)
  {
    var chains :| Holds(g, m.fat, m.dir, m.data, files, chains);
    if op.MoveTo? {
      forall dst | 0 <= dst < |a| && Doubled(g, m, b, op.src, dst)
        ensures m.dir[op.src].first == 0
      {
        SharedIsEmpty(g, m.fat, m.dir, chains, op.src, dst);
      }
    }
  }

  lemma WholeCut(g: Shape, m: Medium, a: seq<File>, op: Op, b: seq<File>, shown: seq<File>, walks: seq<seq<nat>>, found: Findings, m1: Medium,
                 again: seq<seq<nat>>, second: Findings)
    requires GoodShape(g) && DataFits(g, m.data) && Whole(g, m, shown) && CutShows(g, m, a, op, b, shown, |shown|)
    requires m1.data == m.data && m1.copy == m1.fat
    requires CheckedTo(g, m.fat, m.dir, walks, m1.fat, m1.dir) && CountedTo(g, m, walks, found)
    requires AllWalks(g, m1.fat, m1.dir, again) && CountedTo(g, m1, again, second)
    ensures RecoveredCut(g, m, a, op, b, m1, second, shown, |shown|) && found.crossed == 0
  {
    WholeIsNotHollow(g, m, shown, a, op, b);
    WholeRecovered(g, m, shown, walks, found, m1);
    CleanIsQuiet(g, m1, again, second);
  }

  /** The files a cut shows, chosen. */
  lemma CutRecovered(g: Shape, m: Medium, a: seq<File>, op: Op, b: seq<File>, walks: seq<seq<nat>>, found: Findings, m1: Medium,
                     again: seq<seq<nat>>, second: Findings) returns (shown: seq<File>, loose: nat)
    requires GoodShape(g) && DataFits(g, m.data) && Cut(g, m, a, op, b) && m1.data == m.data && m1.copy == m1.fat
    requires CheckedTo(g, m.fat, m.dir, walks, m1.fat, m1.dir) && CountedTo(g, m, walks, found)
    requires AllWalks(g, m1.fat, m1.dir, again) && CountedTo(g, m1, again, second)
    ensures RecoveredCut(g, m, a, op, b, m1, second, shown, loose)
    ensures found.crossed == 0 || (found.crossed == 1 && CaughtMoving(g, m, a, op, b))
  {
    if Whole(g, m, a) || Whole(g, m, b) {
      shown := if Whole(g, m, a) then a else b;
      loose := |shown|;
      WholeCut(g, m, a, op, b, shown, walks, found, m1, again, second);
    } else if op.Put? && Torn(g, m, a, op.slot, op.offset, op.bytes) {
      var file :| Alike(file, a[op.slot], op.offset, op.bytes) && Whole(g, m, a[op.slot := file]);
      shown := a[op.slot := file];
      loose := |shown|;
      WholeCut(g, m, a, op, b, shown, walks, found, m1, again, second);
    } else if CaughtMoving(g, m, a, op, b) {
      var dst :| 0 <= dst < |a| && Moved(a, op.src, op.name, dst, b) && Doubled(g, m, b, op.src, dst);
      shown := BothNames(m, b, op.src, dst);
      loose := |shown|;
      CaughtRecovered(g, m, a, op, b, dst, walks, found, m1, again, second);
    } else {
      shown, loose := a, op.slot;
      AheadRecovered(g, m, a, op.slot, walks, found, m1);
      CleanIsQuiet(g, m1, again, second);
    }
  }

  lemma CaughtRecovered(g: Shape, m: Medium, a: seq<File>, op: Op, b: seq<File>, dst: nat, walks: seq<seq<nat>>, found: Findings, m1: Medium,
                        again: seq<seq<nat>>, second: Findings)
    requires GoodShape(g) && DataFits(g, m.data) && m1.data == m.data && m1.copy == m1.fat
    requires op.MoveTo? && dst < |a| && Moved(a, op.src, op.name, dst, b) && Doubled(g, m, b, op.src, dst)
    requires CheckedTo(g, m.fat, m.dir, walks, m1.fat, m1.dir) && CountedTo(g, m, walks, found)
    requires AllWalks(g, m1.fat, m1.dir, again) && CountedTo(g, m1, again, second)
    ensures RecoveredCut(g, m, a, op, b, m1, second, BothNames(m, b, op.src, dst), |BothNames(m, b, op.src, dst)|)
    ensures found.crossed <= 1
  {
    var shown := BothNames(m, b, op.src, dst);
    assert NamesShow(g, m, a, op, b, shown);
    if m.dir[op.src].first == 0 {
      DoubledEmptyIsWhole(g, m, b, op.src, dst);
      WholeCut(g, m, a, op, b, shown, walks, found, m1, again, second);
    } else {
      DoubledIsSoundWhenEmpty(g, m, b, op.src, dst);
      DoubledRecovered(g, m, b, op.src, dst, walks, found, m1);
      DoubledAgain(g, m, b, op.src, dst, walks, m1, again, second);
      WholeIsSound(g, m, shown);
    }
  }

  lemma WholeIsSound(g: Shape, m: Medium, files: seq<File>)
    ensures Whole(g, m, files) ==> SoundMedium(g, m)
  {
    if Whole(g, m, files) {
      var chains :| Holds(g, m.fat, m.dir, m.data, files, chains);
      assert Sound(g, m.fat, m.dir, chains);
    }
  }

  ghost predicate RecoveredDuring(g: Shape, m: Medium, log: Log, j: nat, m1: Medium, second: Findings, shown: seq<File>, loose: nat) {
    During(g, m, log, j) && RecoveredCut(g, m, log.trail[j].files, log.ops[j], log.trail[j + 1].files, m1, second, shown, loose)
  }

  /** A medium cut anywhere in a logged run, and which files came through its recovery. */
  ghost predicate RecoveredOnTrail(g: Shape, m: Medium, log: Log, m1: Medium, second: Findings) {
    exists j: nat, shown, loose: nat :: RecoveredDuring(g, m, log, j, m1, second, shown, loose)
  }

  /**
   A mount after a power cut, checked, and checked again: for any run of
   operations and any medium a cut in it leaves. `m1` is the medium after the
   first check.
   */
  method Recover(g: Shape, m: Medium, ghost log: Log) returns (v: Volume, found: Findings, second: Findings, ghost m1: Medium)
    requires GoodShape(g) && Fits(g, m)
    ensures v.Valid() && v.shape == g && v.m.data == m1.data == m.data
    ensures OnTrail(g, m, log) ==> RecoveredOnTrail(g, m, log, m1, second) && found.crossed <= 1
    ensures Quiet(Uncrossed(second)) ==> v.m == m1
  {
    v := new Volume(g, m);
    ghost var n1, n2, w1, w2;
    found, n1, w1 := Check(v);
    m1 := v.m;
    second, n2, w2 := Check(v);
    if OnTrail(g, m, log) {
      ghost var j: nat :| During(g, m, log, j);
      ghost var shown, loose := CutRecovered(g, m, log.trail[j].files, log.ops[j], log.trail[j + 1].files, w1, found, m1, w2, second);
      assert RecoveredDuring(g, m, log, j, m1, second, shown, loose);
    }
  }
}
