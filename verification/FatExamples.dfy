/** Runs on the smallest volumes on which a promise of the design does not hold. */
module FatExamples {
  import opened ByteFields
  import opened FatVolume
  import opened FatTable
  import opened FatVerdict
  import opened FatChains
  import opened FatStore
  import opened FatFiles
  import opened FatHandles
  import opened FatTruncate
  import opened FatSession
  import opened FatCareless
  import opened FatCourse
  import opened FatCheck
  import opened FatClean
  import opened FatDoubled
  import opened FatAgain

  /** Four clusters of one sector. */
  const Small := Shape(4, 512, 1)

  /** A table of nothing but these three entries. */
  function TableOf(second: nat, third: nat, fourth: nat): (f: Table)
    ensures |f| == PER_SECTOR && f[2] == second && f[3] == third && f[4] == fourth && f[5] == FREE
  {
    [TERMINATOR, TERMINATOR, second, third, fourth] + seq(PER_SECTOR - 5, i => FREE)
  }

  function DataOf(b: byte): (d: Clusters)
    ensures DataFits(Small, d)
  {
    seq(6, i => seq(512, j => b))
  }

  function MediumOf(f: Table, dir: seq<Slot>): (m: Medium)
    requires |f| == PER_SECTOR
    ensures Fits(Small, m) && m.fat == m.copy == f && m.dir == dir
  {
    Medium(f, f, DataOf(7), dir)
  }

  /** One file of one byte in one cluster, and one record more to spare. */
  function OneByte(name: string): Medium { MediumOf(TableOf(TERMINATOR, FREE, FREE), [Used(name, 2, 1), Vacant]) }

  /** One file of no clusters, and one record more to spare. */
  function NoBytes(f: Table, name: string): Medium
    requires |f| == PER_SECTOR
  {
    MediumOf(f, [Used(name, 0, 0), Vacant])
  }

  lemma OneByteHolds(name: string)
    ensures Holds(Small, OneByte(name).fat, OneByte(name).dir, OneByte(name).data, [File(name, [7]), NoFile], [[2], []])
    ensures SoundMedium(Small, OneByte(name))
  {
    var m := OneByte(name);
    assert IsChain(Small, m.fat, [2]);
    assert SlotSound(Small, m.fat, m.dir[0], [2]);
    assert Bytes(m.data, [2][..0]) == [] && Bytes(m.data, [2]) == m.data[2];
    assert FileOf(m.dir[0], m.data, [2]).contents == [7];
    assert Sound(Small, m.fat, m.dir, [[2], []]);
  }

  lemma NoBytesHolds(f: Table, name: string)
    requires |f| == PER_SECTOR
    ensures Holds(Small, f, NoBytes(f, name).dir, NoBytes(f, name).data, [File(name, []), NoFile], [[], []])
    ensures SoundMedium(Small, NoBytes(f, name))
  {
    var m := NoBytes(f, name);
    assert IsChain(Small, f, []);
    assert SlotSound(Small, f, m.dir[0], []);
    assert Sound(Small, f, m.dir, [[], []]);
  }

  /** A file renamed, cut between the two record writes: one cluster under two names. */
  method RenamedUnderTwoNames() returns (v: Volume, ghost at: nat)
    ensures SoundMedium(Small, OneByte("old")) && Renaming(Small, [OneByte("old")], v.history, [NoFile, File("new", [7])], 0, 1)
    ensures at < |v.history| && Doubled(Small, v.history[at], [NoFile, File("new", [7])], 0, 1) && !SoundMedium(Small, v.history[at])
  {
    OneByteHolds("old");
    v := new Volume(Small, OneByte("old"));
    ghost var files := [File("old", [7]), NoFile];
    assert Rest(v, [[2], []], files);
    var ok, dst;
    ghost var moved;
    ok, dst, moved, at := Rename(v, 0, "new", [[2], []], files);
    assert !Called(files[0], "new") && !Called(files[1], "new") && files[1] == NoFile;
    assert files[1 := File("new", [7])][0 := NoFile] == [NoFile, File("new", [7])];
  }

  /** The volume of one byte with its file open, and nothing written yet. */
  ghost predicate OneOpen(v: Volume, hands: map<nat, Handle>, name: string)
    reads v
  {
    true == (
      && Desked(v, hands, OpenDesk(name), [[2], []], map[0 := [2]]) && 0 in hands
      && v.shape == Small && v.m == OneByte(name) && v.history == [v.m])
  }

  ghost function OpenDesk(name: string): Desk {
    Desk([File(name, [7]), NoFile], map[0 := View([7], false)])
  }

  method OpenOne(name: string) returns (v: Volume, hands: map<nat, Handle>)
    ensures fresh(v) && OneOpen(v, hands, name)
  {
    OneByteHolds(name);
    v := new Volume(Small, OneByte(name));
    ghost var files, held := [File(name, [7]), NoFile], map[];
    RestIsDesked(v, [[2], []], files);
    hands, held := OpenFile(v, map[], 0, Desk(files, map[]), [[2], []], map[]);
    assert held == map[0 := [2]] && Opens(Desk(files, map[]), 0) == OpenDesk(name);
  }

  /** Of the three other clusters there is one for whoever needs it. */
  lemma OneIsFree(f: Table)
    requires f == OneByte("a").fat
    ensures !NoneFree(Small, f)
  {
    assert IsFree(Small, f, 3);
  }

  /** A file grown from one cluster to two, cut with its record written and its link still in the cache. */
  method GrownPastItsChain() returns (v: Volume, ghost at: nat, ghost longer: seq<byte>)
    ensures SoundMedium(Small, OneByte("a")) && longer == Stored([7], 513, [])
    ensures GrewAt(Small, [OneByte("a")], v.history, at, [File("a", [7]), NoFile], [File("a", longer), NoFile], 0, 513, [2])
    ensures at < |v.history| && !SoundMedium(Small, v.history[at])
  {
    OneByteHolds("a");
    var hands, ok;
    v, hands := OpenOne("a");
    ok, at, longer := GrowOne(v, hands);
    OneIsFree(OneByte("a").fat);
    NotInOne(v.history, at, longer);
  }

  method GrowOne(v: Volume, hands: map<nat, Handle>) returns (ok: bool, ghost at: nat, ghost longer: seq<byte>)
    requires OneOpen(v, hands, "a")
    modifies v`m, v`dirty, v`history, v`cache, v`cacheSector, v`table, v`hint
    ensures !ok ==> NoneFree(Small, OneByte("a").fat)
    ensures longer == Stored([7], 513, [])
    ensures ok ==> GrewAt(Small, [OneByte("a")], v.history, at, [File("a", [7]), NoFile], [File("a", longer), NoFile], 0, 513, [2])
  {
    ghost var d, chains, held := OpenDesk("a"), [[2], []], map[0 := [2]];
    var now;
    HandSize(v, hands, d, chains, held, 0);
    ok, now, chains, held, at := GrowOpen(v, hands, 0, 513, d, chains, held);
    longer := Stored([7], 513, []);
    ResizedOne(longer);
  }

  lemma ResizedOne(contents: seq<byte>)
    ensures Resized(OpenDesk("a"), 0, contents).files == [File("a", contents), NoFile]
  {
  }

  lemma NotInOne(h: seq<Medium>, at: nat, longer: seq<byte>)
    requires GrewAt(Small, [OneByte("a")], h, at, [File("a", [7]), NoFile], [File("a", longer), NoFile], 0, 513, [2])
    ensures at < |h| && !SoundMedium(Small, h[at])
  {
  }

  /** A chain that 513 bytes, or the whole volume, have gone into has a second cluster. */
  lemma TwoAtLeast(f1: Table, held1: map<nat, seq<nat>>, end: nat, reached: bool)
    requires HeldGrew(TableOf(TERMINATOR, FREE, FREE), f1, map[0 := [2]], held1, 0) && end > 512
    requires if reached then end <= 512 * |held1[0]| else FullAt(Small, f1, held1, 0, end)
    ensures |held1[0]| >= 2
  {
    if !reached {
      assert !IsFree(Small, f1, 3);
      assert 3 in held1[0] && 2 in held1[0] by { assert held1[0][0] == 2; }
    }
  }

  /** A file of one byte in a chain of two clusters or more. */
  ghost predicate Slack(m: Medium, chains: seq<seq<nat>>) {
    true == (
      && m.dir == [Used("a", 2, 1), Vacant] && |chains| == 2 && |chains[0]| >= 2
      && Holds(Small, m.fat, m.dir, m.data, [File("a", [7]), NoFile], chains))
  }

  /** Bytes written to a file of one byte, in a second cluster, and a cut before it is closed: the check makes that byte 512. */
  method CheckedIntoSlack() returns (v: Volume, w: Volume, ghost chains: seq<seq<nat>>)
    ensures [OneByte("a")] <= v.history && Slack(v.m, chains)
    ensures CheckedTo(Small, v.m.fat, v.m.dir, chains, w.m.fat, w.m.dir) && w.m.dir == [Used("a", 2, 512), Vacant]
  {
    v, chains := WrittenBehind();
    w := new Volume(Small, v.m);
    var found;
    ghost var m1, walks;
    found, m1, walks := Check(w);
    SlackChecked(v.m, chains, walks, w.m.fat, w.m.dir);
  }

  lemma SlackChecked(m: Medium, chains: seq<seq<nat>>, walks: seq<seq<nat>>, f1: Table, dir1: seq<Slot>)
    requires Slack(m, chains) && CheckedTo(Small, m.fat, m.dir, walks, f1, dir1)
    ensures walks == chains && dir1 == [Used("a", 2, 512), Vacant]
  {
    SoundWalks(Small, m.fat, m.dir, chains, walks);
    SoundIsTidied(Small, m.fat, m.dir, walks, chains, f1, dir1);
    assert ClustersFor(1, 512) == 1;
  }

  /** 512 bytes written behind the one there is, and not yet committed. */
  method WrittenBehind() returns (v: Volume, ghost chains: seq<seq<nat>>)
    ensures fresh(v) && v.Valid() && v.shape == Small && [OneByte("a")] <= v.history && Slack(v.m, chains)
  {
    var hands, ok;
    ghost var d, held;
    v, hands := OpenOne("a");
    ghost var x := seq(512, i => 8);
    ok, hands, d, chains, held := WriteFile(v, hands, 0, 1, seq(512, i => 8), OpenDesk("a"), [[2], []], map[0 := [2]]);
    BehindOne(v, hands, ok, d, chains, held, x);
  }

  lemma BehindOne(v: Volume, hands: map<nat, Handle>, ok: bool, d: Desk, chains: seq<seq<nat>>, held: map<nat, seq<nat>>, x: seq<byte>)
    requires Desked(v, hands, d, chains, held) && v.shape == Small && v.m.dir == [Used("a", 2, 1), Vacant] && |x| == 512
    requires PutDone(OpenDesk("a"), d, 0, 1, x, ok) && HeldGrew(TableOf(TERMINATOR, FREE, FREE), v.m.fat, map[0 := [2]], held, 0)
    requires !ok ==> FullAt(Small, v.m.fat, held, 0, 513)
    ensures v.Valid() && Slack(v.m, chains)
  {
    BehindFiles(d, x, ok);
    HandSize(v, hands, d, chains, held, 0);
    BehindHand(v, hands, d, chains, held);
    if ok { TwoAtLeast(v.m.fat, held, 513, true); } else { TwoAtLeast(v.m.fat, held, 513, false); }
  }

  /** Behind a record's end nothing shows. */
  lemma BehindFiles(d: Desk, x: seq<byte>, ok: bool)
    requires PutDone(OpenDesk("a"), d, 0, 1, x, ok) && |x| == 512
    ensures d.files == [File("a", [7]), NoFile] && 0 in d.open && (ok ==> |d.open[0].contents| == 513)
  {
    PartlyHidden([7], d.files[0].contents, 1, x);
  }

  lemma BehindHand(v: Volume, hands: map<nat, Handle>, d: Desk, chains: seq<seq<nat>>, held: map<nat, seq<nat>>)
    requires Desked(v, hands, d, chains, held) && 0 in hands && v.m.dir == [Used("a", 2, 1), Vacant] && v.shape == Small
    ensures v.Valid() && 0 in d.open && 0 in held && |chains| == 2 && chains[0] == held[0] && hands[0].size <= 512 * |held[0]|
    ensures Holds(Small, v.m.fat, v.m.dir, v.m.data, d.files, chains)
  {
    assert Hand(v.shape, v.m, chains, 0, hands[0], held[0], d.open[0]);
    LedThere(Small, v.m, chains, 0, hands[0], held[0], d.open[0]);
    HandBytes(Small, v.m, chains, 0, hands[0], held[0], d.open[0]);
  }

  /** The one file, open under the name "a" on this medium, has been written, and its record not yet. */
  ghost predicate WrittenOpen(v: Volume, hands: map<nat, Handle>, d: Desk, chains: seq<seq<nat>>, held: map<nat, seq<nat>>, m: Medium, contents: seq<byte>)
    reads v
  {
    true == (
      && Desked(v, hands, d, chains, held) && v.shape == Small && v.m.dir == m.dir && [m] <= v.history
      && 0 in hands && hands[0].dirty && 0 in d.open && d.open[0].contents == contents
      && |d.files| == 2 && Called(d.files[0], "a") && d.files[1] == NoFile)
  }

  method WriteOpen(v: Volume, hands: map<nat, Handle>, x: byte, ghost was: seq<byte>, ghost chains: seq<seq<nat>>, ghost held: map<nat, seq<nat>>)
    returns (now: map<nat, Handle>, ghost d: Desk, ghost c1: seq<seq<nat>>, ghost held1: map<nat, seq<nat>>)
    requires Desked(v, hands, Desk([File("a", was), NoFile], map[0 := View(was, false)]), chains, held) && 0 in hands
    requires v.shape == Small && v.history == [v.m] && !NoneFree(Small, v.m.fat)
    modifies v`m, v`dirty, v`history, v`cache, v`cacheSector, v`table, v`hint
    ensures WrittenOpen(v, now, d, c1, held1, old(v.m), Stored(was, 0, [x]))
  {
    var ok;
    ghost var m, d0 := v.m, Desk([File("a", was), NoFile], map[0 := View(was, false)]);
    ok, now, d, c1, held1 := WriteFile(v, hands, 0, 0, [x], d0, chains, held);
    RoomForOne(m.fat, v.m.fat, held, held1);
    OpenWritten(d0, d, x, ok);
    HandHeld(v, now, 0, d, c1, held1);
  }

  lemma RoomForOne(f0: Table, f1: Table, held: map<nat, seq<nat>>, held1: map<nat, seq<nat>>)
    requires HeldGrew(f0, f1, held, held1, 0) && !NoneFree(Small, f0)
    ensures !FullAt(Small, f1, held1, 0, 1)
  {
    var c: nat :| IsFree(Small, f0, c);
    assert held1[0] == [] ==> IsFree(Small, f1, c);
  }

  lemma OpenWritten(d0: Desk, d: Desk, x: byte, ok: bool)
    requires PutDone(d0, d, 0, 0, [x], ok) && |d0.files| == 2 && Called(d0.files[0], "a") && d0.files[1] == NoFile
    ensures |d.files| == 2 && Called(d.files[0], "a") && d.files[1] == NoFile && 0 in d0.open && 0 in d.open
    ensures ok ==> d.open[0] == View(Stored(d0.open[0].contents, 0, [x]), true)
  {
  }

  /** The file deleted, another made with its record, and the handle closed. */
  method RemoveUnderOne(v: Volume, hands: map<nat, Handle>, ghost d: Desk, ghost chains: seq<seq<nat>>, ghost held: map<nat, seq<nat>>,
                        ghost m: Medium, ghost contents: seq<byte>)
    requires WrittenOpen(v, hands, d, chains, held, m, contents) && |m.dir| == 2 && m.dir[0].Used?
    modifies v`m, v`dirty, v`history, v`cache, v`cacheSector, v`table
    ensures [m] <= v.history && (SoundMedium(Small, v.m) <==> m.dir[0].first == 0)
    ensures m.dir[0].first == 0 ==> Whole(Small, v.m, [File("b", contents), NoFile])
  {
    var made, at;
    ghost var after;
    made, at, after := RemovedUnder(v, hands, 0, "b", d, chains, held);
    RecordAgain(d.files, made, at, after, contents);
  }

  lemma RecordAgain(files: seq<File>, made: bool, at: nat, after: seq<File>, contents: seq<byte>)
    requires |files| == 2 && Called(files[0], "a") && files[1] == NoFile
    requires made <==> forall k :: 0 <= k < |files| && k != 0 ==> !Called(files[k], "b")
    requires made ==> FirstVacant(files[0 := NoFile], at)
    requires made ==> after == files[0 := NoFile][at := File("b", [])]
    ensures made && at == 0 && after[0 := File("b", contents)] == [File("b", contents), NoFile]
  {
    assert files[0 := NoFile][0] == NoFile;
  }

  /** A file deleted while a handle on it has written, and its record given to another: closing the handle makes that name a free cluster. */
  method StaleHandle() returns (v: Volume)
    ensures [OneByte("a")] <= v.history && SoundMedium(Small, OneByte("a")) && !SoundMedium(Small, v.m)
  {
    OneByteHolds("a");
    OneIsFree(OneByte("a").fat);
    var hands;
    ghost var d, chains, held;
    v, hands := OpenOne("a");
    hands, d, chains, held := WriteOpen(v, hands, 8, [7], [[2], []], map[0 := [2]]);
    RemoveUnderOne(v, hands, d, chains, held, OneByte("a"), Stored([7], 0, [8]));
  }

  /** The same where the file had no clusters when it was opened: the other's name shows what was written to the first. */
  method StaleBytes() returns (v: Volume)
    ensures [NoBytes(AllFree(), "a")] <= v.history && SoundMedium(Small, NoBytes(AllFree(), "a"))
    ensures Whole(Small, v.m, [File("b", [9]), NoFile])
  {
    NoBytesHolds(AllFree(), "a");
    assert IsFree(Small, AllFree(), 3);
    var hands;
    ghost var d, chains, held;
    v, hands := OpenNone(AllFree(), "a");
    hands, d, chains, held := WriteOpen(v, hands, 9, [], [[], []], map[0 := []]);
    RemoveUnderOne(v, hands, d, chains, held, NoBytes(AllFree(), "a"), Stored([], 0, [9]));
    StoredFirst(9);
  }

  lemma StoredFirst(x: byte)
    ensures Stored([], 0, [x]) == [x]
  {
  }

  function AllFree(): (f: Table)
    ensures |f| == PER_SECTOR
  {
    TableOf(FREE, FREE, FREE)
  }

  method OpenNone(f: Table, name: string) returns (v: Volume, hands: map<nat, Handle>)
    requires |f| == PER_SECTOR
    ensures fresh(v) && v.shape == Small && v.m == NoBytes(f, name) && v.history == [v.m] && 0 in hands
    ensures Desked(v, hands, Desk([File(name, []), NoFile], map[0 := View([], false)]), [[], []], map[0 := []])
  {
    NoBytesHolds(f, name);
    v := new Volume(Small, NoBytes(f, name));
    ghost var files, held := [File(name, []), NoFile], map[];
    RestIsDesked(v, [[], []], files);
    hands, held := OpenFile(v, map[], 0, Desk(files, map[]), [[], []], map[]);
    assert held == map[0 := []] && Opens(Desk(files, map[]), 0) == Desk(files, map[0 := View([], false)]);
  }

  /** A table with one free cluster. */
  function OneFree(): (f: Table)
    ensures |f| == PER_SECTOR && f[5] == FREE
  {
    TableOf(BAD, BAD, BAD)
  }

  /** An empty file whose handle, after a write that failed and one of nothing, holds the only cluster. */
  ghost predicate HollowOpen(v: Volume, hands: map<nat, Handle>, d: Desk, chains: seq<seq<nat>>, held: map<nat, seq<nat>>, dirty: bool)
    reads v
  {
    true == (
      && Desked(v, hands, d, chains, held) && v.shape == Small && v.m.dir == [Used("old", 0, 0), Vacant] && NoneFree(Small, v.m.fat)
      && d == Desk([File("old", []), NoFile], map[0 := View([], dirty)]) && held == map[0 := [5]] && 0 in hands)
  }

  /** Of a write of more than the volume has, nothing is kept but the cluster. */
  lemma OnlyCluster(f1: Table, cs: seq<nat>, size: nat, ok: bool)
    requires Spared(OneFree(), f1, [], cs) && IsChain(Small, f1, cs) && size <= 512 * |cs|
    requires if ok then size == 600 else NoneFree(Small, f1) && 512 * |cs| < 600
    ensures !ok && cs == [5]
  {
    forall i | 0 <= i < |cs|
      ensures cs[i] == 5
    {
      assert cs[i] in cs;
    }
    DistinctBounded(cs, 5, 6);
    if cs == [] { assert IsFree(Small, f1, 5); }
  }

  lemma NothingMore(f1: Table, f2: Table, cs: seq<nat>)
    requires Spared(f1, f2, [5], cs) && [5] <= cs && IsChain(Small, f2, cs) && NoneFree(Small, f1)
    ensures cs == [5]
  {
    assert |cs| > 1 ==> cs[1] in cs && cs[0] != cs[1] && !IsFree(Small, f1, cs[1]);
  }

  lemma EmptyView(d0: Desk, d: Desk, x: seq<byte>, ok: bool)
    requires PutDone(d0, d, 0, 0, x, ok) && d0.files == [File("old", []), NoFile] && d0.open.Keys == {0} && d0.open[0] == View([], false)
    requires !ok || x == []
    ensures d == Desk([File("old", []), NoFile], map[0 := View([], ok)])
  {
    assert d.open == map[0 := d.open[0]];
    assert d.files[0].contents == [];
  }

  lemma HeldChain(v: Volume, hands: map<nat, Handle>, d: Desk, chains: seq<seq<nat>>, held: map<nat, seq<nat>>)
    requires Desked(v, hands, d, chains, held) && 0 in hands && v.shape == Small
    ensures 0 in held && 0 in d.open && IsChain(Small, v.m.fat, held[0]) && |d.open[0].contents| <= 512 * |held[0]|
  {
    assert Hand(v.shape, v.m, chains, 0, hands[0], held[0], d.open[0]);
    HandBytes(Small, v.m, chains, 0, hands[0], held[0], d.open[0]);
  }

  /** 600 bytes written, for which there is no room, and then nothing at all. */
  method WriteInVain() returns (v: Volume, hands: map<nat, Handle>, ghost d: Desk, ghost chains: seq<seq<nat>>, ghost held: map<nat, seq<nat>>)
    ensures fresh(v) && [NoBytes(OneFree(), "old")] <= v.history && HollowOpen(v, hands, d, chains, held, true)
  {
    var ok;
    v, hands := OpenNone(OneFree(), "old");
    ghost var d0, x := Desk([File("old", []), NoFile], map[0 := View([], false)]), seq(600, i => 8);
    ok, hands, d, chains, held := WriteFile(v, hands, 0, 0, seq(600, i => 8), d0, [[], []], map[0 := []]);
    FailedWrite(v, hands, d, chains, held, x, ok);
    hands, d, chains, held := WriteNothing(v, hands, d, chains, held);
  }

  lemma FailedWrite(v: Volume, hands: map<nat, Handle>, d: Desk, chains: seq<seq<nat>>, held: map<nat, seq<nat>>, x: seq<byte>, ok: bool)
    requires Desked(v, hands, d, chains, held) && v.shape == Small && v.m.dir == [Used("old", 0, 0), Vacant] && |x| == 600
    requires PutDone(Desk([File("old", []), NoFile], map[0 := View([], false)]), d, 0, 0, x, ok)
    requires HeldGrew(OneFree(), v.m.fat, map[0 := []], held, 0) && (!ok ==> FullAt(Small, v.m.fat, held, 0, 600))
    ensures HollowOpen(v, hands, d, chains, held, false)
  {
    HandsAreOpen(v, hands, d, chains, held);
    HeldChain(v, hands, d, chains, held);
    OnlyCluster(v.m.fat, held[0], |d.open[0].contents|, ok);
    EmptyView(Desk([File("old", []), NoFile], map[0 := View([], false)]), d, x, ok);
    assert held == map[0 := [5]];
  }

  method WriteNothing(v: Volume, hands: map<nat, Handle>, ghost d: Desk, ghost chains: seq<seq<nat>>, ghost held: map<nat, seq<nat>>)
    returns (now: map<nat, Handle>, ghost d1: Desk, ghost c1: seq<seq<nat>>, ghost held1: map<nat, seq<nat>>)
    requires HollowOpen(v, hands, d, chains, held, false)
    modifies v`m, v`dirty, v`history, v`cache, v`cacheSector, v`table, v`hint
    ensures old(v.history) <= v.history && HollowOpen(v, now, d1, c1, held1, true)
  {
    var ok;
    ghost var f1 := v.m.fat;
    ok, now, d1, c1, held1 := WriteFile(v, hands, 0, 0, [], d, chains, held);
    NothingWrittenTo(v, now, d, d1, c1, held1, f1);
  }

  lemma NothingWrittenTo(v: Volume, hands: map<nat, Handle>, d: Desk, d1: Desk, chains: seq<seq<nat>>, held: map<nat, seq<nat>>, f1: Table)
    requires Desked(v, hands, d1, chains, held) && v.shape == Small && v.m.dir == [Used("old", 0, 0), Vacant]
    requires d == Desk([File("old", []), NoFile], map[0 := View([], false)]) && PutDone(d, d1, 0, 0, [], true)
    requires HeldGrew(f1, v.m.fat, map[0 := [5]], held, 0) && NoneFree(Small, f1)
    ensures HollowOpen(v, hands, d1, chains, held, true)
  {
    HandsAreOpen(v, hands, d1, chains, held);
    HeldChain(v, hands, d1, chains, held);
    NothingMore(f1, v.m.fat, held[0]);
    EmptyView(d, d1, [], true);
    assert held == map[0 := [5]];
    forall c: nat
      ensures !IsFree(Small, v.m.fat, c)
    {
      if c == 5 { assert 5 in held[0]; LinkInChain(Small, v.m.fat, held[0], 0); } else { assert !IsFree(Small, f1, c); }
    }
  }

  /** The record of a file with a cluster and no bytes. */
  ghost predicate Hollowed(v: Volume, chains: seq<seq<nat>>)
    reads v
  {
    true == (v.shape == Small && v.m.dir == [Used("old", 5, 0), Vacant] && Rest(v, chains, [File("old", []), NoFile]))
  }

  method CloseHollow(v: Volume, hands: map<nat, Handle>, ghost d: Desk, ghost chains: seq<seq<nat>>, ghost held: map<nat, seq<nat>>)
    returns (ghost c1: seq<seq<nat>>)
    requires HollowOpen(v, hands, d, chains, held, true)
    modifies v`m, v`history
    ensures old(v.history) <= v.history && Hollowed(v, c1)
  {
    ghost var held1;
    var now;
    HandSize(v, hands, d, chains, held, 0);
    HandHeld(v, hands, 0, d, chains, held);
    FirstHeld(v.shape, v.m, chains, 0, hands[0], held[0], d.open[0]);
    now, c1, held1 := CloseFile(v, hands, 0, d, chains, held);
    assert Closes(d, 0).files == [File("old", []), NoFile];
  }

  lemma FirstHeld(g: Shape, m: Medium, chains: seq<seq<nat>>, slot: nat, h: Handle, cs: seq<nat>, view: View)
    requires Hand(g, m, chains, slot, h, cs, view) && cs != []
    ensures h.first == cs[0]
  {
  }

  /** Two records of one cluster and no bytes. */
  lemma HollowTwice(f: Table, chains: seq<seq<nat>>, dir: seq<Slot>)
    requires Sound(Small, f, [Used("old", 5, 0), Vacant], chains) && dir == [Used("old", 5, 0), Used("new", 5, 0)]
    ensures Twice(Small, f, dir, [chains[0], chains[0]], 0, 1) && chains[0] != [] && chains[0][0] == 5
  {
    assert SlotSound(Small, f, [Used("old", 5, 0), Vacant][0], chains[0]);
    assert SlotSound(Small, f, dir[0], chains[0]) && SlotSound(Small, f, dir[1], chains[0]);
  }

  lemma HollowChecked(m: Medium, chains: seq<seq<nat>>, walks: seq<seq<nat>>, f1: Table, dir1: seq<Slot>)
    requires Twice(Small, m.fat, m.dir, chains, 0, 1) && CheckedTo(Small, m.fat, m.dir, walks, f1, dir1)
    requires m.dir == [Used("old", 5, 0), Used("new", 5, 0)] && chains[1] != [] && chains[1][0] == 5
    ensures |dir1| == 2 && dir1[1] == Used("new", 5, 0) && 5 < |f1| && f1[5] == FREE
  {
    WholeWalks(Small, m.fat, m.dir, chains, walks);
    TwiceIsChecked(Small, m.fat, m.dir, chains, 0, 1, f1, dir1);
    TwiceLost(Small, m.fat, m.dir, chains, 0, 1, f1, dir1);
  }

  /** A write that fails, one of nothing, a close, and a cut in the rename: the check frees the cluster, and one name still leads there. */
  method HollowFileLost() returns (v: Volume, w: Volume, ghost at: nat, ghost walks: seq<seq<nat>>)
    ensures [NoBytes(OneFree(), "old")] <= v.history && at < |v.history|
    ensures Doubled(Small, v.history[at], [NoFile, File("new", [])], 0, 1)
    ensures CheckedTo(Small, v.history[at].fat, v.history[at].dir, walks, w.m.fat, w.m.dir)
    ensures |w.m.dir| == 2 && w.m.dir[1] == Used("new", 5, 0) && 5 < |w.m.fat| && w.m.fat[5] == FREE
  {
    var hands, found;
    ghost var d, chains, held, m1;
    v, hands, d, chains, held := WriteInVain();
    chains := CloseHollow(v, hands, d, chains, held);
    var cut;
    cut, at := RenameHollow(v, chains);
    w := new Volume(Small, cut);
    found, m1, walks := Check(w);
    HollowTwice(cut.fat, chains, cut.dir);
    HollowChecked(cut, [chains[0], chains[0]], walks, w.m.fat, w.m.dir);
  }

  method RenameHollow(v: Volume, ghost chains: seq<seq<nat>>) returns (cut: Medium, ghost at: nat)
    requires Hollowed(v, chains)
    modifies v`m, v`dirty, v`history, v`cache, v`cacheSector, v`table
    ensures old(v.history) <= v.history && at < |v.history| && v.history[at] == cut && Fits(Small, cut)
    ensures cut == old(v.m).(dir := [Used("old", 5, 0), Used("new", 5, 0)]) && Sound(Small, cut.fat, old(v.m.dir), chains)
    ensures Doubled(Small, cut, [NoFile, File("new", [])], 0, 1) && old(v.m.dir) == [Used("old", 5, 0), Vacant]
  {
    ghost var files, moved := [File("old", []), NoFile], chains;
    cut := Repointed(v.m, 0, 1, "new");
    var ok, dst;
    ok, dst, moved, at := Rename(v, 0, "new", chains, files);
    assert !Called(files[0], "new") && !Called(files[1], "new") && files[1] == NoFile;
    assert files[1 := File("new", [])][0 := NoFile] == [NoFile, File("new", [])];
  }

  /** Two records whose chains meet: cutting the first to its size frees a cluster the second, whole until then, needs. */
  method SharedTailFreed() returns (v: Volume, ghost m: Medium, ghost walks: seq<seq<nat>>)
    ensures m.fat == TableOf(3, TERMINATOR, 3) && m.dir == [Used("a", 2, 1), Used("b", 4, 1024)]
    ensures SlotSound(Small, m.fat, m.dir[0], [2, 3]) && SlotSound(Small, m.fat, m.dir[1], [4, 3])
    ensures CheckedTo(Small, m.fat, m.dir, walks, v.m.fat, v.m.dir)
    ensures |v.m.dir| == 2 && v.m.dir[1] == Used("b", 4, 1024) && |v.m.fat| == PER_SECTOR && v.m.fat[4] == 3 && v.m.fat[3] == FREE
    ensures LedAstray(Small, m.fat, m.dir, walks, 1)
  {
    m := MediumOf(TableOf(3, TERMINATOR, 3), [Used("a", 2, 1), Used("b", 4, 1024)]);
    v := new Volume(Small, MediumOf(TableOf(3, TERMINATOR, 3), [Used("a", 2, 1), Used("b", 4, 1024)]));
    assert IsChain(Small, m.fat, [2, 3]) && IsChain(Small, m.fat, [4, 3]);
    assert SlotSound(Small, m.fat, m.dir[0], [2, 3]) && SlotSound(Small, m.fat, m.dir[1], [4, 3]);
    var found;
    ghost var m1;
    found, m1, walks := Check(v);
    WholeWalks(Small, m.fat, m.dir, [[2, 3], [4, 3]], walks);
    SharedTailTold(m, v.m.fat, v.m.dir);
  }

  lemma SharedTailTold(m: Medium, f1: Table, dir1: seq<Slot>)
    requires m.fat == TableOf(3, TERMINATOR, 3) && m.dir == [Used("a", 2, 1), Used("b", 4, 1024)]
    requires CheckedTo(Small, m.fat, m.dir, [[2, 3], [4, 3]], f1, dir1)
    ensures dir1[1] == Used("b", 4, 1024) && f1[4] == 3 && f1[3] == FREE
    ensures LedAstray(Small, m.fat, m.dir, [[2, 3], [4, 3]], 1)
  {
    var walks := [[2, 3], [4, 3]];
    assert 3 in walks[0] && 3 in walks[1] && Met(walks, 1, 3);
    assert Contests(walks, 1) && !Contests(walks, 0);
    assert Dealt(Small, m.fat, m.dir, walks, f1, dir1, 0) && Dealt(Small, m.fat, m.dir, walks, f1, dir1, 1);
    assert SlotSound(Small, m.fat, m.dir[0], [2, 3]) by { assert IsChain(Small, m.fat, [2, 3]); }
    AnswerSound(Small, m.fat, m.dir[0], [2, 3]);
    assert ClustersFor(1, 512) == 1;
    assert 4 in walks[1] && Met(walks, 2, 4) && LeftAlone(walks, 2, 4);
    assert EntersAt(walks, 1, 1) && Spent(Small, m.fat, m.dir, walks, 1, 3);
  }
}
