/**
 What the loader finds out below 1 MiB: the A20 line, the memory map and the
 ACPI root pointer, and the BootInfo it writes them into.
 */
module BootTables {
  import opened ByteFields
  import opened BootMemory
  import opened BootMachine

  // BootInfo, absolute
  const BI_MAGIC: nat := BOOTINFO
  const BI_VERSION: nat := BOOTINFO + 4
  const BI_SOURCE: nat := BOOTINFO + 6
  const BI_KERNEL_PHYS: nat := BOOTINFO + 8
  const BI_KERNEL_LEN: nat := BOOTINFO + 12
  const BI_ROOTFS_PHYS: nat := BOOTINFO + 16
  const BI_ROOTFS_LEN: nat := BOOTINFO + 20
  const BI_RSDP: nat := BOOTINFO + 24
  const BI_DISK_SIG: nat := BOOTINFO + 28
  const BI_BOOT_PART: nat := BOOTINFO + 32
  const BI_CMDLINE_LEN: nat := BOOTINFO + 34
  const BI_CMDLINE: nat := BOOTINFO + 36
  const BI_LOG_LEN: nat := BOOTINFO + 292
  const BI_MMAP_LEN: nat := BOOTINFO + 300
  const BI_MMAP: nat := BOOTINFO + 304
  const BI_FB_ADDR: nat := BOOTINFO + 1072
  const BI_FB_WIDTH: nat := BOOTINFO + 1076
  const BI_FB_HEIGHT: nat := BOOTINFO + 1078
  const BI_FB_PITCH: nat := BOOTINFO + 1080
  const BI_FB_BPP: nat := BOOTINFO + 1082
  const BI_FONT_ADDR: nat := BOOTINFO + 1084

  const BOOTINFO_MAGIC: nat := 0x0EEE_B007
  const BOOTINFO_VERSION: nat := 2
  const MEMRANGE_SIZE: nat := 24
  const MAX_MMAP: nat := 32

  // ------------------------------------------------------------------
  // A20
  // ------------------------------------------------------------------

  /** The probe: two writes 1 MiB apart, and both bytes put back whatever it saw. */
  method TestA20(m: Machine) returns (carry: bool)
    modifies m`mem
    ensures carry == !m.a20
    ensures m.mem == old(m.mem)
  {
    var low, high := m.Physical(0x0500), m.Physical(0x10_0500);
    var al := m.mem[low];
    var ah := m.mem[high];
    m.mem := m.mem[low := 0x00];
    m.mem := m.mem[high := 0xFF];
    carry := m.mem[low] == 0xFF;
    m.mem := m.mem[high := ah];
    m.mem := m.mem[low := al];
  }

  /** The BIOS service, then the fast gate; success means the line is really open. */
  method EnableA20(m: Machine) returns (carry: bool)
    modifies m`mem, m`a20, m`flat, m`calls
    ensures carry == !m.a20
    ensures carry <==>
      !old(m.a20) && !m.bios.a20Service && ((m.bios.gate92 / 2) % 2 == 1 || !m.bios.gateWorks)
    ensures KeepsBut(old(m.mem), m.mem, 0, 0)
  {
    carry := TestA20(m);
    if !carry { return; }
    m.Interrupt();
    m.a20 := m.bios.a20Service;
    carry := TestA20(m);
    if !carry { return; }
    if (m.bios.gate92 / 2) % 2 == 0 {
      m.a20 := m.bios.gateWorks;
    }
    carry := TestA20(m);
  }

  // ------------------------------------------------------------------
  // BootInfo, cleared
  // ------------------------------------------------------------------

  method ZeroBootInfo(m: Machine)
    modifies m`mem
    ensures Dword(m.mem, BI_MAGIC) == BOOTINFO_MAGIC
    ensures Word(m.mem, BI_VERSION) == BOOTINFO_VERSION
    ensures forall i :: BI_SOURCE <= i < BOOTINFO + BOOTINFO_SIZE ==> m.mem[i] == 0
    ensures KeepsBut(old(m.mem), m.mem, BOOTINFO, BOOTINFO + BOOTINFO_SIZE)
    ensures Keeps(old(m.mem), m.mem, MIB, ADDRESSES)
  {
    m.mem := Put(m.mem, BOOTINFO, Zeros(BOOTINFO_SIZE));
    m.mem := Put(m.mem, BI_MAGIC, Dword4(BOOTINFO_MAGIC));
    m.mem := Put(m.mem, BI_VERSION, Word2(BOOTINFO_VERSION));
    m.mem := Put(m.mem, BI_SOURCE, Word2(0));
  }

  // ------------------------------------------------------------------
  // E820
  // ------------------------------------------------------------------

  /** The answers that count: up to the first refusal, or the last the BIOS announces. */
  function Live(answers: seq<E820Answer>): seq<E820Answer> {
    if answers == [] || answers[0].carry || !answers[0].signed then []
    else if answers[0].next == 0 then [answers[0]]
    else [answers[0]] + Live(answers[1..])
  }

  /** Not empty, and not marked invalid by a responder that has the mark. */
  predicate Usable(a: E820Answer)
    requires |a.entry| == 20 || |a.entry| == 24
  {
    && (exists i | 8 <= i < 16 :: a.entry[i] != 0)
    && (|a.entry| == 24 ==> a.entry[20] % 2 == 1)
  }

  ghost predicate Sized(answers: seq<E820Answer>) {
    forall i :: 0 <= i < |answers| ==> |answers[i].entry| == 20 || |answers[i].entry| == 24
  }

  /** The base, length and type of every usable answer, in order. */
  function Ranges(answers: seq<E820Answer>): (r: seq<seq<byte>>)
    requires Sized(answers)
    ensures forall i :: 0 <= i < |r| ==> |r[i]| == 20
  {
    if answers == [] then []
    else (if Usable(answers[0]) then [answers[0].entry[..20]] else []) + Ranges(answers[1..])
  }

  lemma {:induction false} LiveIsSized(answers: seq<E820Answer>)
    requires Sized(answers)
    ensures Sized(Live(answers))
  {
    if answers != [] && !answers[0].carry && answers[0].signed && answers[0].next != 0 {
      LiveIsSized(answers[1..]);
    }
  }

  /** The memory map a boot should report. */
  ghost function MemoryMap(b: Bios): (r: seq<seq<byte>>)
    ensures |r| <= MAX_MMAP && forall i :: 0 <= i < |r| ==> |r[i]| == 20
  {
    LiveIsSized(b.e820);
    var all := Ranges(Live(b.e820));
    if |all| <= MAX_MMAP then all else all[..MAX_MMAP]
  }

  /** BootInfo's table entry `j` is `range`, with its last four bytes zero. */
  ghost predicate EntryIs(mem: Memory, j: nat, range: seq<byte>) {
    && j < MAX_MMAP && |range| == 20
    && var at := BI_MMAP + MEMRANGE_SIZE * j;
       mem[at..at + 20] == range && mem[at + 20..at + 24] == Zeros(4)
  }

  ghost predicate MapIs(mem: Memory, ranges: seq<seq<byte>>) {
    |ranges| <= MAX_MMAP &&
    (forall j :: 0 <= j < |ranges| ==> EntryIs(mem, j, ranges[j])) &&
    (forall i :: BI_MMAP + MEMRANGE_SIZE * |ranges| <= i < BI_FB_ADDR ==> mem[i] == 0)
  }

  lemma MapFrame(m0: Memory, m1: Memory, ranges: seq<seq<byte>>)
    requires MapIs(m0, ranges) && Keeps(m0, m1, BI_MMAP, BI_FB_ADDR)
    ensures MapIs(m1, ranges)
  {
    forall j | 0 <= j < |ranges| ensures EntryIs(m1, j, ranges[j]) {
      assert EntryIs(m0, j, ranges[j]);
      var at := BI_MMAP + MEMRANGE_SIZE * j;
      assert m1[at..at + 20] == m0[at..at + 20];
      assert m1[at + 20..at + 24] == m0[at + 20..at + 24];
    }
  }

  lemma MapGrows(m0: Memory, ranges: seq<seq<byte>>, range: seq<byte>)
    requires MapIs(m0, ranges) && |ranges| < MAX_MMAP && |range| == 20
    ensures MapIs(Put(m0, BI_MMAP + MEMRANGE_SIZE * |ranges|, range), ranges + [range])
  {
    var at := BI_MMAP + MEMRANGE_SIZE * |ranges|;
    var m1 := Put(m0, at, range);
    var all := ranges + [range];
    forall j | 0 <= j < |all| ensures EntryIs(m1, j, all[j]) {
      var a := BI_MMAP + MEMRANGE_SIZE * j;
      if j < |ranges| {
        assert EntryIs(m0, j, ranges[j]);
        assert m1[a..a + 20] == m0[a..a + 20];
        assert m1[a + 20..a + 24] == m0[a + 20..a + 24];
      } else {
        assert m1[a..a + 20] == range;
        assert m1[a + 20..a + 24] == Zeros(4);
      }
    }
  }

  /** INT 15h AX=E820 into the scratch entry, whose attribute starts out valid. */
  method AskE820(m: Machine, a: E820Answer) returns (keep: bool)
    requires (|a.entry| == 20 || |a.entry| == 24)
    modifies m`mem, m`flat, m`calls
    ensures keep == Usable(a)
    ensures m.mem[E820_BUF..E820_BUF + 20] == a.entry[..20]
    ensures KeepsBut(old(m.mem), m.mem, E820_BUF, E820_BUF + 24)
    ensures m.calls == old(m.calls) + 1 && LeftBy(m.bios, m.mem, old(m.calls))
  {
    m.mem := Put(m.mem, E820_BUF + 20, Dword4(1));
    assert m.mem[E820_BUF + 20] == 1;
    m.InterruptInto(E820_BUF, a.entry);
    keep := JudgeRange(m.mem, a);
  }

  /** The two tests on the scratch entry. */
  method JudgeRange(mem: Memory, a: E820Answer) returns (keep: bool)
    requires (|a.entry| == 20 || |a.entry| == 24)
    requires forall i :: E820_BUF <= i < E820_BUF + |a.entry| ==> mem[i] == a.entry[i - E820_BUF]
    requires |a.entry| == 20 ==> mem[E820_BUF + 20] == 1
    ensures keep == Usable(a)
    ensures mem[E820_BUF..E820_BUF + 20] == a.entry[..20]
  {
    var length := Dword(mem, E820_BUF + 8) + Dword(mem, E820_BUF + 12);
    keep := length != 0 && mem[E820_BUF + 20] % 2 == 1;
    assert length == Dword(a.entry, 8) + Dword(a.entry, 12);
    LengthIsZero(a.entry);
  }

  lemma LengthIsZero(entry: seq<byte>)
    requires |entry| >= 20
    ensures Dword(entry, 8) + Dword(entry, 12) == 0 <==> !(exists i | 8 <= i < 16 :: entry[i] != 0)
  {
    if Dword(entry, 8) + Dword(entry, 12) != 0 {
      assert entry[8] != 0 || entry[9] != 0 || entry[10] != 0 || entry[11] != 0 ||
             entry[12] != 0 || entry[13] != 0 || entry[14] != 0 || entry[15] != 0;
    }
  }

  predicate InMap(i: nat) {
    BI_MMAP_LEN <= i < BI_FB_ADDR || E820_BUF <= i < E820_BUF + 24
  }

  /** Only the map, its length, the scratch entry and the BIOS's own memory changed. */
  ghost predicate KeepsButMap(m0: Memory, m1: Memory) {
    forall i :: 0 <= i < |m0| && !BiosOwned(i) && !InMap(i) ==> m1[i] == m0[i]
  }

  /** What one answer adds to the map. */
  ghost function Kept(a: E820Answer): seq<seq<byte>>
    requires |a.entry| == 20 || |a.entry| == 24
  {
    if !a.carry && a.signed && Usable(a) then [a.entry[..20]] else []
  }

  predicate Last(a: E820Answer) { a.carry || !a.signed || a.next == 0 }

  /** One answer: asked for, judged, and copied into the next table entry if it is kept. */
  method TakeRange(m: Machine, a: E820Answer, si: nat, ghost found: seq<seq<byte>>) returns (si': nat)
    requires (|a.entry| == 20 || |a.entry| == 24)
    requires MapIs(m.mem, found) && si == |found| < MAX_MMAP
    modifies m`mem, m`flat, m`calls
    ensures KeepsButMap(old(m.mem), m.mem)
    ensures MapIs(m.mem, found + Kept(a)) && si' == |found + Kept(a)|
    ensures m.calls == old(m.calls) + 1 && LeftBy(m.bios, m.mem, old(m.calls))
  {
    var keep := AskE820(m, a);
    MapFrame(old(m.mem), m.mem, found);
    si' := si;
    assert found + [] == found;
    if !a.carry && a.signed && keep {
      MapGrows(m.mem, found, a.entry[..20]);
      m.mem := Put(m.mem, BI_MMAP + MEMRANGE_SIZE * si, m.mem[E820_BUF..E820_BUF + 20]);
      si' := si + 1;
    }
  }

  // ------------------------------------------------------------------
  // The map by positions
  // ------------------------------------------------------------------

  /** Answer `k` is a range: the BIOS gave it, says so, and its length is not zero; no attribute marks it invalid. */
  predicate GivesRange(answers: seq<E820Answer>, k: nat)
    requires Sized(answers) && k < |answers|
  {
    var a := answers[k];
    && !a.carry && a.signed
    && (Dword(a.entry, 8) != 0 || Dword(a.entry, 12) != 0)
    && (|a.entry| == 20 || a.entry[20] % 2 != 0)
  }

  /** The BIOS is asked for answer `k`: every one before it was given, and named another behind it. */
  ghost predicate AskedFor(answers: seq<E820Answer>, k: nat)
    requires k < |answers|
  {
    forall j :: 0 <= j < k ==> !answers[j].carry && answers[j].signed && answers[j].next > 0
  }

  /** `map` is the ranges at these positions, which are the first of all there are, up to `most` of them. */
  ghost predicate Listed(answers: seq<E820Answer>, ranges: seq<seq<byte>>, at: seq<nat>, most: nat)
    requires Sized(answers)
  {
    && |ranges| == |at| <= most
    && (forall i :: 0 <= i < |at| ==> at[i] < |answers| && AskedFor(answers, at[i]) && GivesRange(answers, at[i]) && ranges[i] == answers[at[i]].entry[..20])
    && (forall i, j :: 0 <= i < j < |at| ==> at[i] < at[j])
    && (forall k: nat :: k < |answers| && AskedFor(answers, k) && GivesRange(answers, k) ==>
          k in at || (|at| == most && forall i :: 0 <= i < |at| ==> at[i] < k))
  }

  lemma UsableGivesRange(answers: seq<E820Answer>, k: nat)
    requires Sized(answers) && k < |answers| && !answers[k].carry && answers[k].signed
    ensures Usable(answers[k]) <==> GivesRange(answers, k)
  {
    LengthIsZero(answers[k].entry);
  }

  /** A position behind the first is one of the answers behind the first. */
  lemma AskedBehind(answers: seq<E820Answer>, k: nat)
    requires Sized(answers) && 0 < k < |answers|
    ensures AskedFor(answers, k) <==> !answers[0].carry && answers[0].signed && answers[0].next > 0 && AskedFor(answers[1..], k - 1)
    ensures GivesRange(answers, k) <==> GivesRange(answers[1..], k - 1)
  {
    var rest := answers[1..];
    assert forall j :: 0 <= j < |rest| ==> rest[j] == answers[j + 1];
    if !answers[0].carry && answers[0].signed && answers[0].next > 0 && AskedFor(rest, k - 1) {
      forall j | 0 <= j < k
        ensures !answers[j].carry && answers[j].signed && answers[j].next > 0
      {
        if j > 0 { assert rest[j - 1] == answers[j]; }
      }
    }
    if AskedFor(answers, k) {
      forall j | 0 <= j < k - 1
        ensures !rest[j].carry && rest[j].signed && rest[j].next > 0
      {
        assert rest[j] == answers[j + 1];
      }
    }
  }

  function Later(at: seq<nat>): (r: seq<nat>)
    ensures |r| == |at| && forall i :: 0 <= i < |at| ==> r[i] == at[i] + 1
  {
    seq(|at|, i requires 0 <= i < |at| => at[i] + 1)
  }

  /** All the ranges of the live answers, by their positions. */
  lemma {:induction false} RangesByPosition(answers: seq<E820Answer>) returns (at: seq<nat>)
    requires Sized(answers)
    ensures Sized(Live(answers)) && Listed(answers, Ranges(Live(answers)), at, |answers|)
    decreases |answers|
  {
    LiveIsSized(answers);
    at := [];
    if answers == [] { return; }
    var first := answers[0];
    var goesOn := !first.carry && first.signed && first.next > 0;
    var behind: seq<nat>, found: seq<seq<byte>> := [], [];
    LiveIsSized(answers[1..]);
    if goesOn {
      behind := RangesByPosition(answers[1..]);
      found := Ranges(Live(answers[1..]));
    }
    var here := !first.carry && first.signed && Usable(first);
    at := (if here then [0] else []) + Later(behind);
    LiveRanges(answers, here, found);
    if !first.carry && first.signed { UsableGivesRange(answers, 0); }
    ListedHere(answers, goesOn, behind, found, here);
  }

  lemma LiveRanges(answers: seq<E820Answer>, here: bool, found: seq<seq<byte>>)
    requires Sized(answers) && answers != [] && Sized(Live(answers)) && Sized(Live(answers[1..]))
    requires here == (!answers[0].carry && answers[0].signed && Usable(answers[0]))
    requires found == if !answers[0].carry && answers[0].signed && answers[0].next > 0 then Ranges(Live(answers[1..])) else []
    ensures Ranges(Live(answers)) == (if here then [answers[0].entry[..20]] else []) + found
  {
    if !answers[0].carry && answers[0].signed {
      var live := Live(answers);
      if answers[0].next == 0 { assert live[1..] == []; } else { assert live[1..] == Live(answers[1..]); }
    }
  }

  /** The first answer's range, if it is one, before those behind it. */
  lemma ListedHere(answers: seq<E820Answer>, goesOn: bool, behind: seq<nat>, found: seq<seq<byte>>, here: bool)
    requires Sized(answers) && answers != [] && here == GivesRange(answers, 0)
    requires goesOn == (!answers[0].carry && answers[0].signed && answers[0].next > 0)
    requires if goesOn then Listed(answers[1..], found, behind, |answers| - 1) else behind == [] && found == []
    ensures Listed(answers, (if here then [answers[0].entry[..20]] else []) + found, (if here then [0] else []) + Later(behind), |answers|)
  {
    var head: seq<nat> := if here then [0] else [];
    var at, ranges := head + Later(behind), (if here then [answers[0].entry[..20]] else []) + found;
    forall i | 0 <= i < |at|
      ensures at[i] < |answers| && AskedFor(answers, at[i]) && GivesRange(answers, at[i]) && ranges[i] == answers[at[i]].entry[..20]
    {
      if i >= |head| { PlaceBehind(answers, found, behind, i - |head|); }
    }
    forall k: nat | k < |answers| && AskedFor(answers, k) && GivesRange(answers, k)
      ensures k in at
    {
      HasPlace(answers, behind, found, head, k);
    }
  }

  lemma PlaceBehind(answers: seq<E820Answer>, found: seq<seq<byte>>, behind: seq<nat>, i: nat)
    requires Sized(answers) && answers != [] && !answers[0].carry && answers[0].signed && answers[0].next > 0
    requires Listed(answers[1..], found, behind, |answers| - 1) && i < |behind|
    ensures behind[i] + 1 < |answers| && AskedFor(answers, behind[i] + 1) && GivesRange(answers, behind[i] + 1)
    ensures found[i] == answers[behind[i] + 1].entry[..20]
  {
    assert answers[1..][behind[i]] == answers[behind[i] + 1];
    AskedBehind(answers, behind[i] + 1);
  }

  lemma HasPlace(answers: seq<E820Answer>, behind: seq<nat>, found: seq<seq<byte>>, head: seq<nat>, k: nat)
    requires Sized(answers) && k < |answers| && AskedFor(answers, k) && GivesRange(answers, k)
    requires k == 0 ==> 0 in head
    requires k > 0 && answers[0].next > 0 ==> Listed(answers[1..], found, behind, |answers| - 1)
    ensures k in head + Later(behind)
  {
    if k > 0 {
      AskedBehind(answers, k);
      var j := FoundAmong(answers[1..], found, behind, k - 1);
      assert (head + Later(behind))[|head| + j] == k;
    }
  }

  /** Where every range has a place there is no ranking by `most`. */
  lemma FoundAmong(answers: seq<E820Answer>, ranges: seq<seq<byte>>, at: seq<nat>, k: nat) returns (j: nat)
    requires Sized(answers) && Listed(answers, ranges, at, |answers|) && k < |answers| && AskedFor(answers, k) && GivesRange(answers, k)
    ensures j < |at| && at[j] == k
  {
    if k !in at { Crowded(at, k); }
    j :| 0 <= j < |at| && at[j] == k;
  }

  /** Increasing numbers below `k` are at most `k` many. */
  lemma {:induction false} Crowded(at: seq<nat>, k: nat)
    requires (forall i, j :: 0 <= i < j < |at| ==> at[i] < at[j]) && forall i :: 0 <= i < |at| ==> at[i] < k
    ensures |at| <= k
  {
    if at != [] { Crowded(at[..|at| - 1], at[|at| - 1]); }
  }

  /** The map is the first 32 ranges the BIOS was asked for, in order. */
  lemma MapByPosition(b: Bios) returns (at: seq<nat>)
    ensures Listed(b.e820, MemoryMap(b), at, MAX_MMAP)
  {
    var all := RangesByPosition(b.e820);
    at := if |all| <= MAX_MMAP then all else all[..MAX_MMAP];
    forall k: nat | k < |b.e820| && AskedFor(b.e820, k) && GivesRange(b.e820, k)
      ensures k in at || (|at| == MAX_MMAP && forall i :: 0 <= i < |at| ==> at[i] < k)
    {
      var j := FoundAmong(b.e820, Ranges(Live(b.e820)), all, k);
      if j < |at| { assert at[j] == k; }
    }
  }

  // ------------------------------------------------------------------
  // One answer at a time
  // ------------------------------------------------------------------

  ghost function RangesLeft(answers: seq<E820Answer>, k: nat): seq<seq<byte>>
    requires Sized(answers) && k <= |answers|
  {
    LiveIsSized(answers[k..]);
    Ranges(Live(answers[k..]))
  }

  lemma RangesStep(answers: seq<E820Answer>, k: nat, found: seq<seq<byte>>)
    requires Sized(answers) && k < |answers|
    ensures found + RangesLeft(answers, k) ==
      (found + Kept(answers[k])) + (if Last(answers[k]) then [] else RangesLeft(answers, k + 1))
  {
    var rest := answers[k..];
    assert rest[1..] == answers[k + 1..];
    LiveIsSized(rest);
    LiveIsSized(rest[1..]);
    if !answers[k].carry && answers[k].signed {
      var live := Live(rest);
      assert live[0] == answers[k];
      if answers[k].next == 0 {
        assert live[1..] == [];
        assert Ranges(live[1..]) == [];
      } else {
        assert live[1..] == Live(rest[1..]);
      }
    }
  }

  method StoreMapLength(m: Machine, si: nat, ghost found: seq<seq<byte>>)
    requires MapIs(m.mem, found) && si == |found|
    modifies m`mem
    ensures MapIs(m.mem, found) && KeepsButMap(old(m.mem), m.mem)
    ensures Dword(m.mem, BI_MMAP_LEN) == si
    ensures forall call :: LeftBy(m.bios, old(m.mem), call) ==> LeftBy(m.bios, m.mem, call)
  {
    m.mem := Put(m.mem, BI_MMAP_LEN, Word2(si));
    m.mem := Put(m.mem, BI_MMAP_LEN + 2, Word2(0));
    MapFrame(old(m.mem), m.mem, found);
  }

  /** The ranges found so far stand in BootInfo, and the BIOS's own memory is as its last call, if any, left it. */
  ghost predicate Gathered(b: Bios, m0: Memory, mem: Memory, calls0: nat, calls: nat, found: seq<seq<byte>>) {
    true == (MapIs(mem, found) && KeepsButMap(m0, mem) && calls0 <= calls && (calls > calls0 ==> LeftBy(b, mem, calls - 1)))
  }

  lemma GatheredMore(b: Bios, m0: Memory, mem: Memory, calls0: nat, calls: nat, found: seq<seq<byte>>, mem1: Memory, found1: seq<seq<byte>>)
    requires Gathered(b, m0, mem, calls0, calls, found)
    requires KeepsButMap(mem, mem1) && MapIs(mem1, found1) && LeftBy(b, mem1, calls)
    ensures Gathered(b, m0, mem1, calls0, calls + 1, found1)
  {
  }

  /** The map in BootInfo is the first 32 usable answers, in order, and nothing else. */
  method CollectE820(m: Machine)
    requires forall i :: BI_MMAP_LEN <= i < BI_FB_ADDR ==> m.mem[i] == 0
    modifies m`mem, m`flat, m`calls
    ensures MapIs(m.mem, MemoryMap(m.bios))
    ensures Dword(m.mem, BI_MMAP_LEN) == |MemoryMap(m.bios)|
    ensures KeepsButMap(old(m.mem), m.mem)
    ensures m.calls > old(m.calls) && LeftBy(m.bios, m.mem, m.calls - 1)
  {
    var answers := m.bios.e820;
    ghost var found: seq<seq<byte>> := [];
    ghost var left := RangesLeft(answers, 0);
    ghost var m0, calls0 := m.mem, m.calls;
    var k, si, more := 0, 0, true;
    assert answers[0..] == answers;
    while more
      invariant 0 <= k <= |answers| && si == |found| <= MAX_MMAP
      invariant if more then left == RangesLeft(answers, k) else left == [] || si == MAX_MMAP
      invariant found + left == RangesLeft(answers, 0)
      invariant Gathered(m.bios, m0, m.mem, calls0, m.calls, found)
      invariant si <= k && if more then m.calls == calls0 + k else m.calls > calls0
      decreases more, |answers| - k
    {
      ghost var before, calls := m.mem, m.calls;
      if si >= MAX_MMAP {
        more := false;
      } else if k == |answers| {
        more := false;
        m.Interrupt();
        MapFrame(before, m.mem, found);
        GatheredMore(m.bios, m0, before, calls0, calls, found, m.mem, found);
      } else {
        RangesStep(answers, k, found);
        si := TakeRange(m, answers[k], si, found);
        GatheredMore(m.bios, m0, before, calls0, calls, found, m.mem, found + Kept(answers[k]));
        found := found + Kept(answers[k]);
        more := !Last(answers[k]);
        k := k + 1;
        left := if more then RangesLeft(answers, k) else [];
      }
    }
    assert answers[0..] == answers;
    assert found == MemoryMap(m.bios);
    StoreMapLength(m, si, found);
  }
}
