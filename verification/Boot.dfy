/**
 The loader as a whole: the order of its routines, and what holds when the
 kernel is entered, whatever the BIOS did.
 */
module Boot {
  import opened ByteFields
  import opened BootMemory
  import opened BootMachine
  import opened BootDisk
  import opened BootLine
  import opened BootTables
  import opened BootRsdp
  import opened BootVideo
  import opened BootInfo

  // ------------------------------------------------------------------
  // The header and the frame of the whole run
  // ------------------------------------------------------------------

  /** A patched header whose images fit the disk's and the machine's 32-bit addresses, its line terminated. */
  ghost predicate HeaderOk(mem: Memory) {
    true == (
      && Dword(mem, KERNEL_LBA) + Dword(mem, KERNEL_SECTORS) <= ADDRESSES
      && Dword(mem, ROOTFS_LBA) + Dword(mem, ROOTFS_SECTORS) <= ADDRESSES
      && KERNEL + SECTOR * Dword(mem, KERNEL_SECTORS) <= ADDRESSES
      && ROOTFS + SECTOR * Dword(mem, ROOTFS_SECTORS) <= ADDRESSES
      && 0 in mem[CMDLINE..CMDLINE + CMDLINE_LIMIT + 1])
  }

  ghost predicate SameHeader(m0: Memory, m1: Memory) {
    true == (
      && Dword(m1, KERNEL_LBA) == Dword(m0, KERNEL_LBA) && Dword(m1, KERNEL_SECTORS) == Dword(m0, KERNEL_SECTORS)
      && Dword(m1, ROOTFS_LBA) == Dword(m0, ROOTFS_LBA) && Dword(m1, ROOTFS_SECTORS) == Dword(m0, ROOTFS_SECTORS))
  }

  /** Low memory the loader itself writes to. */
  predicate LoaderOwned(a: nat) {
    || VBE_INFO <= a < SCRATCH_END
    || FONT <= a < BOOTINFO_END
    || E820_BUF <= a < E820_BUF + 24
    || CMDLINE <= a <= CMDLINE + CMDLINE_LIMIT
    || STAGING <= a < STAGING_END
  }

  /** Below 1 MiB, nothing but the loader's own and the BIOS's changed. */
  ghost predicate KeepsLow(m0: Memory, m1: Memory) {
    true == forall i :: 0 <= i < MIB && !BiosOwned(i) && !LoaderOwned(i) ==> m1[i] == m0[i]
  }

  /** Nothing changed above 1 MiB. */
  ghost predicate KeepsHigh(m0: Memory, m1: Memory) {
    true == Keeps(m0, m1, MIB, ADDRESSES)
  }

  /** The line in the header's buffer is `line`. */
  ghost predicate HeaderLine(mem: Memory, line: seq<byte>) {
    true == AtEnd(mem, line, CMDLINE + |line|)
  }

  lemma LowKept(m0: Memory, m1: Memory, m2: Memory)
    requires KeepsLow(m0, m1) && KeepsLow(m1, m2)
    ensures KeepsLow(m0, m2)
  {
  }

  lemma HighKept(m0: Memory, m1: Memory, m2: Memory)
    requires KeepsHigh(m0, m1) && KeepsHigh(m1, m2)
    ensures KeepsHigh(m0, m2)
  {
  }

  /** The header's numbers are never written, so a terminated line keeps the header good. */
  lemma HeaderKept(m0: Memory, m1: Memory, line: seq<byte>)
    requires HeaderOk(m0) && KeepsLow(m0, m1) && HeaderLine(m1, line)
    ensures HeaderOk(m1) && SameHeader(m0, m1)
  {
    assert m1[CMDLINE..CMDLINE + CMDLINE_LIMIT + 1][|line|] == 0;
  }

  // ------------------------------------------------------------------
  // First stage: the line and the A20 line
  // ------------------------------------------------------------------

  datatype Outcome = Entered | A20Failed | KernelFailed | RootfsFailed | Waiting

  /** Somebody interrupted the boot and never pressed Enter. */
  predicate NeverAnswered(b: Bios) { true == (b.interrupted && ENTER !in b.keys) }

  /** The line is shut, and neither the service nor the gate opens it. */
  predicate A20Stuck(b: Bios, a20: bool) {
    !a20 && !b.a20Service && ((b.gate92 / 2) % 2 == 1 || !b.gateWorks)
  }

  ghost predicate Prepared(b: Bios, m0: Memory, m1: Memory) {
    true == (KeepsLow(m0, m1) && KeepsHigh(m0, m1) && HeaderLine(m1, FinalLine(b, m0)) && KeepsButLine(m0, m1))
  }

  /** Nothing changed but the line's buffer and the BIOS's own memory. */
  ghost predicate KeepsButLine(m0: Memory, m1: Memory) {
    true == KeepsBut(m0, m1, CMDLINE, CMDLINE + CMDLINE_LIMIT + 1)
  }

  lemma BufferKept(m0: Memory, m1: Memory)
    requires HeaderOk(m0) && KeepsBut(m0, m1, 0, 0)
    ensures 0 in m1[CMDLINE..CMDLINE + CMDLINE_LIMIT + 1] && Line(m1) == Line(m0)
  {
    assert m1[CMDLINE..CMDLINE + CMDLINE_LIMIT + 1] == m0[CMDLINE..CMDLINE + CMDLINE_LIMIT + 1];
  }

  lemma PreparedFrame(b: Bios, m0: Memory, m1: Memory, m2: Memory, m3: Memory, line: seq<byte>)
    requires KeepsBut(m0, m1, 0, 0) && KeepsBut(m1, m2, CMDLINE, CMDLINE + CMDLINE_LIMIT + 1)
    requires KeepsBut(m2, m3, 0, 0)
    requires AtEnd(m2, line, CMDLINE + |line|) && line == FinalLine(b, m0)
    ensures Prepared(b, m0, m3)
  {
    assert AtEnd(m3, line, CMDLINE + |line|);
  }

  /** The banner, the boot line and the A20 line; `Entered` means the boot goes on. */
  method Prepare(m: Machine) returns (o: Outcome)
    requires HeaderOk(m.mem)
    modifies m`mem, m`flat, m`calls, m`a20
    ensures o == if NeverAnswered(m.bios) then Waiting else if m.a20 then Entered else A20Failed
    ensures o == A20Failed <==> !NeverAnswered(m.bios) && A20Stuck(m.bios, old(m.a20))
    ensures Prepared(m.bios, old(m.mem), m.mem)
  {
    ghost var m0 := m.mem;
    m.Interrupt();  // the banner
    ghost var m1 := m.mem;
    BufferKept(m0, m1);
    var waiting := AskCmdline(m);
    ghost var m2 := m.mem;
    if waiting {
      PreparedFrame(m.bios, m0, m1, m2, m2, Line(m2));
      return Waiting;
    }
    var carry := EnableA20(m);
    PreparedFrame(m.bios, m0, m1, m2, m.mem, Line(m2));
    o := if carry then A20Failed else Entered;
  }

  // ------------------------------------------------------------------
  // Second stage: what there is below 1 MiB
  // ------------------------------------------------------------------

  ghost predicate Probed(b: Bios, m0: Memory, searched: Memory, m1: Memory, calls: nat) {
    true == (
      && InfoIs(m1, BLANK.(ranges := MemoryMap(b), rsdp := Rsdp(searched)))
      && KeepsLow(m0, m1) && KeepsHigh(m0, m1) && KeepsLow(m0, searched)
      && Keeps(m0, m1, CMDLINE, ROOTFS_LBA)
      && Heard(b, searched, calls) && Collected(b, m0, searched) && OnlyRsdp(searched, m1))
  }

  /** What the BIOS owns of this memory is what one of its first `calls` calls left there. */
  ghost predicate Heard(b: Bios, mem: Memory, calls: nat) {
    exists call: nat :: call < calls && LeftBy(b, mem, call)
  }

  /** Of all the loader and the disk have written, only BootInfo and the scratch entry of the map differ. */
  ghost predicate Collected(b: Bios, m0: Memory, searched: Memory) {
    true == (
      && InfoIs(searched, BLANK.(ranges := MemoryMap(b)))
      && forall i: nat :: i < ADDRESSES && !BiosOwned(i) && !(BOOTINFO <= i < BOOTINFO_END) && !(E820_BUF <= i < E820_BUF + 24) ==>
           searched[i] == m0[i])
  }

  /** The root pointer's field, and nothing else. */
  ghost predicate OnlyRsdp(searched: Memory, m1: Memory) {
    true == forall i: nat :: i < ADDRESSES && !(BI_RSDP <= i < BI_RSDP + 4) ==> m1[i] == searched[i]
  }

  lemma ProbedFrame(b: Bios, m0: Memory, searched: Memory, m1: Memory)
    requires Collected(b, m0, searched) && OnlyRsdp(searched, m1)
    ensures KeepsLow(m0, m1) && KeepsHigh(m0, m1) && KeepsLow(m0, searched)
    ensures Keeps(m0, m1, CMDLINE, ROOTFS_LBA)
  {
  }

  lemma ProbedInfo(b: Bios, m0: Memory, searched: Memory, m1: Memory)
    requires Collected(b, m0, searched) && OnlyRsdp(searched, m1) && Dword(m1, BI_RSDP) == Rsdp(searched)
    ensures InfoIs(m1, BLANK.(ranges := MemoryMap(b), rsdp := Rsdp(searched)))
  {
    LineFrame(searched, m1, []);
    MapFrame(searched, m1, MemoryMap(b));
  }

  lemma CollectedInfo(b: Bios, m0: Memory, m1: Memory, searched: Memory)
    requires KeepsBut(m0, m1, BOOTINFO, BOOTINFO_END) && Keeps(m0, m1, MIB, ADDRESSES)
    requires Dword(m1, BI_MAGIC) == BOOTINFO_MAGIC && Word(m1, BI_VERSION) == BOOTINFO_VERSION
    requires forall i :: BI_SOURCE <= i < BOOTINFO_END ==> m1[i] == 0
    requires KeepsButMap(m1, searched)
    requires MapIs(searched, MemoryMap(b)) && Dword(searched, BI_MMAP_LEN) == |MemoryMap(b)|
    ensures Collected(b, m0, searched)
  {
    assert Dword(searched, BI_RSDP) == 0;
    ProbedIsInfo(searched, MemoryMap(b), 0);
  }

  lemma OneHeard(b: Bios, mem: Memory, calls: nat)
    requires calls > 0 && LeftBy(b, mem, calls - 1)
    ensures Heard(b, mem, calls)
  {
  }

  /** BootInfo cleared, the memory map collected. */
  method Collect(m: Machine)
    modifies m`mem, m`flat, m`calls
    ensures Collected(m.bios, old(m.mem), m.mem) && Heard(m.bios, m.mem, m.calls)
  {
    ghost var m0 := m.mem;
    ZeroBootInfo(m);
    ghost var m1 := m.mem;
    CollectE820(m);
    OneHeard(m.bios, m.mem, m.calls);
    CollectedInfo(m.bios, m0, m1, m.mem);
  }

  /** The ACPI root pointer found, and BootInfo told of it. */
  method Probe(m: Machine) returns (ghost searched: Memory)
    modifies m`mem, m`flat, m`calls
    ensures Probed(m.bios, old(m.mem), searched, m.mem, m.calls)
  {
    ghost var m0 := m.mem;
    Collect(m);
    searched := m.mem;
    FindRsdp(m);
    ProbedFrame(m.bios, m0, searched, m.mem);
    ProbedInfo(m.bios, m0, searched, m.mem);
  }

  // ------------------------------------------------------------------
  // Third stage: the images
  // ------------------------------------------------------------------

  predicate InImage(at: nat, sectors: nat, i: nat) { at <= i < at + SECTOR * sectors }

  /** Above 1 MiB: the root image, the kernel wherever the root image is not, and all else as it was. */
  ghost predicate ImagesIn(b: Bios, m0: Memory, m1: Memory) {
    true == (
      var k, r := Dword(m0, KERNEL_SECTORS), Dword(m0, ROOTFS_SECTORS);
      && (forall i: nat :: InImage(ROOTFS, r, i) && i < ADDRESSES ==>
            m1[i] == SectorByte(b, Dword(m0, ROOTFS_LBA), i - ROOTFS))
      && (forall i: nat :: InImage(KERNEL, k, i) && !InImage(ROOTFS, r, i) && i < ADDRESSES ==>
            m1[i] == SectorByte(b, Dword(m0, KERNEL_LBA), i - KERNEL))
      && (forall i: nat :: MIB <= i < ADDRESSES && !InImage(KERNEL, k, i) && !InImage(ROOTFS, r, i) ==>
            m1[i] == m0[i]))
  }

  /** With a kernel of at most 30720 sectors both images are whole. */
  lemma ImagesAreWhole(b: Bios, m0: Memory, m1: Memory)
    requires HeaderOk(m0) && ImagesIn(b, m0, m1)
    ensures Loaded(b, m1, Dword(m0, ROOTFS_LBA), Dword(m0, ROOTFS_SECTORS), ROOTFS)
    ensures Dword(m0, KERNEL_SECTORS) <= 30720 ==>
      Loaded(b, m1, Dword(m0, KERNEL_LBA), Dword(m0, KERNEL_SECTORS), KERNEL)
  {
    var k, r := Dword(m0, KERNEL_SECTORS), Dword(m0, ROOTFS_SECTORS);
    forall i | ROOTFS <= i < ROOTFS + SECTOR * r
      ensures m1[i] == SectorByte(b, Dword(m0, ROOTFS_LBA), i - ROOTFS)
    {
      assert InImage(ROOTFS, r, i);
    }
    if k <= 30720 {
      forall i | KERNEL <= i < KERNEL + SECTOR * k
        ensures m1[i] == SectorByte(b, Dword(m0, KERNEL_LBA), i - KERNEL)
      {
        assert InImage(KERNEL, k, i) && !InImage(ROOTFS, r, i);
      }
    }
  }

  /** One blob from the header: in place, and nothing else changed but staging and BIOS memory. */
  ghost predicate BlobIn(b: Bios, m0: Memory, m1: Memory, lba: nat, sectors: nat, at: nat) {
    true == (
      && at + SECTOR * sectors <= ADDRESSES
      && Loaded(b, m1, lba, sectors, at) && KeepsButBlob(m0, m1, at, SECTOR * sectors))
  }

  /** Five refusals of one chunk, just now. */
  ghost predicate GaveUp(b: Bios, asked: nat) {
    true == (asked >= READ_TRIES && AllRefused(b, asked - READ_TRIES, READ_TRIES))
  }

  method LoadKernel(m: Machine) returns (failed: bool)
    requires m.a20 && HeaderOk(m.mem)
    modifies m`mem, m`flat, m`calls, m`asked, m`dapCount, m`dapLba, m`chunkCount, m`tries
    ensures if failed then GaveUp(m.bios, m.asked)
            else BlobIn(m.bios, old(m.mem), m.mem,
                        Dword(old(m.mem), KERNEL_LBA), Dword(old(m.mem), KERNEL_SECTORS), KERNEL)
    ensures m.calls >= old(m.calls)
  {
    var eax, ecx := Dword(m.mem, KERNEL_LBA), Dword(m.mem, KERNEL_SECTORS);
    failed := LoadBlob(m, eax, ecx, KERNEL);
  }

  method LoadRootfs(m: Machine) returns (failed: bool)
    requires m.a20 && HeaderOk(m.mem)
    modifies m`mem, m`flat, m`calls, m`asked, m`dapCount, m`dapLba, m`chunkCount, m`tries
    ensures if failed then GaveUp(m.bios, m.asked)
            else BlobIn(m.bios, old(m.mem), m.mem,
                        Dword(old(m.mem), ROOTFS_LBA), Dword(old(m.mem), ROOTFS_SECTORS), ROOTFS)
    ensures m.calls >= old(m.calls)
  {
    var ecx := Dword(m.mem, ROOTFS_SECTORS);
    if ecx == 0 { return false; }
    var eax := Dword(m.mem, ROOTFS_LBA);
    failed := LoadBlob(m, eax, ecx, ROOTFS);
  }

  lemma BlobFrame(b: Bios, m0: Memory, m1: Memory, lba: nat, sectors: nat, at: nat, line: seq<byte>, info: Info)
    requires BlobIn(b, m0, m1, lba, sectors, at) && MIB <= at
    ensures KeepsLow(m0, m1)
    ensures HeaderLine(m0, line) ==> HeaderLine(m1, line)
    ensures InfoIs(m0, info) ==> InfoIs(m1, info)
  {
    BlobKeeps(b, m0, m1, lba, sectors, at);
    if HeaderLine(m0, line) { HeaderLineKept(m0, m1, line); }
    if InfoIs(m0, info) { InfoFrame(m0, m1, info); }
  }

  lemma BlobKeeps(b: Bios, m0: Memory, m1: Memory, lba: nat, sectors: nat, at: nat)
    requires BlobIn(b, m0, m1, lba, sectors, at) && MIB <= at
    ensures KeepsLow(m0, m1) && Keeps(m0, m1, CMDLINE, ROOTFS_LBA) && Keeps(m0, m1, BOOTINFO, BOOTINFO_END)
  {
  }

  lemma ImagesCompose(b: Bios, m0: Memory, m1: Memory, m2: Memory)
    requires SameHeader(m0, m1)
    requires BlobIn(b, m0, m1, Dword(m0, KERNEL_LBA), Dword(m0, KERNEL_SECTORS), KERNEL)
    requires BlobIn(b, m1, m2, Dword(m1, ROOTFS_LBA), Dword(m1, ROOTFS_SECTORS), ROOTFS)
    ensures ImagesIn(b, m0, m2)
  {
  }

  ghost predicate ImagesLoaded(b: Bios, m0: Memory, m1: Memory, line: seq<byte>, info: Info) {
    true == (ImagesIn(b, m0, m1) && KeepsLow(m0, m1) && HeaderLine(m1, line) && InfoIs(m1, info))
  }

  /** Kernel, then root image. */
  method LoadImages(m: Machine, ghost line: seq<byte>, ghost info: Info) returns (o: Outcome)
    requires m.a20 && HeaderOk(m.mem) && HeaderLine(m.mem, line) && InfoIs(m.mem, info)
    modifies m`mem, m`flat, m`calls, m`asked, m`dapCount, m`dapLba, m`chunkCount, m`tries
    ensures o == Entered || o == KernelFailed || o == RootfsFailed
    ensures if o == Entered then ImagesLoaded(m.bios, old(m.mem), m.mem, line, info)
            else GaveUp(m.bios, m.asked)
    ensures m.calls >= old(m.calls)
  {
    ghost var m0 := m.mem;
    var failed := LoadKernel(m);
    if failed { return KernelFailed; }
    ghost var m1 := m.mem;
    BlobFrame(m.bios, m0, m1, Dword(m0, KERNEL_LBA), Dword(m0, KERNEL_SECTORS), KERNEL, line, info);
    HeaderKept(m0, m1, line);
    failed := LoadRootfs(m);
    if failed { return RootfsFailed; }
    BlobFrame(m.bios, m1, m.mem, Dword(m1, ROOTFS_LBA), Dword(m1, ROOTFS_SECTORS), ROOTFS, line, info);
    LowKept(m0, m1, m.mem);
    ImagesCompose(m.bios, m0, m1, m.mem);
    o := Entered;
  }

  // ------------------------------------------------------------------
  // Last stage: the font, the screen, and the last of BootInfo
  // ------------------------------------------------------------------

  ghost function SettledInfo(b: Bios, mem: Memory, line: seq<byte>, info: Info): Info {
    Finished(mem, line, info.(font := FONT, screen := ScreenFor(b, mem, line)))
  }

  ghost predicate Settled(b: Bios, m0: Memory, m1: Memory, line: seq<byte>, info: Info) {
    true == (InfoIs(m1, SettledInfo(b, m0, line, info)) && KeepsLow(m0, m1) && KeepsHigh(m0, m1) && Glyphs(b, m1))
  }

  /** The ROM's 256 glyphs of sixteen bytes stand below BootInfo. */
  ghost predicate Glyphs(b: Bios, mem: Memory) {
    true == forall i: nat :: i < 4096 ==> mem[FONT + i] == b.font(i)
  }

  lemma FontFrame(b: Bios, m0: Memory, m1: Memory, line: seq<byte>)
    requires FontSet(b, m0, m1) && HeaderLine(m0, line)
    ensures KeepsLow(m0, m1) && KeepsHigh(m0, m1) && HeaderLine(m1, line) && Glyphs(b, m1)
  {
    HeaderLineKept(m0, m1, line);
  }

  lemma ScreenFrame(m0: Memory, m1: Memory, screen: Framebuffer, line: seq<byte>)
    requires ScreenSet(m0, m1, screen) && HeaderLine(m0, line)
    ensures KeepsLow(m0, m1) && KeepsHigh(m0, m1) && HeaderLine(m1, line)
    ensures forall b: Bios :: Glyphs(b, m0) ==> Glyphs(b, m1)
  {
    HeaderLineKept(m0, m1, line);
  }

  lemma InfoOnlyFrame(m0: Memory, m1: Memory)
    requires OnlyInfo(m0, m1)
    ensures KeepsLow(m0, m1) && KeepsHigh(m0, m1)
    ensures forall b: Bios :: Glyphs(b, m0) ==> Glyphs(b, m1)
  {
  }

  /** What the last stage reads of the header does not change under it. */
  lemma SourcesKept(b: Bios, m0: Memory, m1: Memory)
    requires KeepsLow(m0, m1)
    ensures Ceiling(b, m1) == Ceiling(b, m0)
    ensures forall line, info :: Finished(m1, line, info) == Finished(m0, line, info)
  {
    assert Dword(m1, DISK_SIGNATURE) == Dword(m0, DISK_SIGNATURE);
    assert Dword(m1, KERNEL_BYTES) == Dword(m0, KERNEL_BYTES);
    assert Dword(m1, ROOTFS_BYTES) == Dword(m0, ROOTFS_BYTES);
  }

  /** What the three steps of the last stage add up to. */
  lemma SettleComposes(b: Bios, m0: Memory, m1: Memory, m2: Memory, m3: Memory, line: seq<byte>, info: Info)
    requires FontSet(b, m0, m1) && HeaderLine(m0, line) && ScreenSet(m1, m2, ScreenFor(b, m1, line)) && OnlyInfo(m2, m3)
    requires InfoIs(m3, Finished(m2, line, info.(font := FONT, screen := ScreenFor(b, m1, line))))
    ensures Settled(b, m0, m3, line, info)
  {
    FontFrame(b, m0, m1, line);
    SourcesKept(b, m0, m1);
    ScreenFrame(m1, m2, ScreenFor(b, m1, line), line);
    LowKept(m0, m1, m2);
    HighKept(m0, m1, m2);
    SourcesKept(b, m0, m2);
    InfoOnlyFrame(m2, m3);
    LowKept(m0, m2, m3);
    HighKept(m0, m2, m3);
  }

  lemma FontLeaves(b: Bios, m0: Memory, m1: Memory, line: seq<byte>, info: Info)
    requires FontSet(b, m0, m1) && HeaderLine(m0, line) && InfoIs(m0, info)
    ensures HeaderLine(m1, line) && InfoIs(m1, info.(font := FONT))
  {
    FontIsInfo(b, m0, m1, info);
    FontFrame(b, m0, m1, line);
  }

  lemma ScreenLeaves(m0: Memory, m1: Memory, screen: Framebuffer, line: seq<byte>, info: Info)
    requires ScreenSet(m0, m1, screen) && HeaderLine(m0, line) && InfoIs(m0, info)
    ensures HeaderLine(m1, line) && InfoIs(m1, info.(screen := screen))
  {
    ScreenIsInfo(m0, m1, info, screen);
    ScreenFrame(m0, m1, screen, line);
  }

  method Settle(m: Machine, ghost line: seq<byte>, ghost info: Info)
    requires HeaderLine(m.mem, line) && InfoIs(m.mem, info)
    requires info.line == [] && info.screen == NO_FRAMEBUFFER
    modifies m`mem, m`flat, m`calls, m`ceilingWidth, m`ceilingHeight
    ensures Settled(m.bios, old(m.mem), m.mem, line, info) && m.calls >= old(m.calls)
  {
    ghost var m0 := m.mem;
    CopyFont(m);
    ghost var m1 := m.mem;
    FontLeaves(m.bios, m0, m1, line, info);
    ghost var m2 := SettleScreen(m, line, info.(font := FONT));
    SettleComposes(m.bios, m0, m1, m2, m.mem, line, info);
  }

  /** The screen, and the rest of BootInfo behind it; `m2` is the memory between the two. */
  method SettleScreen(m: Machine, ghost line: seq<byte>, ghost info: Info) returns (ghost m2: Memory)
    requires HeaderLine(m.mem, line) && InfoIs(m.mem, info) && info.line == [] && info.screen == NO_FRAMEBUFFER
    modifies m`mem, m`flat, m`calls, m`ceilingWidth, m`ceilingHeight
    ensures ScreenSet(old(m.mem), m2, ScreenFor(m.bios, old(m.mem), line)) && OnlyInfo(m2, m.mem)
    ensures InfoIs(m.mem, Finished(m2, line, info.(screen := ScreenFor(m.bios, old(m.mem), line)))) && m.calls >= old(m.calls)
  {
    ghost var m1, screen := m.mem, ScreenFor(m.bios, m.mem, line);
    SetScreen(m, line, info);
    m2 := m.mem;
    ScreenLeaves(m1, m2, screen, line, info);
    FinishBootInfo(m, line, info.(screen := screen));
  }

  // ------------------------------------------------------------------
  // The whole run
  // ------------------------------------------------------------------

  /**
   What BootInfo must say, from the header and the disk's signature as they
   stood at the start and from what the BIOS answered. `searched` is memory as
   it stood when the ACPI pointer was looked for.
   */
  ghost function Expected(b: Bios, m0: Memory, searched: Memory): Info {
    SettledInfo(b, m0, FinalLine(b, m0), BLANK.(ranges := MemoryMap(b), rsdp := Rsdp(searched)))
  }

  /** A kernel entered as it should be. */
  ghost predicate Booted(b: Bios, m0: Memory, searched: Memory, m1: Memory, calls: nat) {
    true == (
      && ImagesIn(b, m0, m1)
      && InfoIs(m1, Expected(b, m0, searched))
      && KeepsLow(m0, m1) && KeepsLow(m0, searched)
      && Glyphs(b, m1) && Searched(b, m0, searched, calls))
  }

  /**
   The memory the ACPI pointer was looked for in is one the machine had: the
   BIOS's part as a call of this run left it, the loader's with the line and the
   map in it and nothing else of its own, and all the rest as at the start.
   */
  ghost predicate Searched(b: Bios, m0: Memory, searched: Memory, calls: nat) {
    true == (
      && Heard(b, searched, calls) && HeaderLine(searched, FinalLine(b, m0))
      && InfoIs(searched, BLANK.(ranges := MemoryMap(b))) && Elsewhere(m0, searched))
  }

  /** Outside the BIOS's memory, the line, BootInfo and the scratch entry, nothing changed. */
  ghost predicate Elsewhere(m0: Memory, searched: Memory) {
    true == forall i: nat :: i < ADDRESSES && !BiosOwned(i) && !TouchedSoFar(i) ==> searched[i] == m0[i]
  }

  predicate TouchedSoFar(a: nat) {
    BOOTINFO <= a < BOOTINFO_END || E820_BUF <= a < E820_BUF + 24 || CMDLINE <= a <= CMDLINE + CMDLINE_LIMIT
  }

  lemma SearchedSince(b: Bios, m0: Memory, m1: Memory, searched: Memory, calls: nat, later: nat)
    requires Prepared(b, m0, m1) && Collected(b, m1, searched) && Heard(b, searched, calls) && calls <= later
    ensures Searched(b, m0, searched, later)
  {
    LineCollected(b, m1, searched, FinalLine(b, m0));
  }

  lemma LineCollected(b: Bios, m1: Memory, searched: Memory, line: seq<byte>)
    requires HeaderLine(m1, line) && Collected(b, m1, searched)
    ensures HeaderLine(searched, line)
  {
    assert Keeps(m1, searched, CMDLINE, ROOTFS_LBA);
    HeaderLineKept(m1, searched, line);
  }

  lemma ImagesFrame(b: Bios, m0: Memory, m1: Memory, m2: Memory, m3: Memory)
    requires KeepsHigh(m0, m1) && SameHeader(m0, m1) && ImagesIn(b, m1, m2) && KeepsHigh(m2, m3)
    ensures ImagesIn(b, m0, m3)
  {
  }

  lemma StagesCompose(b: Bios, m0: Memory, m1: Memory, searched: Memory, m2: Memory, m3: Memory, m4: Memory, calls: nat, later: nat)
    requires HeaderOk(m0) && Prepared(b, m0, m1) && Probed(b, m1, searched, m2, calls) && SameHeader(m0, m2) && calls <= later
    requires ImagesLoaded(b, m2, m3, FinalLine(b, m0), BLANK.(ranges := MemoryMap(b), rsdp := Rsdp(searched)))
    requires Settled(b, m3, m4, FinalLine(b, m0), BLANK.(ranges := MemoryMap(b), rsdp := Rsdp(searched)))
    ensures Booted(b, m0, searched, m4, later)
  {
    SearchedSince(b, m0, m1, searched, calls, later);
    LowKept(m0, m1, searched);
    LowKept(m0, m1, m2);
    LowKept(m0, m2, m3);
    LowKept(m0, m3, m4);
    HighKept(m0, m1, m2);
    ImagesFrame(b, m0, m2, m3, m4);
    SourcesKept(b, m0, m3);
  }

  lemma ProbedHeader(b: Bios, m0: Memory, m1: Memory, searched: Memory, m2: Memory, calls: nat)
    requires HeaderOk(m0) && Prepared(b, m0, m1) && Probed(b, m1, searched, m2, calls)
    ensures HeaderOk(m2) && SameHeader(m0, m2) && HeaderLine(m2, FinalLine(b, m0))
    ensures InfoIs(m2, BLANK.(ranges := MemoryMap(b), rsdp := Rsdp(searched)))
  {
    LowKept(m0, m1, m2);
    HeaderLineKept(m1, m2, FinalLine(b, m0));
    HeaderKept(m0, m2, FinalLine(b, m0));
  }

  lemma HeaderLineKept(m0: Memory, m1: Memory, line: seq<byte>)
    requires HeaderLine(m0, line) && Keeps(m0, m1, CMDLINE, ROOTFS_LBA)
    ensures HeaderLine(m1, line)
  {
    assert AtEnd(m0, line, CMDLINE + |line|);
    assert AtEnd(m1, line, CMDLINE + |line|);
  }

  /** Everything after the A20 line is open. */
  method Proceed(m: Machine, ghost m0: Memory) returns (o: Outcome, ghost searched: Memory)
    requires m.a20 && HeaderOk(m0) && Prepared(m.bios, m0, m.mem)
    modifies m`mem, m`flat, m`calls, m`ceilingWidth, m`ceilingHeight
    modifies m`asked, m`dapCount, m`dapLba, m`chunkCount, m`tries
    ensures o == Entered || o == KernelFailed || o == RootfsFailed
    ensures if o == Entered then Booted(m.bios, m0, searched, m.mem, m.calls) else GaveUp(m.bios, m.asked)
  {
    ghost var b, m1, line := m.bios, m.mem, FinalLine(m.bios, m0);
    searched := Probe(m);
    ghost var m2, info := m.mem, BLANK.(ranges := MemoryMap(b), rsdp := Rsdp(searched));
    ghost var calls := m.calls;
    ProbedHeader(b, m0, m1, searched, m2, calls);
    o := LoadImages(m, line, info);
    if o != Entered { return; }
    ghost var m3 := m.mem;
    Settle(m, line, info);
    StagesCompose(b, m0, m1, searched, m2, m3, m.mem, calls, m.calls);
  }

  /** How a run may end, and what is then true. */
  ghost predicate Ended(o: Outcome, b: Bios, m0: Memory, searched: Memory, m1: Memory, a20First: bool, a20: bool, asked: nat, calls: nat) {
    && (o == Waiting <==> NeverAnswered(b))
    && (o == A20Failed <==> !NeverAnswered(b) && A20Stuck(b, a20First))
    && (o == KernelFailed || o == RootfsFailed ==> GaveUp(b, asked))
    && (o == Entered ==> a20 && Booted(b, m0, searched, m1, calls))
  }

  /**
   The boot. Whatever the BIOS did, a run that enters the kernel has both
   images exactly in place, BootInfo exactly as expected, and nothing else
   changed that the loader and the BIOS do not own; a run that stops says why.
   */
  method Run(m: Machine) returns (o: Outcome, ghost searched: Memory)
    requires HeaderOk(m.mem)
    modifies m`mem, m`flat, m`calls, m`a20, m`ceilingWidth, m`ceilingHeight
    modifies m`asked, m`dapCount, m`dapLba, m`chunkCount, m`tries
    ensures Ended(o, m.bios, old(m.mem), searched, m.mem, old(m.a20), m.a20, m.asked, m.calls)
  {
    ghost var m0 := m.mem;
    searched := m0;
    o := Prepare(m);
    if o != Entered { return; }
    o, searched := Proceed(m, m0);
  }

  /** What `Booted` promises a kernel, spelled out: its images, the boot sector, the panic record. */
  lemma BootedMemory(b: Bios, m0: Memory, searched: Memory, m1: Memory, calls: nat)
    requires HeaderOk(m0) && Booted(b, m0, searched, m1, calls)
    ensures Loaded(b, m1, Dword(m0, ROOTFS_LBA), Dword(m0, ROOTFS_SECTORS), ROOTFS)
    ensures Dword(m0, KERNEL_SECTORS) <= 30720 ==>
      Loaded(b, m1, Dword(m0, KERNEL_LBA), Dword(m0, KERNEL_SECTORS), KERNEL)
    ensures Keeps(m0, m1, STAGE1, STAGE1 + SECTOR) && Keeps(m0, m1, PANIC_RECORD, FONT)
    ensures Dword(m1, BI_FONT_ADDR) == FONT && forall i: nat :: i < 4096 ==> m1[FONT + i] == b.font(i)
  {
    FontNamed(b, m0, searched, m1);
    ImagesAreWhole(b, m0, m1);
    LowMeans(m0, m1);
  }

  lemma FontNamed(b: Bios, m0: Memory, searched: Memory, m1: Memory)
    requires InfoIs(m1, Expected(b, m0, searched))
    ensures Dword(m1, BI_FONT_ADDR) == FONT
  {
  }

  lemma LowMeans(m0: Memory, m1: Memory)
    requires KeepsLow(m0, m1)
    ensures Keeps(m0, m1, STAGE1, STAGE1 + SECTOR) && Keeps(m0, m1, PANIC_RECORD, FONT)
  {
  }

  /** The fields of `BootInfo` that were there to be got wrong. */
  lemma BootedInfo(b: Bios, m0: Memory, searched: Memory, m1: Memory, calls: nat)
    requires Booted(b, m0, searched, m1, calls)
    ensures Dword(m1, BI_DISK_SIG) == Dword(m0, DISK_SIGNATURE)
    ensures Dword(m1, BI_KERNEL_PHYS) == KERNEL && Dword(m1, BI_KERNEL_LEN) == Dword(m0, KERNEL_BYTES)
    ensures if Dword(m0, ROOTFS_BYTES) == 0 then Dword(m1, BI_ROOTFS_PHYS) == Dword(m1, BI_ROOTFS_LEN) == 0
            else Dword(m1, BI_ROOTFS_PHYS) == ROOTFS && Dword(m1, BI_ROOTFS_LEN) == Dword(m0, ROOTFS_BYTES)
    ensures Dword(m1, BI_RSDP) == Rsdp(searched) && MapIs(m1, MemoryMap(b)) && LineIs(m1, FinalLine(b, m0))
    ensures exists call: nat :: call < calls && LeftBy(b, searched, call)
    ensures ScreenIs(m1, ScreenFor(b, m0, FinalLine(b, m0)))
    ensures var c := Ceiling(b, m0);
      if SaysNofb(FinalLine(b, m0)) then NoScreen(m1) else ScreenAnswered(b, c.0, c.1, m1)
  {
    assert InfoIs(m1, Expected(b, m0, searched));
    var c := Ceiling(b, m0);
    if !SaysNofb(FinalLine(b, m0)) { ScreenByAnswers(b, c.0, c.1, m1); }
  }

  /** BootInfo's map is the first 32 ranges the BIOS was asked for, as many as there are, in order. */
  lemma BootedMap(b: Bios, m0: Memory, searched: Memory, m1: Memory, calls: nat) returns (ranges: seq<seq<byte>>, at: seq<nat>)
    requires Booted(b, m0, searched, m1, calls)
    ensures MapIs(m1, ranges) && Dword(m1, BI_MMAP_LEN) == |ranges| && Listed(b.e820, ranges, at, 32)
  {
    ranges := MemoryMap(b);
    at := MapByPosition(b);
    assert InfoIs(m1, Expected(b, m0, searched));
  }
}
