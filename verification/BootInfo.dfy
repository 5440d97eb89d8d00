/**
 BootInfo: every field as the kernel reads it, and the routines that settle the
 last of them.

 Contracts that a caller carries from stage to stage are written `true == (...)`,
 which keeps each of them one fact until a lemma opens it.
 */
module BootInfo {
  import opened ByteFields
  import opened BootMemory
  import opened BootMachine
  import opened BootLine
  import opened BootTables
  import opened BootVideo

  const DISK_SIGNATURE: nat := STAGE1 + 0x1B8
  const BOOTINFO_END: nat := BOOTINFO + BOOTINFO_SIZE

  datatype Info = Info(
    kernelPhys: nat, kernelLen: nat, rootfsPhys: nat, rootfsLen: nat,
    rsdp: nat, diskSig: nat, line: seq<byte>, ranges: seq<seq<byte>>,
    screen: Framebuffer, font: nat)

  const BLANK := Info(0, 0, 0, 0, 0, 0, [], [], NO_FRAMEBUFFER, 0)

  /** The line, its length, and zeros to the end of its 256 bytes. */
  ghost predicate LineIs(mem: Memory, line: seq<byte>) {
    && |line| <= CMDLINE_LIMIT
    && Word(mem, BI_CMDLINE_LEN) == |line|
    && mem[BI_CMDLINE..BI_CMDLINE + |line|] == line
    && (forall i :: BI_CMDLINE + |line| <= i < BI_LOG_LEN ==> mem[i] == 0)
  }

  /** Every field of the structure at 0x6000, the ones the loader leaves zero included. */
  ghost predicate InfoIs(mem: Memory, info: Info) {
    true == (
      && Dword(mem, BI_MAGIC) == BOOTINFO_MAGIC && Word(mem, BI_VERSION) == BOOTINFO_VERSION
      && Word(mem, BI_SOURCE) == 0
      && Dword(mem, BI_KERNEL_PHYS) == info.kernelPhys && Dword(mem, BI_KERNEL_LEN) == info.kernelLen
      && Dword(mem, BI_ROOTFS_PHYS) == info.rootfsPhys && Dword(mem, BI_ROOTFS_LEN) == info.rootfsLen
      && Dword(mem, BI_RSDP) == info.rsdp && Dword(mem, BI_DISK_SIG) == info.diskSig
      && Word(mem, BI_BOOT_PART) == 0
      && LineIs(mem, info.line)
      && Dword(mem, BI_LOG_LEN) == 0 && Dword(mem, BI_LOG_LEN + 4) == 0
      && Dword(mem, BI_MMAP_LEN) == |info.ranges| && MapIs(mem, info.ranges)
      && ScreenIs(mem, info.screen) && mem[BI_FB_BPP + 1] == 0
      && Dword(mem, BI_FONT_ADDR) == info.font)
  }

  /** A cleared block with a map and a root pointer in it. */
  lemma ProbedIsInfo(mem: Memory, ranges: seq<seq<byte>>, rsdp: nat)
    requires Dword(mem, BI_MAGIC) == BOOTINFO_MAGIC && Word(mem, BI_VERSION) == BOOTINFO_VERSION
    requires forall i :: BI_SOURCE <= i < BI_RSDP || BI_DISK_SIG <= i < BI_MMAP_LEN ==> mem[i] == 0
    requires forall i :: BI_FB_ADDR <= i < BOOTINFO_END ==> mem[i] == 0
    requires Dword(mem, BI_RSDP) == rsdp
    requires Dword(mem, BI_MMAP_LEN) == |ranges| && MapIs(mem, ranges)
    ensures InfoIs(mem, BLANK.(ranges := ranges, rsdp := rsdp))
  {
  }

  lemma LineFrame(m0: Memory, m1: Memory, line: seq<byte>)
    requires LineIs(m0, line) && Keeps(m0, m1, BI_CMDLINE_LEN, BI_LOG_LEN)
    ensures LineIs(m1, line)
  {
    assert m1[BI_CMDLINE..BI_CMDLINE + |line|] == m0[BI_CMDLINE..BI_CMDLINE + |line|];
  }

  /** What nobody writes to stays true. */
  lemma InfoFrame(m0: Memory, m1: Memory, info: Info)
    requires InfoIs(m0, info) && Keeps(m0, m1, BOOTINFO, BOOTINFO_END)
    ensures InfoIs(m1, info)
  {
    LineFrame(m0, m1, info.line);
    MapFrame(m0, m1, info.ranges);
  }

  // ------------------------------------------------------------------
  // The font
  // ------------------------------------------------------------------

  ghost predicate FontSet(b: Bios, m0: Memory, m1: Memory) {
    true == (
      && (forall i :: FONT <= i < BOOTINFO ==> m1[i] == b.font(i - FONT))
      && Dword(m1, BI_FONT_ADDR) == FONT
      && (forall i :: 0 <= i < ADDRESSES && !BiosOwned(i) && !InFont(i) ==> m1[i] == m0[i]))
  }

  predicate InFont(i: nat) {
    FONT <= i < BOOTINFO || BI_FONT_ADDR <= i < BI_FONT_ADDR + 4
  }

  /** The video ROM's glyphs, brought below BootInfo. */
  method CopyFont(m: Machine)
    modifies m`mem, m`flat, m`calls
    ensures FontSet(m.bios, old(m.mem), m.mem) && m.calls >= old(m.calls)
  {
    var b := m.bios;
    m.Interrupt();
    m.mem := Put(m.mem, FONT, seq(4096, i requires 0 <= i < 4096 => b.font(i)));
    m.mem := Put(m.mem, BI_FONT_ADDR, Dword4(FONT));
  }

  lemma FontIsInfo(b: Bios, m0: Memory, m1: Memory, info: Info)
    requires InfoIs(m0, info) && FontSet(b, m0, m1)
    ensures InfoIs(m1, info.(font := FONT))
  {
    LineFrame(m0, m1, info.line);
    MapFrame(m0, m1, info.ranges);
  }

  // ------------------------------------------------------------------
  // The screen
  // ------------------------------------------------------------------

  ghost predicate ScreenSet(m0: Memory, m1: Memory, screen: Framebuffer) {
    true == (ScreenIs(m1, screen) && KeepsButScreen(m0, m1))
  }

  lemma ScreenIsInfo(m0: Memory, m1: Memory, info: Info, screen: Framebuffer)
    requires InfoIs(m0, info) && ScreenSet(m0, m1, screen)
    ensures InfoIs(m1, info.(screen := screen))
  {
    LineFrame(m0, m1, info.line);
    MapFrame(m0, m1, info.ranges);
  }

  /** What the line, the panel, the header and the BIOS make of the screen. */
  ghost function ScreenFor(b: Bios, mem: Memory, line: seq<byte>): Framebuffer {
    var c := Ceiling(b, mem);
    if SaysNofb(line) then NO_FRAMEBUFFER else Screen(b, c.0, c.1)
  }

  method SetScreen(m: Machine, ghost line: seq<byte>, ghost info: Info)
    requires AtEnd(m.mem, line, CMDLINE + |line|) && InfoIs(m.mem, info) && info.screen == NO_FRAMEBUFFER
    modifies m`mem, m`flat, m`calls, m`ceilingWidth, m`ceilingHeight
    ensures ScreenSet(old(m.mem), m.mem, ScreenFor(m.bios, old(m.mem), line)) && m.calls >= old(m.calls)
  {
    AtEndIsLine(m.mem, line, CMDLINE + |line|);
    MaybeSetVideo(m);
  }

  // ------------------------------------------------------------------
  // The line and the header's own fields
  // ------------------------------------------------------------------

  /** The loop that copies the line, up to its terminator or 63 characters. */
  method CopyLine(m: Machine, ghost line: seq<byte>) returns (cx: nat)
    requires AtEnd(m.mem, line, CMDLINE + |line|)
    modifies m`mem
    ensures cx == |line|
    ensures forall i :: BI_CMDLINE <= i < BI_CMDLINE + cx ==> m.mem[i] == line[i - BI_CMDLINE]
    ensures forall i :: 0 <= i < ADDRESSES && !(BI_CMDLINE <= i < BI_CMDLINE + cx) ==> m.mem[i] == old(m.mem)[i]
  {
    cx := 0;
    while true
      invariant 0 <= cx <= |line| && cx < CMDLINE_LIMIT
      invariant forall i :: BI_CMDLINE <= i < BI_CMDLINE + cx ==> m.mem[i] == line[i - BI_CMDLINE]
      invariant forall i :: 0 <= i < ADDRESSES && !(BI_CMDLINE <= i < BI_CMDLINE + cx) ==> m.mem[i] == old(m.mem)[i]
      decreases CMDLINE_LIMIT - cx
    {
      var al := m.mem[CMDLINE + cx];
      if al == 0 { break; }
      m.mem := m.mem[BI_CMDLINE + cx := al];
      cx := cx + 1;
      if cx >= CMDLINE_LIMIT { break; }
    }
  }

  ghost predicate LineSet(m0: Memory, m1: Memory, line: seq<byte>) {
    true == (
      && Word(m1, BI_CMDLINE_LEN) == |line| <= CMDLINE_LIMIT
      && (forall i :: BI_CMDLINE <= i < BI_CMDLINE + |line| ==> m1[i] == line[i - BI_CMDLINE])
      && (forall i :: 0 <= i < ADDRESSES && !(BI_CMDLINE_LEN <= i < BI_CMDLINE + |line|) ==> m1[i] == m0[i]))
  }

  method StoreLine(m: Machine, ghost line: seq<byte>)
    requires AtEnd(m.mem, line, CMDLINE + |line|)
    modifies m`mem
    ensures LineSet(old(m.mem), m.mem, line)
  {
    var cx := CopyLine(m, line);
    m.mem := Put(m.mem, BI_CMDLINE_LEN, Word2(cx));
  }

  lemma LineIsInfo(m0: Memory, m1: Memory, info: Info, line: seq<byte>)
    requires InfoIs(m0, info) && info.line == [] && LineSet(m0, m1, line)
    ensures InfoIs(m1, info.(line := line))
  {
    assert m1[BI_CMDLINE..BI_CMDLINE + |line|] == line;
    MapFrame(m0, m1, info.ranges);
  }

  /** What the header and the boot sector add. */
  ghost function Finished(mem: Memory, line: seq<byte>, info: Info): Info {
    var done := info.(line := line, diskSig := Dword(mem, DISK_SIGNATURE),
                      kernelPhys := KERNEL, kernelLen := Dword(mem, KERNEL_BYTES));
    if Dword(mem, ROOTFS_BYTES) == 0 then done
    else done.(rootfsPhys := ROOTFS, rootfsLen := Dword(mem, ROOTFS_BYTES))
  }

  ghost predicate FieldsSet(m0: Memory, m1: Memory) {
    true == (
      && Dword(m1, BI_DISK_SIG) == Dword(m0, DISK_SIGNATURE)
      && Dword(m1, BI_KERNEL_PHYS) == KERNEL && Dword(m1, BI_KERNEL_LEN) == Dword(m0, KERNEL_BYTES)
      && (if Dword(m0, ROOTFS_BYTES) == 0 then Keeps(m0, m1, BI_ROOTFS_PHYS, BI_RSDP)
          else Dword(m1, BI_ROOTFS_PHYS) == ROOTFS && Dword(m1, BI_ROOTFS_LEN) == Dword(m0, ROOTFS_BYTES))
      && Keeps(m0, m1, 0, BI_KERNEL_PHYS) && Keeps(m0, m1, BI_RSDP, BI_DISK_SIG)
      && Keeps(m0, m1, BI_BOOT_PART, ADDRESSES))
  }

  method StoreFields(m: Machine)
    modifies m`mem
    ensures FieldsSet(old(m.mem), m.mem)
  {
    m.mem := Put(m.mem, BI_DISK_SIG, Dword4(Dword(m.mem, DISK_SIGNATURE)));
    m.mem := Put(m.mem, BI_KERNEL_PHYS, Dword4(KERNEL));
    m.mem := Put(m.mem, BI_KERNEL_LEN, Dword4(Dword(m.mem, KERNEL_BYTES)));
    StoreRootfs(m);
  }

  method StoreRootfs(m: Machine)
    modifies m`mem
    ensures Keeps(old(m.mem), m.mem, 0, BI_ROOTFS_PHYS) && Keeps(old(m.mem), m.mem, BI_RSDP, ADDRESSES)
    ensures if Dword(old(m.mem), ROOTFS_BYTES) == 0 then m.mem == old(m.mem)
            else Dword(m.mem, BI_ROOTFS_PHYS) == ROOTFS
                 && Dword(m.mem, BI_ROOTFS_LEN) == Dword(old(m.mem), ROOTFS_BYTES)
  {
    var rootfsBytes := Dword(m.mem, ROOTFS_BYTES);
    if rootfsBytes != 0 {
      m.mem := Put(m.mem, BI_ROOTFS_PHYS, Dword4(ROOTFS));
      m.mem := Put(m.mem, BI_ROOTFS_LEN, Dword4(rootfsBytes));
    }
  }

  lemma FieldsAreInfo(m0: Memory, m1: Memory, m2: Memory, info: Info, line: seq<byte>)
    requires LineSet(m0, m1, line) && InfoIs(m1, info.(line := line)) && FieldsSet(m1, m2)
    ensures InfoIs(m2, Finished(m0, line, info))
  {
    LineFrame(m1, m2, line);
    MapFrame(m1, m2, info.ranges);
    assert Dword(m1, DISK_SIGNATURE) == Dword(m0, DISK_SIGNATURE);
    assert Dword(m1, KERNEL_BYTES) == Dword(m0, KERNEL_BYTES);
    assert Dword(m1, ROOTFS_BYTES) == Dword(m0, ROOTFS_BYTES);
  }

  /** Only BootInfo is written to. */
  ghost predicate OnlyInfo(m0: Memory, m1: Memory) {
    forall i :: 0 <= i < ADDRESSES && !(BOOTINFO <= i < BOOTINFO_END) ==> m1[i] == m0[i]
  }

  lemma LineAndFieldsFrame(m0: Memory, m1: Memory, m2: Memory, line: seq<byte>)
    requires LineSet(m0, m1, line) && FieldsSet(m1, m2)
    ensures OnlyInfo(m0, m2)
  {
  }

  method FinishBootInfo(m: Machine, ghost line: seq<byte>, ghost info: Info)
    requires AtEnd(m.mem, line, CMDLINE + |line|)
    requires InfoIs(m.mem, info) && info.line == []
    modifies m`mem
    ensures InfoIs(m.mem, Finished(old(m.mem), line, info)) && OnlyInfo(old(m.mem), m.mem)
  {
    ghost var m0 := m.mem;
    StoreLine(m, line);
    ghost var m1 := m.mem;
    LineIsInfo(m0, m1, info, line);
    StoreFields(m);
    FieldsAreInfo(m0, m1, m.mem, info, line);
    LineAndFieldsFrame(m0, m1, m.mem, line);
  }
}
