/**
 Physical memory as the real-mode loader sees it, the loader's memory layout,
 and what the BIOS may answer to each interrupt.
 */
module BootMemory {
  import opened ByteFields

  /** The whole 32-bit physical address space. */
  const ADDRESSES: nat := 0x1_0000_0000

  type Memory = m: seq<byte> | |m| == ADDRESSES ghost witness Zeros(ADDRESSES)

  const MIB: nat := 0x10_0000
  const SECTOR: nat := 512

  // Low memory, in the order the loader lays it out
  const BIOS_DATA_END: nat := 0x0500
  const EBDA_POINTER: nat := 0x040E
  const VBE_INFO: nat := 0x0500
  const VBE_MODE_INFO: nat := 0x0700
  const EDID_INFO: nat := 0x0800
  const SCRATCH_END: nat := 0x0900
  const PANIC_RECORD: nat := 0x1000
  const FONT: nat := 0x5000
  const BOOTINFO: nat := 0x6000
  const BOOTINFO_SIZE: nat := 1088
  const E820_BUF: nat := 0x7000
  const STACK_LOW: nat := 0x7100
  const STAGE1: nat := 0x7C00
  const STAGE2: nat := 0x8000
  const STAGE2_END: nat := 0xC000
  const STAGING: nat := 0x2_0000
  const CHUNK_SECTORS: nat := 64
  const STAGING_END: nat := 0x2_8000
  const BIOS_HIGH: nat := 0x9_0000
  const KERNEL: nat := 0x10_0000
  const ROOTFS: nat := 0x100_0000

  // The patched header, right behind the entry jump
  const KERNEL_LBA: nat := 0x800B
  const KERNEL_SECTORS: nat := 0x800F
  const KERNEL_BYTES: nat := 0x8013
  const CMDLINE: nat := 0x8017
  const CMDLINE_LIMIT: nat := 63
  const ROOTFS_LBA: nat := 0x8057
  const ROOTFS_SECTORS: nat := 0x805B
  const ROOTFS_BYTES: nat := 0x805F
  const WANT_WIDTH: nat := 0x8063
  const WANT_HEIGHT: nat := 0x8065

  /** A 32-bit addition. */
  function Add32(a: nat, b: nat): nat {
    (a + b) % ADDRESSES
  }

  /** `m` with `bs` stored at `at`. */
  function Put(m: seq<byte>, at: nat, bs: seq<byte>): (r: seq<byte>)
    requires at + |bs| <= |m|
    ensures |r| == |m|
    ensures forall i :: 0 <= i < |m| && !(at <= i < at + |bs|) ==> r[i] == m[i]
    ensures forall i :: at <= i < at + |bs| ==> r[i] == bs[i - at]
  {
    m[..at] + bs + m[at + |bs|..]
  }

  /** `m` and `n` agree on addresses `lo` up to `hi`. */
  ghost predicate Keeps(m: seq<byte>, n: seq<byte>, lo: nat, hi: nat) {
    |m| == |n| && hi <= |m| && forall i :: lo <= i < hi ==> n[i] == m[i]
  }

  // ------------------------------------------------------------------
  // The BIOS
  // ------------------------------------------------------------------

  /**
   Memory the BIOS owns, and may leave anything in after any call: the vectors
   and its data area, the stack it runs on, and the top of the first megabyte.
   */
  predicate BiosOwned(a: nat) {
    a < BIOS_DATA_END || STACK_LOW <= a < STAGE1 || BIOS_HIGH <= a < MIB
  }

  /** Nothing changed but the BIOS's own memory and addresses `lo` up to `hi`. */
  ghost predicate KeepsBut(m: seq<byte>, n: seq<byte>, lo: nat, hi: nat) {
    |m| == |n| && forall i :: 0 <= i < |m| && !BiosOwned(i) && !(lo <= i < hi) ==> n[i] == m[i]
  }

  datatype ReadAnswer =
    | Transferred
    | Refused(left: nat, junk: nat -> byte)  // the count it leaves, the bytes it leaves

  datatype E820Answer = E820Answer(carry: bool, signed: bool, entry: seq<byte>, next: nat)

  datatype VideoAnswer = VideoAnswer(ok: bool, block: seq<byte>)

  /** Everything the machine may answer over one boot, call by call. */
  datatype Answers = Answers(
    noise: (nat, nat) -> byte,        // what call k leaves at address a of its own memory
    keepsFlat: nat -> bool,           // whether call k hands ES back with its limit
    disk: (nat, nat) -> byte,         // sector, offset
    transfer: nat -> ReadAnswer,       // INT 13h AH=42h, in order
    e820: seq<E820Answer>,            // INT 15h AX=E820, in order; then carry
    a20Service: bool,                 // whether INT 15h AX=2401 really opens the line
    gate92: byte, gateWorks: bool,    // the fast gate
    edid: VideoAnswer,                // INT 10h AX=4F15
    controller: VideoAnswer,          // INT 10h AX=4F00
    modes: seq<nat>,                  // the list it points at, before 0xFFFF
    modeInfo: nat -> VideoAnswer,     // INT 10h AX=4F01, in order
    modeSet: bool,                    // INT 10h AX=4F02
    font: nat -> byte,                // the 8x16 glyphs
    interrupted: bool,                // a key came within the two seconds
    keys: seq<byte>)                  // the keys after it, in order

  type Bios = b: Answers | Honest(b) ghost witness Silent()

  /** A BIOS that keeps to the sizes its interfaces give. */
  ghost predicate Honest(b: Answers) {
    && (forall i :: 0 <= i < |b.e820| ==> |b.e820[i].entry| == 20 || |b.e820[i].entry| == 24)
    && |b.edid.block| == 128
    && |b.controller.block| == 512
    && (forall i :: 0 <= i < |b.modes| ==> b.modes[i] < 0xFFFF)
    && (forall k: nat :: |b.modeInfo(k).block| == 256)
  }

  /** A BIOS with nothing to say. */
  ghost function Silent(): (b: Answers)
    ensures Honest(b)
  {
    var nothing := VideoAnswer(false, Zeros(256));
    Answers((_, _) => 0, _ => false, (_, _) => 0, _ => Transferred, [], false, 0, false,
            VideoAnswer(false, Zeros(128)), VideoAnswer(false, Zeros(512)), [], _ => nothing, false,
            _ => 0, false, [])
  }

  function AfterCall(b: Bios, m: seq<byte>, call: nat, i: nat): byte
    requires i < |m|
  {
    if BiosOwned(i) then b.noise(call, i) else m[i]
  }

  function Scribble(b: Bios, m: seq<byte>, call: nat): (r: seq<byte>)
    ensures |r| == |m|
    ensures forall i :: 0 <= i < |m| && !BiosOwned(i) ==> r[i] == m[i]
  {
    seq(|m|, i requires 0 <= i < |m| => AfterCall(b, m, call, i))
  }

  /** The BIOS's own memory is what call `call` left there. */
  ghost predicate LeftBy(b: Bios, m: seq<byte>, call: nat) {
    true == (|m| == ADDRESSES && forall i: nat :: i < ADDRESSES && BiosOwned(i) ==> m[i] == b.noise(call, i))
  }

  /** Byte `i` of the run of sectors that starts at `lba`. */
  function SectorByte(b: Bios, lba: nat, i: nat): byte {
    b.disk(lba + i / SECTOR, i % SECTOR)
  }
}
