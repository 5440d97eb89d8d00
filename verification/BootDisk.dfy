/**
 Reading the kernel and the root filesystem: a chunk at a time through a low
 staging buffer, each chunk asked for up to five times, then copied up past
 1 MiB through a flat ES that every BIOS call may have taken away.
 */
module BootDisk {
  import opened ByteFields
  import opened BootMemory
  import opened BootMachine

  const READ_TRIES: nat := 5

  /** INT 13h AH=42h, into `at`: honours the packet as it stands, and rewrites its count. */
  method ReadSectors(m: Machine, at: nat, ghost limit: nat) returns (carry: bool)
    requires at + SECTOR * m.dapCount <= limit <= ADDRESSES
    requires forall i :: at <= i < limit ==> !BiosOwned(i)
    modifies m`mem, m`flat, m`calls, m`asked, m`dapCount
    ensures m.asked == old(m.asked) + 1
    ensures carry == m.bios.transfer(old(m.asked)).Refused?
    ensures !carry ==>
      forall i :: at <= i < at + SECTOR * old(m.dapCount) ==>
        m.mem[i] == SectorByte(m.bios, m.dapLba, i - at)
    ensures KeepsBut(old(m.mem), m.mem, at, limit) && m.calls > old(m.calls)
  {
    var answer := m.bios.transfer(m.asked);
    m.asked := m.asked + 1;
    var size := SECTOR * m.dapCount;
    var lba, b := m.dapLba, m.bios;
    match answer {
      case Transferred =>
        m.InterruptInto(at, seq(size, i requires 0 <= i < size => SectorByte(b, lba, i)));
        carry := false;
      case Refused(left, junk) =>
        m.InterruptInto(at, seq(size, i requires 0 <= i < size => junk(i)));
        m.dapCount := left;
        carry := true;
    }
  }

  /** True when attempts `from` up to `from + n` were all refused. */
  ghost predicate AllRefused(b: Bios, from: nat, n: nat) {
    forall k :: from <= k < from + n ==> b.transfer(k).Refused?
  }

  method ReadChunk(m: Machine) returns (carry: bool)
    requires m.chunkCount <= CHUNK_SECTORS
    modifies m`mem, m`flat, m`calls, m`asked, m`dapCount, m`tries
    ensures !carry ==>
      && old(m.asked) < m.asked <= old(m.asked) + READ_TRIES
      && AllRefused(m.bios, old(m.asked), m.asked - old(m.asked) - 1)
      && forall i :: STAGING <= i < STAGING + SECTOR * m.chunkCount ==>
           m.mem[i] == SectorByte(m.bios, m.dapLba, i - STAGING)
    ensures carry ==>
      m.asked == old(m.asked) + READ_TRIES && AllRefused(m.bios, old(m.asked), READ_TRIES)
    ensures KeepsBut(old(m.mem), m.mem, STAGING, STAGING_END) && m.calls > old(m.calls)
  {
    m.tries := READ_TRIES;
    while true
      invariant 0 < m.tries <= READ_TRIES
      invariant m.asked == old(m.asked) + READ_TRIES - m.tries
      invariant AllRefused(m.bios, old(m.asked), READ_TRIES - m.tries)
      invariant KeepsBut(old(m.mem), m.mem, STAGING, STAGING_END) && m.calls >= old(m.calls)
      decreases m.tries
    {
      m.dapCount := m.chunkCount;
      carry := ReadSectors(m, STAGING, STAGING_END);
      if !carry { return; }
      m.tries := m.tries - 1;
      if m.tries == 0 { return; }
      m.Interrupt();  // reset the drive, then ask again
    }
  }

  /** The brief visit to protected mode that leaves ES with a 4 GiB limit. */
  method SetupUnreal(m: Machine)
    modifies m`flat
    ensures m.flat
  {
    m.flat := true;
  }

  /** A store through ES: past 64 KiB it goes nowhere unless ES is flat. */
  method StoreHigh(m: Machine, at: nat, b: byte)
    requires at < ADDRESSES
    modifies m`mem
    ensures m.mem == if m.flat || at < 0x1_0000 then old(m.mem)[m.Physical(at) := b] else old(m.mem)
  {
    if m.flat || at < 0x1_0000 {
      m.mem := m.mem[m.Physical(at) := b];
    }
  }

  /** The copy from the staging buffer to `dst`. */
  method CopyUp(m: Machine, dst: nat)
    requires m.chunkCount <= CHUNK_SECTORS
    requires m.flat && m.a20 && MIB <= dst && dst + SECTOR * m.chunkCount <= ADDRESSES
    modifies m`mem
    ensures forall i :: 0 <= i < ADDRESSES && !(dst <= i < dst + SECTOR * m.chunkCount) ==>
      m.mem[i] == old(m.mem)[i]
    ensures forall i :: dst <= i < dst + SECTOR * m.chunkCount ==>
      m.mem[i] == old(m.mem)[STAGING + (i - dst)]
  {
    var size := SECTOR * m.chunkCount;
    for k := 0 to size
      invariant forall i :: 0 <= i < ADDRESSES && !(dst <= i < dst + k) ==> m.mem[i] == old(m.mem)[i]
      invariant forall i :: dst <= i < dst + k ==> m.mem[i] == old(m.mem)[STAGING + (i - dst)]
    {
      StoreHigh(m, dst + k, m.mem[STAGING + k]);
    }
  }

  /** Sectors later in the run are sectors of the run that starts later. */
  lemma SectorShift(b: Bios, lba: nat, n: nat, i: nat)
    ensures SectorByte(b, lba, SECTOR * n + i) == SectorByte(b, lba + n, i)
  {
    assert (SECTOR * n + i) / SECTOR == n + i / SECTOR;
    assert (SECTOR * n + i) % SECTOR == i % SECTOR;
  }

  /** Nothing changed but the blob, the staging buffer and the BIOS's own memory. */
  ghost predicate KeepsButBlob(m: seq<byte>, n: seq<byte>, dst: nat, size: nat) {
    |m| == |n| &&
    forall i :: 0 <= i < |m| && !BiosOwned(i) && !(STAGING <= i < STAGING_END) && !(dst <= i < dst + size) ==>
      n[i] == m[i]
  }

  /** The run of `n` sectors from `lba` stands at `dst`. */
  ghost predicate Loaded(b: Bios, mem: Memory, lba: nat, n: nat, dst: nat) {
    dst + SECTOR * n <= |mem| &&
    forall i :: dst <= i < dst + SECTOR * n ==> mem[i] == SectorByte(b, lba, i - dst)
  }

  /** Byte `o` of the `s`th sector from `lba` stands `s` sectors and `o` bytes behind `dst`. */
  lemma LoadedBySector(b: Bios, mem: Memory, lba: nat, n: nat, dst: nat, s: nat, o: nat)
    requires Loaded(b, mem, lba, n, dst) && s < n && o < 512
    ensures dst + 512 * s + o < |mem| && mem[dst + 512 * s + o] == b.disk(lba + s, o)
  {
    SectorShift(b, lba, s, o);
    assert mem[dst + 512 * s + o] == SectorByte(b, lba, SECTOR * s + o);
  }

  /** One more chunk of the run, in place behind the chunks already there. */
  lemma LoadedGrows(b: Bios, mem: Memory, mem': Memory, lba: nat, n: nat, k: nat, dst: nat)
    requires Loaded(b, mem, lba, n, dst) && Keeps(mem, mem', dst, dst + SECTOR * n)
    requires Loaded(b, mem', lba + n, k, dst + SECTOR * n)
    ensures Loaded(b, mem', lba, n + k, dst)
  {
    forall i | dst <= i < dst + SECTOR * (n + k)
      ensures mem'[i] == SectorByte(b, lba, i - dst)
    {
      if dst + SECTOR * n <= i {
        SectorShift(b, lba, n, i - dst - SECTOR * n);
      }
    }
  }

  /** One chunk from the disk to `edi`, or five refusals and nothing above 1 MiB touched. */
  method LoadChunk(m: Machine, edi: nat) returns (carry: bool)
    requires m.a20 && m.chunkCount <= CHUNK_SECTORS
    requires MIB <= edi && edi + SECTOR * m.chunkCount <= ADDRESSES
    modifies m`mem, m`flat, m`calls, m`asked, m`dapCount, m`tries
    ensures KeepsButBlob(old(m.mem), m.mem, edi, SECTOR * m.chunkCount) && m.calls > old(m.calls)
    ensures !carry ==> Loaded(m.bios, m.mem, m.dapLba, m.chunkCount, edi)
    ensures carry ==> Keeps(old(m.mem), m.mem, MIB, ADDRESSES)
    ensures carry ==> m.asked >= READ_TRIES && AllRefused(m.bios, m.asked - READ_TRIES, READ_TRIES)
  {
    carry := ReadChunk(m);
    if carry { return; }
    SetupUnreal(m);
    ghost var staged := m.mem;
    CopyUp(m, edi);
    forall i | edi <= i < edi + SECTOR * m.chunkCount
      ensures m.mem[i] == SectorByte(m.bios, m.dapLba, i - edi)
    {
      assert staged[STAGING + (i - edi)] == SectorByte(m.bios, m.dapLba, i - edi);
    }
  }

  lemma BlobFrameGrows(m0: Memory, m1: Memory, m2: Memory, dst: nat, size: nat, at: nat, part: nat)
    requires KeepsButBlob(m0, m1, dst, size) && KeepsButBlob(m1, m2, at, part)
    requires dst <= at && at + part <= dst + size
    ensures KeepsButBlob(m0, m2, dst, size)
  {
  }

  /**
   `count` sectors from `lba` to physical `dst`, with nothing else above 1 MiB
   changed and nothing below it but the staging buffer and the BIOS's own; or a
   refusal, after five refusals of one chunk.
   */
  method LoadBlob(m: Machine, lba: nat, count: nat, dst: nat) returns (failed: bool)
    requires m.a20
    requires lba < ADDRESSES && lba + count <= ADDRESSES && MIB <= dst && dst + SECTOR * count <= ADDRESSES
    modifies m`mem, m`flat, m`calls, m`asked, m`dapCount, m`dapLba, m`chunkCount, m`tries
    ensures KeepsButBlob(old(m.mem), m.mem, dst, SECTOR * count) && m.calls >= old(m.calls)
    ensures !failed ==> Loaded(m.bios, m.mem, lba, count, dst)
    ensures failed ==> m.asked >= READ_TRIES && AllRefused(m.bios, m.asked - READ_TRIES, READ_TRIES)
  {
    m.dapLba := lba;
    var ecx: nat, edi: nat := count, dst;
    while ecx != 0
      invariant ecx <= count
      invariant ecx != 0 ==> m.dapLba == lba + (count - ecx)
      invariant edi == dst + SECTOR * (count - ecx)
      invariant KeepsButBlob(old(m.mem), m.mem, dst, SECTOR * count) && m.calls >= old(m.calls)
      invariant Loaded(m.bios, m.mem, lba, count - ecx, dst)
      decreases ecx
    {
      m.chunkCount := if ecx <= CHUNK_SECTORS then ecx else CHUNK_SECTORS;
      ghost var before := m.mem;
      var carry := LoadChunk(m, edi);
      BlobFrameGrows(old(m.mem), before, m.mem, dst, SECTOR * count, edi, SECTOR * m.chunkCount);
      if carry { return true; }
      LoadedGrows(m.bios, before, m.mem, lba, count - ecx, m.chunkCount, dst);
      edi := edi + SECTOR * m.chunkCount;
      ecx := ecx - m.chunkCount;
      m.dapLba := Add32(m.dapLba, m.chunkCount);  // the low half of the packet only
    }
    m.Interrupt();  // the dot that marks a blob as read
    failed := false;
  }
}
