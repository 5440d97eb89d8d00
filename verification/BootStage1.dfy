/**
 The boot sector: pulls the second stage off the medium, asking up to five
 times, and hands over to it.
 */
module BootStage1 {
  import opened BootMemory
  import opened BootMachine
  import opened BootDisk

  const STAGE2_LBA: nat := 1
  const STAGE2_SECTORS: nat := 32

  datatype Handoff = Loaded2 | NoEdd | DiskError

  /**
   The second stage is entered only when it stands whole at 0x8000; the boot
   sector itself, with the disk's signature in it, is not written to. The only
   other ends are a BIOS without EDD and five refusals.
   */
  method LoadStage2(m: Machine, edd: bool) returns (h: Handoff)
    modifies m`mem, m`flat, m`calls, m`asked, m`dapCount, m`dapLba, m`tries
    ensures (h == NoEdd) == !edd
    ensures h == Loaded2 ==> Loaded(m.bios, m.mem, STAGE2_LBA, STAGE2_SECTORS, STAGE2)
    ensures h == DiskError ==>
      m.asked == old(m.asked) + READ_TRIES && AllRefused(m.bios, old(m.asked), READ_TRIES)
    ensures KeepsBut(old(m.mem), m.mem, STAGE2, STAGE2_END)
  {
    m.Interrupt();  // is EDD there at all?
    if !edd { return NoEdd; }
    m.dapLba := STAGE2_LBA;
    m.tries := READ_TRIES;
    while true
      invariant 0 < m.tries <= READ_TRIES && m.dapLba == STAGE2_LBA
      invariant m.asked == old(m.asked) + READ_TRIES - m.tries
      invariant AllRefused(m.bios, old(m.asked), READ_TRIES - m.tries)
      invariant KeepsBut(old(m.mem), m.mem, STAGE2, STAGE2_END)
      decreases m.tries
    {
      m.dapCount := STAGE2_SECTORS;
      var carry := ReadSectors(m, STAGE2, STAGE2_END);
      if !carry { return Loaded2; }
      m.tries := m.tries - 1;
      if m.tries == 0 { return DiskError; }
      m.Interrupt();  // reset the drive, then ask again
    }
  }
}
