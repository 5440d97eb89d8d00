/**
 The machine the loader runs on, and the interrupts that have no answer of
 their own to give.
 */
module BootMachine {
  import opened ByteFields
  import opened BootMemory

  class Machine {
    const bios: Bios

    var mem: Memory
    var a20: bool            // the twentieth address line is open
    var flat: bool           // ES still caches the 4 GiB limit

    // How many answers of each kind have been taken
    var calls: nat
    var asked: nat

    // The loader's own variables
    var dapCount: nat
    var dapLba: nat
    var chunkCount: nat
    var tries: nat
    var ceilingWidth: nat
    var ceilingHeight: nat

    constructor (b: Bios, m: Memory, line: bool)
      ensures bios == b && mem == m && a20 == line
      ensures asked == 0
    {
      bios := b;
      mem, a20, flat := m, line, false;
      calls, asked := 0, 0;
      dapCount, dapLba, chunkCount, tries := 0, 0, 0, 0;
      ceilingWidth, ceilingHeight := 0, 0;
    }

    /** Where an address lands: with the line shut, bit 20 reads as zero. */
    function Physical(a: nat): (p: nat)
      requires a < ADDRESSES
      reads this`a20
      ensures p < ADDRESSES
      ensures p == a || (!a20 && p + MIB == a)
      ensures a < MIB ==> p == a
      ensures p == a <==> a20 || (a / MIB) % 2 == 0
    {
      if !a20 && (a / MIB) % 2 == 1 then a - MIB else a
    }

    /** Any interrupt: the BIOS works in its own memory and may reload ES. */
    method Interrupt()
      modifies this`mem, this`flat, this`calls
      ensures KeepsBut(old(mem), mem, 0, 0)
      ensures calls == old(calls) + 1 && LeftBy(bios, mem, old(calls))
    {
      mem := Scribble(bios, mem, calls);
      flat := flat && bios.keepsFlat(calls);
      calls := calls + 1;
    }

    /** An interrupt that also fills a buffer the loader named. */
    method InterruptInto(at: nat, block: seq<byte>)
      requires at + |block| <= ADDRESSES
      requires forall i :: at <= i < at + |block| ==> !BiosOwned(i)
      modifies this`mem, this`flat, this`calls
      ensures forall i :: at <= i < at + |block| ==> mem[i] == block[i - at]
      ensures KeepsBut(old(mem), mem, at, at + |block|)
      ensures calls == old(calls) + 1 && LeftBy(bios, mem, old(calls))
    {
      Interrupt();
      mem := Put(mem, at, block);
    }
  }
}
