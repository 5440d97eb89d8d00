# A model of the loader, the shared ring, the FAT driver and three small programs

This project models the parts of the operating system in which one wrong step loses data
without a message, and proves what those parts are for.

**The boot loader** (`Boot*.dfy`). A machine has byte memory behind the A20 line, an ES register
whose 4 GiB limit any BIOS call may drop, a disk and a BIOS. The BIOS is a value that fixes every
answer of one boot: refusals, garbage left in buffers and in its own memory, an E820 stream, an
EDID block, a mode list, keys. Each routine is a method over that machine, with its loops and its
exact frame. `Boot.Run` is the whole program: on every run that enters the kernel, whatever the
BIOS did, both images are in place sector by sector, every field of BootInfo is what a short
specification says, and nothing below or above 1 MiB changed that the loader or the BIOS does not
own. `BootStage1` is the first stage's retried read.

**The shared ring** (`Ring.dfy`). Producer and consumer are lists of atomic steps that any
scheduler may interleave. Indices are 32-bit words that wrap. Safety, the absence of lost wake-ups
and progress hold of every schedule.

**The FAT driver** (`Fat*.dfy`). A volume has two copies of its table, clusters, a record
directory, and a one-sector cache in front of the table. Every sector the driver writes is added to
a history, which is what a power cut may leave. The calls that create, write, resize, rename and
remove are methods over it. Several files may be open at once (`FatHandles.dfy`): each handle keeps
what its record should say until it closes, and what it has gained meanwhile is in the table and in
no record. `FatSession.Session` takes any sequence of calls through any number of handles and says
what each does or why it is refused, and for every medium in the history which files a reader finds.
It ends at the first call that reaches past an open handle to its record, which nothing in the driver
forbids. What such a call does to the handle is in `FatStale.dfy` and `FatCareless.dfy`: a handle whose
record led nowhere depends on it for nothing and outlives any run of further calls, and for a handle
whose record led to clusters each call has the exact condition under which closing it is still sound.

**The check that runs at mount** is `FatCheck.Check`, on any bytes at all. Its specification,
`FatCheck.CheckedTo`, is told from the walks of the volume as it was: a record whose walk runs into
an earlier one's is left alone, every other record is put right, and an entry changes only where a
record was put right or where no walk comes. `FatFaults.dfy` says record by record what that is, from
the clusters it leads to and the table alone, without the driver's verdicts. What that means for clean, sound, crossed and doubled
volumes, and for a second check, is derived from it in `FatClean.dfy`, `FatCrossed.dfy`,
`FatAgain.dfy` and `FatDoubled.dfy`.
`FatRecovery.Recover` puts the two halves together: for any logged run of operations and any medium
a cut in it left, which files are there after a check, which clusters are free, and what a second
check does.

**Three programs.** `Blit.dfy` is the scaled blit of `frames.c`, `Beep.dfy` the sound loop of
`beep.c`, and `Tiff.dfy` the writer of raw-photograph fixtures with an independent reader.

`ByteFields.dfy` holds bytes and little-endian fields for all of them.

## How the parts are proved

State that the source updates in place is a class, and a method's contract gives the whole new
state. Costly reasoning is on values: a method takes snapshots, and a lemma about them does the
work. A predicate written `true == (...)` is one that callers are meant to carry about whole.

A medium is `Sound` when every record leads to a terminated chain long enough for its size and no
two records share a cluster; it is `Whole` with some files when it is sound and shows exactly those
files. `Torn` lays some front part of the bytes being written over one of them. While a file is
being written the medium's table lags behind the cache, and `Behind` says how: every record is sound
with this file's chain cut short somewhere. Growth only ever lengthens that chain, so one invariant
serves every write. A write leaves alone every cluster in use but its own chain's (`Spared`,
`Untouched`), which is what keeps the other open files whole although no record names what they hold.
No call touches what is in use and nobody's (`LeavesBe`), which is what keeps a handle that has lost its
record. Such a handle writes as one of a volume with one record more: an entry is `told` records, its
own volume's or others, and everything a write promises is promised of the volume as told.

A `Walk` is what following a record comes to in any table: distinct clusters until the chain ends,
leaves the volume or bites its own tail. Every table has exactly one from each cluster
(`FatTable.WalkExists`, `FatTable.WalkUnique`), which is what lets the check be specified before it
runs, on a damaged volume as on a sound one.

## Where the code and the design differ

The model follows the code.

- A file made longer has its record written before the table's dirty sector
  (`src/kernel/fat.zig:1103-1116`), although `design/03-storage-fs.md:550-554` puts the record last.
  The medium between the two writes is sound if and only if the clusters the file already had reach
  the new size: `FatTruncate.GrowOpen`, and `FatExamples.GrownPastItsChain` is a run in which they do not.
  Nothing is lost by it: the check brings the size back to the chain (`FatRecovery.AheadRecovered`).
- A rename writes the new record before it forgets the old one, so between the two writes two
  records share a chain, which `design/03-storage-fs.md:568` says cannot happen. That medium occurs
  in every rename to another record, and is sound if and only if the file has no cluster:
  `FatFiles.Rename`, and `FatExamples.RenamedUnderTwoNames` is such a run. Both names then read as
  the file (`FatFiles.DoubledReads`).
- The check cuts the first of the two names to its size and leaves the second as crossed. With bytes
  in the file all is well. A file of size zero with a cluster, which a failed write, then an empty one
  and a close leave, loses the cluster while its second name still leads there, although
  `src/kernel/fat/check.zig:278-280` says a repair never leaves a record naming freed clusters. Every file
  is carried through the check, and a second check writes nothing, if and only if the file has bytes:
  `FatRecovery.DoubledRecovered`, `FatRecovery.DoubledAgain`, and `FatExamples.HollowFileLost` is that run.
- More generally the check frees the tail of a chain it cuts, which `src/kernel/fat/check.zig:261-262`
  takes to belong to nobody else, and `src/kernel/fat/check.zig:15-18` says clusters two chains claim
  are never repaired. A record whose own chain was whole keeps the front of its contents if and only
  if no record inspected before it gives a cluster of that front back: `FatCrossed.WholeRecord`, and
  `FatExamples.SharedTailFreed` is a check in which one does. A second check then still has something to
  repair, and exactly then: `FatAgain.CheckedAgain`.
- The check that follows a cut rounds the size of a file up to whole clusters when its chain is
  longer than its record (`src/kernel/fat/check.zig:281-298`), so the file gains up to a cluster of
  bytes it never had. Contents are unchanged if and only if the chain was exact or the size was a
  whole number of clusters: `FatContents.CheckedFile`, and `FatExamples.CheckedIntoSlack` is a write, a
  cut and a check that make 512 bytes of one.
- Nothing keeps a file from being removed, renamed, replaced or resized by others while a handle is open
  on it (`src/kernel/vfs.zig:803-829`), and a handle that has written writes its record when it closes,
  over whatever has its place by then (`src/kernel/handle.zig:256-285`). If the record had no cluster, the
  volume stays sound and the name there comes to mean what the handle read, whoever's file it was:
  `FatStale.OutliveAndClose`. If it had, closing the handle leaves the volume sound
  - after a deletion and a new file in the same record: never (`FatCareless.RemovedUnder`);
  - after another file was moved onto the name: never (`FatCareless.ReplacedUnder`);
  - after the file was moved and its record given to a new one: never (`FatCareless.MovedUnder`);
  - after another handle cut the file: if and only if something was left and it reaches as far as the
    first handle, and then the cut is undone (`FatCareless.CutUnder`);
  - after another handle lengthened it: always, but what the first had written behind the record's end is
    zeros as far as the other reached (`FatCareless.GrownUnder`);
  - at any later time: if and only if its first cluster is in the chain of that very record, with enough
    behind it (`FatCareless.LaterClose`).

  `FatExamples.StaleHandle` and `FatExamples.StaleBytes` are runs of the two kinds. A write through such a
  handle changes no file that shares no cluster with it (`FatStale.WriteStray`, `FatCareless.WriteAlone`),
  and one sector of it changes a file exactly if another byte falls within what that file shows
  (`FatCareless.SectorUnder`).
- The ACPI pointer search wraps a 16-bit offset in the last paragraph of a 64 KiB window, so a valid
  structure there may be missed and an invalid one accepted. `BootRsdp.LastParagraph` gives the exact
  condition there and `BootRsdp.SearchIsSpecified` that of the whole search,
  `BootRsdp.LastParagraphMissed` a memory in which a valid structure is missed, and
  `BootRsdp.LastParagraphMistaken` one in which an invalid one is taken.
- The fixture writer always stores a string's offset, although its own comment says four bytes or
  fewer sit in the entry. `Tiff.TextEntryReads` says exactly when a reader still recovers the string.
- The sound loop has no cycle to play below 998 frames a second (`Beep.CycleNeedsRate`): it then divides by
  zero if and only if a frame is wanted, which it is from a rate of 3 up, and some turn has room for one.
  With a cycle it writes behind its block if and only if some turn is offered more samples than that
  holds, which needs more than two channels (`Beep.OverfullNeedsChannels`). `Beep.Play` reports which.

## Model

| member | source | states |
|---|---|---|
| BootMachine.Machine.Physical | boot/stage2.asm:191-201 | with the line shut, an address lands a megabyte lower exactly when bit 20 is set |
| BootMachine.Machine.InterruptInto | boot/stage2.asm:740-755 | a BIOS call changes its own memory and the buffer it was given and nothing else, and may cost ES its limit |
| BootDisk.ReadSectors | boot/stage2.asm:978-1001 | one read transfers exactly the packet's sectors or is refused, and in either case rewrites the packet's count |
| BootDisk.ReadChunk | boot/stage2.asm:978-1001 | the chunk stands in the staging buffer although refusals overwrote the count, or five reads in a row were refused |
| BootDisk.StoreHigh | boot/stage2.asm:748-768 | a store past 64 KiB lands only while ES is flat |
| BootDisk.CopyUp | boot/stage2.asm:748-768 | with ES made flat after the last BIOS call, staging is copied to its place and no other byte changes |
| BootDisk.LoadChunk | boot/stage2.asm:726-784 | a chunk is in place, or five refusals of that one chunk left everything above 1 MiB alone |
| BootDisk.LoadBlob | boot/stage2.asm:726-784 | for every count, the run of sectors stands at its address and nothing else above 1 MiB changed; it fails only after five refusals of one chunk |
| BootDisk.LoadedBySector | boot/stage2.asm:726-784 | that run of sectors byte by byte: byte o of its sector s stands 512 * s + o behind the address |
| BootLine.TerminatedIsLine | boot/stage2.asm:885-892 | a buffer with one terminator is read back as exactly the line before it |
| BootLine.TakeKey | boot/stage2.asm:894-922 | one key edits the buffer as it edits a list: append when printable and short enough, drop the last on backspace, with the terminator kept |
| BootLine.EditLine | boot/stage2.asm:888-927 | any run of keys up to Enter leaves the list editor's line in the buffer and touches no byte past its 64 |
| BootLine.AskCmdline | boot/stage2.asm:853-927 | the line is the patched one, or the edited one if a key came in time; only a user who never presses Enter keeps it waiting |
| BootLine.TypedIn | boot/stage2.asm:894-913 | in the run of keys that line comes from, printable characters go behind what is there, while it has fewer than 63 |
| BootLine.RubbedOut | boot/stage2.asm:915-922 | so many backspaces take so many characters off it, and no more than there are |
| BootLine.Ignored | boot/stage2.asm:899-908 | any other key but Enter, and any character there is no room for, is as if it had not been typed |
| BootLine.EnterEnds | boot/stage2.asm:896-898 | Enter ends the line, whatever is typed behind it |
| BootLine.LineTyped | boot/stage2.asm:853-927 | left alone the line is the patched one, and typed into it is that with what was typed behind it |
| BootLine.SaysNofbIsSubstring | boot/stage2.asm:404-432 | the scan's criterion is "nofb" being a substring of the line |
| BootLine.ScanNofb | boot/stage2.asm:404-432 | graphics are declined exactly on such a line, told from the 64-byte buffer alone: every read indexes it |
| BootTables.TestA20 | boot/stage2.asm:178-219 | for every memory content the probe tells an open line from a shut one and restores both bytes |
| BootTables.EnableA20 | boot/stage2.asm:158-176 | success is reported exactly when the line is open, and failure exactly when neither the service nor the gate works |
| BootTables.ZeroBootInfo | boot/stage2.asm:224-237 | the block is zero but for its magic and version |
| BootTables.AskE820 | boot/stage2.asm:546-600 | an answer is kept exactly when it is not empty and not marked invalid; a 20-byte responder's are never marked |
| BootTables.RangesStep | boot/stage2.asm:546-600 | taking answers one at a time builds the filtered list of them all |
| BootTables.CollectE820 | boot/stage2.asm:546-600 | BootInfo's map is the first 32 usable answers in order with zero attributes, the framebuffer fields behind it are untouched, and what the BIOS left of its own memory is from its last call |
| BootTables.MapByPosition | boot/stage2.asm:546-600 | the map by the positions of the answers: answer k is in it exactly if it is usable and every earlier one was given, signed and named another behind it, and the map is the first 32 such in order, as many as there are |
| BootRsdp.ScanIsFirst | boot/stage2.asm:652-685 | the scan stops at the first paragraph that passes both tests |
| BootRsdp.SearchRsdp | boot/stage2.asm:605-648 | the EBDA kilobyte, then 0xE0000, then 0xF0000 |
| BootRsdp.FindRsdp | boot/stage2.asm:605-648 | BootInfo gets that address, or keeps its zero |
| BootRsdp.HitIsRsdp | boot/stage2.asm:652-685 | in every paragraph but a window's last the tests are the ACPI structure's own: signature and zero 20-byte sum |
| BootRsdp.LastParagraph | boot/stage2.asm:652-685 | in the last paragraph code and specification agree exactly when four wrapped bytes sum to what the four real ones do |
| BootRsdp.FirstPlace | boot/stage2.asm:652-685 | the specification's own search gives the first place that holds a structure, and zero exactly if there is none |
| BootRsdp.SearchIsSpecified | boot/stage2.asm:605-685 | the whole search gives the first structure in scan order if and only if no window's last paragraph is doubtful with nothing sooner |
| BootRsdp.LastParagraphMissed | boot/stage2.asm:652-685 | a memory with a valid structure in the last paragraph of the window at 0xE0000, which the search does not find |
| BootRsdp.LastParagraphMistaken | boot/stage2.asm:652-685 | a memory with none there, whose search takes that paragraph for one |
| BootVideo.TwelveInvertsSplit | boot/stage2.asm:365-386 | decoding inverts the 12-bit split for every size, whatever the blanking bits hold |
| BootVideo.PanelDecides | boot/stage2.asm:325-390 | a panel that identifies itself sets the ceiling whatever else is patched in |
| BootVideo.SettleCeiling | boot/stage2.asm:325-390 | the ceiling is the panel, else the patched pair, else the fallback, and never zero |
| BootVideo.CeilingByBytes | boot/stage2.asm:325-390 | the same from the EDID's own bytes: the first timing's pixels and lines if the block is a signed one with a timing, else the patched pair in its order if both are there, else 800 by 480 |
| BootVideo.ProductFits | boot/stage2.asm:488-498 | the 32-bit area product does not overflow |
| BootVideo.ChoiceIsOptimal | boot/stage2.asm:434-541 | the mode taken is eligible, no listed eligible mode is larger, and no earlier one is as large |
| BootVideo.ScreenIsTheChoice | boot/stage2.asm:434-541 | the framebuffer recorded is that mode's own, within the ceiling and 32 bits deep |
| BootVideo.ChoiceIsBest | boot/stage2.asm:454-506 | the choice is the first of the largest modes that will do, and none exactly if none will |
| BootVideo.ScreenByAnswers | boot/stage2.asm:506-541 | told from the answers alone: if the controller answers, there is such a mode with a number, it is read again and set, the fields are that block's own; if any of these fails, all are zero |
| BootVideo.ScoreMode | boot/stage2.asm:474-502 | a mode scores its area exactly when supported, graphical, linear, 32-bit and within the ceiling |
| BootVideo.EligibleByBytes | boot/stage2.asm:474-502 | and that by the mode block's own bytes: attribute bits 0, 4 and 7, 32 bits a pixel, width and height no more than the ceiling |
| BootVideo.FindMode | boot/stage2.asm:454-506 | the walk over the list ends with the choice among all of it |
| BootVideo.VbeSetup | boot/stage2.asm:434-541 | the framebuffer fields are those of the block read again exactly if the BIOS answered, had a mode that will do, and set it; otherwise all are zero |
| BootVideo.MaybeSetVideo | boot/stage2.asm:404-432 | graphics unless the line declines them, and then no screen is recorded |
| BootInfo.CopyFont | boot/stage2.asm:291-318 | the ROM's glyphs stand below BootInfo and BootInfo points at them |
| BootInfo.CopyLine | boot/stage2.asm:239-258 | BootInfo's line is the header's, with its exact length |
| BootInfo.FinishBootInfo | boot/stage2.asm:239-281 | line, signature, kernel and root image fields are added and every field settled before stays |
| Boot.LoadImages | boot/stage2.asm:693-722 | kernel, then root image, or five refusals of one chunk |
| Boot.ImagesAreWhole | boot/stage2.asm:693-722 | the root image is always whole; the kernel is if it has at most 30720 sectors |
| Boot.StagesCompose | boot/stage2.asm:116-148 | the stages' separate promises add up to one about the memory the kernel is given |
| Boot.Run | boot/stage2.asm:116-152 | every run that enters the kernel has images, BootInfo, glyphs and all other memory exactly as specified, its ACPI field searched for in the memory one of the run's own BIOS calls left; every other run says why it stopped, and stops at A20 exactly when service and gate both leave the line shut |
| Boot.BootedMemory | boot/stage2.asm:262-281 | both images, the untouched boot sector, the untouched panic record, and the ROM's glyphs where BootInfo points |
| Boot.BootedInfo | boot/stage2.asm:224-281 | BootInfo's signature, kernel and root image with address and length, map, line and screen fields; its ACPI field is the search's result on a memory whose BIOS-owned part is what some call of this run left |
| Boot.BootedMap | boot/stage2.asm:546-600 | the map the kernel is given is the first 32 ranges the BIOS was asked for, in order, told by position |
| BootStage1.LoadStage2 | boot/stage1.asm:32-85 | stage 2 is handed all its sectors, or five reads were refused, or the BIOS lacks the service |
| SharedRing.MaskIsModulo | design/02-kernel-core.md:281 | for every power of two the mask is the remainder |
| SharedRing.WrapKeepsSlot | design/02-kernel-core.md:281 | an index that crosses 2^32 keeps its slot |
| SharedRing.WrapKeepsDifference | design/02-kernel-core.md:281 | the wrapping difference is the true occupancy |
| SharedRing.StepKeepsInv | design/02-kernel-core.md:266-281 | every step of either party keeps counts, contents and wake flags consistent |
| SharedRing.Safety | design/02-kernel-core.md:268-281 | over every interleaving the consumer has a prefix of what was sent, occupancy never exceeds capacity, and no unread slot is overwritten |
| SharedRing.NoLostWakeup | design/02-kernel-core.md:266-281 | a sleeping party has nothing to do or its peer is about to signal it; both never sleep for good |
| SharedRing.EffectiveStepsTransfer | design/02-kernel-core.md:266-281 | steps not spent asleep are paid for by items moved |
| SharedRing.Progress | design/02-kernel-core.md:266-281 | some party can always move, and every schedule delivers in proportion to its effective steps |
| SharedRing.SignalsAreAsked | design/02-kernel-core.md:281 | over every interleaving a party is signalled at most as often as it raised its flag, and wakes at most as often as it was signalled |
| FatTable.WriteBack | src/kernel/fat/alloc.zig:165-174 | the cached sector goes over the first copy, and then over the other: the two media in that order are all that is written |
| FatTable.Flush | src/kernel/fat/alloc.zig:155-174 | each of those writes is of a table the caller allows, and with nothing changed in the cache nothing is written |
| FatTable.Set | src/kernel/fat/alloc.zig:200-259 | one entry changes in the cache; the medium is as it was or has caught up with what was before |
| FatTable.Alloc | src/kernel/fat/alloc.zig:305-329 | a free cluster is found and marked an end, or there is none anywhere: the search from the hint wraps over the whole table |
| FatTable.Append | src/kernel/fat/alloc.zig:332-336 | the new cluster is an end mark before anything links to it |
| FatTable.FreeChain | src/kernel/fat/alloc.zig:342-361 | on any table, corrupt or looping, exactly the clusters the walk from the first comes to are freed; it is called corrupt only where that walk takes in every cluster of the volume and does not end |
| FatTable.WalkUnique | src/kernel/fat/check.zig:305-342 | where a chain leads from a cluster is determined by the table |
| FatChains.FreeIsOutside | src/kernel/fat/alloc.zig:305-329 | nothing free is in a chain any record reaches, so allocation cannot cross-link |
| FatChains.Extend | src/kernel/fat/alloc.zig:332-336 | appending keeps every record sound and no two sharing a cluster |
| FatChains.ReadyStands | src/kernel/fat.zig:1137-1178 | a table that has grown for an uncommitted file is sound for the records as they stand |
| FatChains.AppendLags | src/kernel/fat/alloc.zig:332-336 | right after an append the medium does not lead to the new cluster |
| FatChains.BytesOverlay | src/kernel/fat.zig:1040-1048 | bytes laid into one cluster appear at their place in the file and nowhere else |
| FatChains.CutWhileWriting | src/kernel/fat.zig:981-1062 | however far the medium's table lags, a reader finds every file, some front part of the bytes over the one being written |
| FatWrite.NextOrAppend | src/kernel/fat.zig:1169-1174 | the walk follows the chain or lengthens it by one; every write it causes leaves the records sound |
| FatWrite.WalkTo | src/kernel/fat.zig:1153-1178 | resuming from the kept mark reaches the same cluster as counting from the front |
| FatWrite.ClusterAt | src/kernel/fat.zig:1137-1140 | a file without clusters gets its first one here; failure means no cluster is free |
| FatWrite.LaidMore | src/kernel/fat.zig:1040-1048 | one more sector's bytes extend what was written and move no other file |
| FatWrite.FillRange | src/kernel/fat.zig:1223-1252 | the bytes are in the file in order, sector by sector, the chain is grown as they need it and no further, and no cut shows more |
| FatWrite.AppendTo | src/kernel/fat/alloc.zig:332-336 | a chain grows by a cluster that was free, and every other entry stays |
| FatGather.FindSector | src/kernel/fat.zig:1189-1218 | a sector number means one cluster and one place in it |
| FatGather.WaitingMore | src/kernel/fat.zig:1195-1213 | sectors that carry on from the run are the file's own next ones |
| FatGather.Drain | src/kernel/fat.zig:1025-1043 | a request puts every waiting sector at its place in the file |
| FatGather.WriteRange | src/kernel/fat.zig:1005-1058 | gathered or not, the bytes reach the file in order; of a write that fails a front part is there, and no cut shows more |
| FatStore.ZeroRange | src/kernel/fat.zig:1223-1252 | the gap is zeros, and a reader sees the old files at every cut |
| FatStore.GapIsStored | src/kernel/fat.zig:998-1001 | zeroing a gap and then writing is storing at an offset past the end |
| FatStore.WriteAt | src/kernel/fat.zig:981-1062 | the handle reads as the old contents with the bytes stored at the offset; failure changes nothing outside the stretch and means the volume is full or the file too large; a write too large is always refused, and neither it nor an empty one writes anything |
| FatStore.OutcomeCut | src/kernel/fat.zig:981-986 | the flush that ends a write leaves every cut with its files |
| FatFiles.Create | src/kernel/fat.zig:1668-1815 | one record write makes an empty file, refused exactly for a name taken or a full directory |
| FatFiles.CommitHolds | src/kernel/fat.zig:1070-1088 | a committed record shows exactly what the handle showed and no other file changes |
| FatHandles.OpenFile | src/kernel/vfs.zig:606-621 | a handle reads as its file, beside whatever else is open |
| FatHandles.WriteFile | src/kernel/syscall/core.zig:178-189 | the handle reads with the bytes stored, or with a front part of them and a reason; a write past 4 GiB is refused with medium, table and every handle as they were; every other handle reads as before, and at every cut every record shows its file but for a front part over this one |
| FatHandles.PutOther | src/kernel/fat/alloc.zig:305-336 | a file that grows takes nothing another open file holds, though no record names it |
| FatHandles.DeskAgrees | src/kernel/vfs.zig:757-772 | what a record shows is always the front of what its handle reads |
| FatHandles.HandsFit | src/kernel/fat.zig:992-996 | no handle ever claims more bytes than a record's thirty-two bits can say |
| FatHandles.CloseFile | src/kernel/handle.zig:256-285 | a handle that has written makes its record show what it read, one that has not changes nothing, and the others are as they were |
| FatHandles.HandsAside | src/kernel/fat.zig:1856-1872 | creating, removing or resizing one file leaves every open handle on another as it was |
| FatHandles.HandsMoved | src/kernel/fat.zig:1906-1961 | so does a rename |
| FatFiles.FreeingIsSound | src/kernel/fat.zig:1856-1872 | freeing clusters no record reaches disturbs none, however much of it reached the medium |
| FatFiles.Remove | src/kernel/fat.zig:1856-1872 | the record goes first, so every cut is a sound volume without the file; exactly its clusters are freed |
| FatFiles.MovedHolds | src/kernel/fat.zig:1933-1961 | a chain under another record with its own record gone keeps the volume sound |
| FatFiles.DoubledIsSoundWhenEmpty | src/kernel/fat.zig:1913-1930 | between a rename's two record writes the volume is sound if and only if the file is empty |
| FatFiles.DoubledReads | src/kernel/fat.zig:1913-1930 | in that window both names read as the file and every other file is as it was |
| FatFiles.Rename | src/kernel/fat.zig:1906-1961 | the name moves to the file, what it meant before is given back, every cut has the file under both names or moved whole, and the medium under both names does occur and is sound if and only if the file has no cluster |
| FatResize.CutChain | src/kernel/fat.zig:1256-1282 | ending a chain early leaves two whole chains with nothing in common |
| FatResize.DropTail | src/kernel/fat.zig:1256-1282 | the clusters past the size are free and no cut loses a byte of any file |
| FatTruncate.CutOpen | src/kernel/fat.zig:1118-1131 | an open file cut: the record first, so every cut shows the shortened file whole; of the handle's clusters just those the size needs are kept, and the others are free |
| FatTruncate.EmptyOpen | src/kernel/fat.zig:1118-1131 | the record names nothing before exactly what the handle held goes back |
| FatResize.DanglingIsShort | src/kernel/fat.zig:1103-1116 | while the medium lacks the last link no chain on it is long enough |
| FatResize.GrownRecord | src/kernel/fat.zig:1112-1116 | a longer size committed over a lagging table is sound if and only if no cluster was needed |
| FatResize.Lengthen | src/kernel/fat.zig:1103-1116 | the file gains zeros, or no cluster is free and only what was taken in vain has changed; every cut is whole but the one behind the record write, whose record is ahead of its chain and which is sound if and only if the old clusters reach the new size |
| FatTruncate.GrowOpen | src/kernel/fat.zig:1103-1116 | the same through any open handle, what it has written and not committed included, with every other handle as it was |
| FatResize.GrownAhead | src/kernel/fat.zig:1112-1116 | in that cut the record leads to a front part of its chain and every other file is whole |
| FatTruncate.ResizeFile | src/kernel/syscall/file.zig:104-115 | an open file made exactly any size: handle and record both read so, every cut shows the files before or after but for the one case of a growing file, and it is refused only for want of clusters it needs |
| FatSession.Perform | src/kernel/vfs.zig:606-829 | one operation has its effect or is refused for a reason the files and the table show, every other open handle reads as before, and every cut in it is one of a few listed outcomes |
| FatSession.Session | design/03-storage-fs.md:550-568 | the same for any sequence of operations through any number of handles, from any handles already open, cut at any write, up to the first operation that reaches past an open handle; what is in use and nobody's is left alone throughout, and no record written and no handle left claims 2^32 bytes |
| FatSession.CutIsSound | design/03-storage-fs.md:568 | whatever the cut, chains are whole and disjoint, but for a file caught under two names or with its record ahead of its chain |
| FatSession.CutFits | src/kernel/fat.zig:992-996 | whatever the cut, every record's size is below 2^32 |
| FatSession.AppendIsAtomic | design/03-storage-fs.md:550-554 | however many writes go behind an open file's end, and whatever is done to other files between them, a cut finds the old file whole until the handle closes |
| FatSession.ReplacedIsOldOrNew | design/03-storage-fs.md:45-50 | at every cut of a replacing rename the name reads as the whole old or the whole new content, and other files as they were |
| FatStale.SetAside | src/kernel/fat.zig:1070-1088 | a handle whose record leads nowhere shares nothing with any record or handle, and no call on its record is careless of any other |
| FatStale.StrayStays | src/kernel/fat.zig:1070-1088 | whatever leaves alone what is in use and nobody's leaves such a handle reading what it did |
| FatStale.Outlive | src/kernel/vfs.zig:803-829 | so does any run of operations: its record may be deleted, replaced, moved, resized or opened again |
| FatStale.CloseStray | src/kernel/handle.zig:256-285 | closed, it makes the name at its record's place, if there is one, mean what it read, and every other file is as it was; whoever has that record open now holds clusters no record leads to |
| FatStale.OutliveAndClose | src/kernel/handle.zig:256-285 | the two together, told from the run's own log |
| FatStale.WriteStray | src/kernel/syscall/core.zig:178-189 | bytes written through it land where it reads them, and no record's file and no other handle changes, at any cut |
| FatCareless.RemovedUnder | src/kernel/vfs.zig:819-829 | deleted while open, the record given to a new file, and the handle closed: sound if and only if the record had no clusters, and then the new name shows what the handle read; with the record not given away, nothing happens |
| FatCareless.ReplacedUnder | src/kernel/fat.zig:1933-1961 | the same for a file replaced while open |
| FatCareless.MovedUnder | src/kernel/fat.zig:1906-1930 | the same for a file moved while open, its old record given to a new file |
| FatCareless.CutUnder | src/kernel/vfs.zig:604-621 | cut while open by another opener: sound if and only if the record had no clusters or what is left reaches as far as the handle, and then the cut is undone |
| FatCareless.GrownUnder | src/kernel/fat.zig:1109-1116 | lengthened while open by another opener: always sound, and the name shows what the handle read, but where the file had clusters for zeros from the record's end as far as the other reached or had room |
| FatCareless.LaterClose | src/kernel/fat.zig:1070-1088 | a handle closed at any later time, its first cluster free or some record's by then: sound if and only if that is the record at its own place and the chain from there on reaches |
| FatCareless.WriteAlone | src/kernel/fat.zig:981-1062 | a write through a handle with a whole chain, whoever else has it by then, leaves every record that shares none of it showing the file it did |
| FatCareless.SectorUnder | src/kernel/fat.zig:1040-1048 | a sector written to a cluster, whoever has it, leaves the files as they are if and only if no record shows another byte for it |
| FatVerdict.RoundsUp | src/kernel/fat/verdict.zig:96-100 | counting clusters one at a time is the rounded-up quotient |
| FatVerdict.ClustersForBounds | src/kernel/fat/verdict.zig:96-100 | that many clusters hold the size, and one fewer do not |
| FatCourse.FollowedWalk | src/kernel/fat/check.zig:305-342 | following a record finds its walk in the table the check began with, up to where an earlier walk has been, whatever was repaired in between |
| FatCourse.CourseAnswer | src/kernel/fat/check.zig:197-229 | the verdict on a record does not depend on what was repaired before it, only on whether an earlier walk meets its own |
| FatCourse.FaultAnswered | src/kernel/fat/verdict.zig:103-132 | the verdict is a break exactly where the walk does not come to an end mark, a short run exactly where the size exceeds the chain, and a long one exactly where the chain has a cluster the size does not reach |
| FatCourse.CountedMore | src/kernel/fat/check.zig:215-225 | one record more is one more of its kind of fault in the counts |
| FatFollow.InChain | src/kernel/fat/check.zig:349-361 | the second walk answers exactly whether a cluster is the chain's own |
| FatFollow.Follow | src/kernel/fat/check.zig:305-342 | on any table: the clusters walked are distinct and newly marked, and the outcome says truly why the walk stopped |
| FatRepair.EndBroken | src/kernel/fat/check.zig:281-298 | a chain that broke keeps every cluster walked and ends there; none of its own is given away |
| FatRepair.EndLong | src/kernel/fat/check.zig:281-298 | a chain that ran long is cut at its size and exactly its tail is freed, whoever else leads there |
| FatRepair.Apply | src/kernel/fat/check.zig:232-263 | after any repair the record's chain is exactly what its size needs, and no entry outside the clusters walked moved |
| FatCheck.MirrorCopies | src/kernel/fat/check.zig:98-118 | the copies become equal, and the count is of the sectors that differed |
| FatCheck.Inspect | src/kernel/fat/check.zig:197-229 | one record is judged by its own walk, counted once, and repaired |
| FatCourse.CourseRepaired | src/kernel/fat/check.zig:148-194 | a repair leaves every record dealt with before it as it was left |
| FatCheck.Sweep | src/kernel/fat/check.zig:367-387 | exactly the used, not defective, unreached clusters are freed, and as many are counted |
| FatClean.FreedExactly | src/kernel/fat/check.zig:367-387 | on a sound volume a cluster is free afterwards exactly if no kept chain holds it and it is not defective |
| FatCheck.Check | src/kernel/fat/check.zig:57-90 | on any medium: every record whose walk no earlier one meets is made exact, every other is left alone, an entry changes only where one was put right or no walk comes, every count is the number of faults of its kind, and nothing is written if nothing but crossings is found |
| FatFaults.BreakKept | src/kernel/fat/verdict.zig:112-117 | told from walks and table alone: a record whose chain breaks keeps every cluster walked, ended there, and their bytes are its file |
| FatFaults.ClaimCut | src/kernel/fat/verdict.zig:130 | a record that claims more than its whole chain holds keeps the chain and claims just its bytes |
| FatFaults.FittingKept | src/kernel/fat/verdict.zig:124-131 | a record whose size needs just its chain is left as it is |
| FatFaults.TailFreed | src/kernel/fat/verdict.zig:125-129 | a record with bytes and more clusters than they need keeps those they need, and the others are free |
| FatFaults.UnclaimedFreed | src/kernel/fat/verdict.zig:125-128 | a record without bytes gives back the whole chain it names |
| FatFaults.NothingKept | src/kernel/fat/verdict.zig:104-115 | a record that leads to no cluster ends empty |
| FatFaults.ContestedLeft | src/kernel/fat/verdict.zig:111 | a record whose walk runs into an earlier one is left as it is |
| FatClean.UncrossedIsClean | src/kernel/fat/check.zig:6-13 | where no walks cross, every chain ends exactly as long as its size needs and no cluster is lost |
| FatClean.QuietIsClean | src/kernel/fat/check.zig:945-985 | nothing is reported if and only if nothing is wrong |
| FatClean.SoundIsTidied | src/kernel/fat/check.zig:232-298 | a sound volume keeps every chain up to its size and every record but for rounding |
| FatClean.CheckTwice | src/kernel/fat/check.zig:945-985 | the check settles: after a first run without crossed chains a second finds nothing |
| FatContents.CheckedFile | src/kernel/fat/check.zig:281-298 | a file keeps its name and its contents in front; it gains nothing if and only if its size was not rounded up |
| FatCrossed.SharedTail | src/kernel/fat/check.zig:15-18 | a walk that comes to a cluster of a whole chain goes the rest of the way with it |
| FatCrossed.WholeRecord | src/kernel/fat/check.zig:278-298 | where chains cross, a record whose own chain was whole keeps the front its size needs if and only if no earlier record gives a cluster of it back |
| FatCrossed.FrontShows | src/kernel/fat/check.zig:278-298 | that front holds all the file had |
| FatAgain.AgainSure | src/kernel/fat/check.zig:305-342 | with no record led astray, every cluster a second check walks to is one some record kept or has for its own |
| FatAgain.NoneLostAgain | src/kernel/fat/check.zig:367-387 | after one check no cluster is lost, whatever crossed |
| FatAgain.CheckedAgain | src/kernel/fat/check.zig:15-18 | whatever crossed, a second check has nothing to repair if and only if no record runs into an earlier one at a cluster that one gives back |
| FatAgain.CheckCrossedTwice | src/kernel/fat/check.zig:945-985 | two checks on end: the second writes nothing in just that case |
| FatDoubled.TwiceIsChecked | src/kernel/fat/check.zig:232-263 | of a file under two names the sooner record is put right, the later stays, and exactly the clusters neither it nor any other record needs are freed |
| FatDoubled.TwiceCarried | src/kernel/fat/check.zig:278-298 | both names and every other file come through the check if and only if the file has bytes |
| FatDoubled.TwiceAgain | src/kernel/fat/check.zig:945-985 | a second check repairs nothing if and only if the file has bytes |
| FatRecovery.WholeRecovered | design/03-storage-fs.md:556-562 | a medium that holds files whole is left clean with those files in front, unchanged exactly where no size was rounded, and every cluster no record needs is free |
| FatRecovery.DoubledRecovered | src/kernel/fat.zig:1913-1930 | the same of every medium a rename leaves between its record writes, with the condition under which it fails |
| FatRecovery.DoubledAgain | src/kernel/fat.zig:1913-1930 | and of checking it a second time |
| FatRecovery.AheadRecovered | src/kernel/fat.zig:1112-1116 | a medium whose record is ahead of its chain is left clean, that file with all it had before it grew |
| FatRecovery.CutRecovered | design/03-storage-fs.md:550-562 | each outcome of a cut against what the check makes of it |
| FatRecovery.Recover | design/03-storage-fs.md:556-562 | for any run of operations and any cut in it: every file the cut shows is carried through the check, and a second check repairs nothing, if and only if it is not a file without bytes caught under two names; exactly the clusters no record needs are free, and a cut while a file grew is left clean |
| FatExamples.RenamedUnderTwoNames | src/kernel/fat.zig:1913-1930 | a rename on a sound medium, in whose history the one file is under both names and the medium is not sound |
| FatExamples.GrownPastItsChain | src/kernel/fat.zig:1112-1116 | an open file of one byte on a sound medium made 513 long, in whose history the record is ahead of its chain and the medium is not sound |
| FatExamples.CheckedIntoSlack | src/kernel/fat/check.zig:281-298 | 512 bytes written behind a file of one byte, a cut before the close, and a check of that medium, which makes that byte 512 |
| FatExamples.HollowFileLost | src/kernel/fat/check.zig:278-280 | a write that fails, one of nothing, a close, a rename cut between its record writes, and a check of that medium, which leaves a record naming a cluster it freed |
| FatExamples.SharedTailFreed | src/kernel/fat/check.zig:261-262 | a check of two records whose chains meet, which frees a cluster of the second, whole until then, and leaves it astray for the next check |
| FatExamples.StaleHandle | src/kernel/vfs.zig:819-829 | a file of one byte opened, written and removed on a sound medium, another made and the handle closed: not sound |
| FatExamples.StaleBytes | src/kernel/vfs.zig:819-829 | the same from a file without clusters: sound, and the other's name shows the byte written to the first |
| Blit.Margin | examples/frames.c:52-55 | the picture is centred to within a pixel, or starts at the edge when it does not fit |
| Blit.RowsApart | examples/frames.c:59 | rows do not overlap at any stride |
| Blit.PresentRow | examples/frames.c:59-63 | each pixel of one row is doubled in place, as many as fit, and no other cell changes |
| Blit.Present | examples/frames.c:50-67 | for every width, height and stride: each pixel inside the clipped rectangle is its source's, every other cell, padding included, is unchanged |
| Blit.ShownWhole | examples/frames.c:46-55 | a picture that fits is shown whole, each pixel a square |
| Blit.ShownInside | examples/frames.c:57-61 | nothing outside the screen's own width and height is drawn, nor anything before the picture's corner |
| Blit.ShownWhereItFits | examples/frames.c:57-61 | on any screen, however small, a pixel of the picture is drawn exactly if its square ends inside |
| Blit.CornerShown | examples/frames.c:50-57 | the picture's corner is shown exactly on a screen with room for one square |
| Beep.BlockHolds | examples/beep.c:37-49 | mixing stays inside the block, whatever the room, if and only if there are at most two channels |
| Beep.CycleNeedsRate | examples/beep.c:27-29 | the cycle is empty, and the remainder by it undefined, exactly below 998 frames a second |
| Beep.CycleIsFloor | examples/beep.c:27-29 | the cycle is the whole frames in a 998th of a second, at most 128 |
| Beep.Mix | examples/beep.c:47-50 | the block holds exactly the next frames of the tone |
| Beep.ToneRepeats | examples/beep.c:47-50 | a tone is one cycle of the table on every channel, over and over |
| Beep.WantedNeedsRate | examples/beep.c:27-29 | no frame is wanted exactly below three a second |
| Beep.WantedIsFloor | examples/beep.c:34 | the frames wanted are the whole ones in four tenths of a second |
| Beep.OfferIsLargest | examples/beep.c:40-45 | a turn is offered the most that fits the room claimed, the block and what is still wanted |
| Beep.OverfullNeedsChannels | examples/beep.c:37-49 | no turn is offered more than the block holds unless there are more than two channels |
| Beep.Play | examples/beep.c:27-52 | whatever room is claimed and however much is taken, what was accepted is the tone from its start without gap or repeat, and stops at the frames wanted; it divides by zero exactly if the rate is below 998, a frame is wanted and some turn has room, leaves its block exactly if it has a cycle and some turn is offered more than fits, and otherwise has handed over what the answers took |
| Tiff.EntryReads | tools/sample-pictures.py:107-110 | a twelve-byte entry reads back as what it was made of |
| Tiff.TextEntryReads | tools/sample-pictures.py:107-110 | a string entry leads to the string if and only if it is longer than four bytes or the offset spells it |
| Tiff.LaidOutReads | tools/sample-pictures.py:146-170 | from that layout a reader that follows the tables recovers strings, orientation and picture |
| Tiff.FirstBytes | tools/sample-pictures.py:146-152 | the file's first bytes: the header and four entries, their tags, kinds, counts and values in place |
| Tiff.SubBytes | tools/sample-pictures.py:154-157 | the two entries of the sub-table at byte 62, which say where the picture is and how long |
| Tiff.Raw | tools/sample-pictures.py:113-171 | written exactly for every photo turned by 1, 3, 6 or 8 whose offsets and lengths fit 32 bits, with both layout assertions, and read back as the photo |

## Left out

- The loader's instruction encoding, the switch to protected mode, `boot/s3wake.asm`, teletype
  printing and the retried read's drive reset: hardware steps with no data property.
- The two-second wait for a key: whether a key came in time is an answer of the BIOS.
- A BIOS that overruns the buffer sizes its interfaces give, or a mode list without an end.
- Interrupts between the flat visit and the copy loop, and the variables `tries` and `dap` as bytes
  of memory: they are fields of the machine.
- The font's address as the ROM reports it: its glyphs are an answer of the BIOS.
- FAT12 and FAT32 entry widths and the FAT32 root chain: entries are 16 bits and the root directory
  is fixed, as on FAT16.
- Subdirectories, long names and directory growth: a record is one directory entry in the root.
- Device errors, the cached free count and its early refusal, timestamps, and case folding of names.
- FatGather.WriteRange: the sectors of one request reach the medium in order; a device that reorders
  within a request is not modelled.
- FatSession.Session: one operation at a time, as the volume's lock has it. A resize is of the size the
  driver is given: the system call's narrowing to 32 bits before it is not modelled. It ends at an operation that
  reaches past an open handle; the handle's fate is in FatStale and FatCareless.
- FatHandles.OpenFile: one handle to a file; of a second one on a file that has clusters, its resizing is
  modelled (FatCareless.CutUnder, FatCareless.GrownUnder) and its writing is not.
- FatHandles.WriteFile: a handle with its record; one without is FatStale.WriteStray or
  FatCareless.WriteAlone, and one whose first cluster has been freed meanwhile is not modelled beyond
  the sector it writes (FatCareless.SectorUnder).
- FatHandles.CloseFile: a handle with its record; one without is FatStale.CloseStray or one of FatCareless.
- FatFiles.Create: long names, clashes of short names and a directory that grows.
- FatFiles.Remove: a long name's several records, which may lie in two sectors, and a cut between them.
- FatFiles.Rename: a new long name's several records and a cut between them.
- FatRecovery.Recover: takes the medium's sizes as given by its shape; the boot sector's geometry is
  not read. Sectors are of 512 bytes and a cluster has at most 128, as reading it would enforce.
- FatCheck.Check: files of the root directory, always repaired: subdirectories and their stack are not
  modelled, and the reporting-only mode writes nothing and has no property.
- The check's directory stack and its depth limit.
- The shared ring's header fields, its magic and its mapping into two processes.
- Beep.Play: the sine table is an argument.
- Blit.Present: 32-bit overflow of the row offset, and the painting of the back buffer.
- Tiff.Raw: the JPEG inside is opaque bytes; PNG chunks, checksums and rotations are not modelled.
- Audio, GPU, USB, GUI, network and scheduling code.
