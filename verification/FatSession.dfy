/**
 Any run of calls on a volume, and every medium a power cut in it can leave.
 */
module FatSession {
  import opened ByteFields
  import opened FatVolume
  import opened FatTable
  import opened FatChains
  import opened FatWrite
  import opened FatStore
  import opened FatFiles
  import opened FatResize
  import opened FatHandles
  import opened FatTruncate

  datatype Op =
    | Make(name: string)
    | Open(slot: nat)
    | Put(slot: nat, offset: nat, bytes: seq<byte>)
    | Close(slot: nat)
    | MoveTo(src: nat, name: string)
    | Delete(slot: nat)
    | Resize(slot: nat, size: nat)

  predicate IsFile(files: seq<File>, slot: nat) { slot < |files| && files[slot].File? }

  /** Operations that go straight to a record. */
  predicate ToRecord(op: Op) { op.Open? || op.Delete? }

  /** The operation reaches past an open handle to its record: nothing in the driver keeps it from doing so. */
  ghost predicate Careless(d: Desk, op: Op) {
    if op.MoveTo? then IsFile(d.files, op.src) && (op.src in d.open || NamesOpen(d, op.name))
    else ToRecord(op) && op.slot in d.open
  }

  /** The name means a file somebody has open. */
  ghost predicate NamesOpen(d: Desk, name: string) {
    exists dst: nat :: dst in d.open && dst < |d.files| && Target(d.files, name, dst)
  }

  /**
   What an operation makes of the files and the handles, done or refused, and
   why it is refused. `f` is the table it leaves.
   */
  ghost predicate Effect(g: Shape, a: Desk, op: Op, b: Desk, done: bool, f: Table) {
    |a.files| == |b.files| && match op
    case Open(slot) =>
      if IsFile(a.files, slot) then done && b == Opens(a, slot) else a == b && !done
    case Put(slot, offset, bytes) =>
      if slot in a.open then
        && PutDone(a, b, slot, offset, bytes, done)
        && (bytes == [] ==> done)
        && (bytes != [] && offset + |bytes| >= 0x1_0000_0000 ==> !done && a == b)
        && (!done ==> offset + |bytes| > MAX_FILE_BYTES || NoneFree(g, f))
      else a == b && !done
    case Close(slot) =>
      if slot in a.open && IsFile(a.files, slot) then done && b == Closes(a, slot) else a == b && !done
    case Resize(slot, size) =>
      if !IsFile(a.files, slot) then a == b && !done
      else if done then b == Sized(a, slot, SizedTo(ReadsAs(a, slot), size))
      else a == b && size > |ReadsAs(a, slot)| && NoneFree(g, f)
    case _ => a.open == b.open && FilesEffect(g, a.files, op, b.files, done, f)
  }

  /** What a file reads as, through its handle if somebody has it open. */
  function ReadsAs(d: Desk, slot: nat): seq<byte>
    requires IsFile(d.files, slot)
  {
    if slot in d.open then d.open[slot].contents else d.files[slot].contents
  }

  /** The desk with a file of these contents, its record and its handle, if any. */
  ghost function Sized(d: Desk, slot: nat, contents: seq<byte>): Desk
    requires IsFile(d.files, slot)
  {
    if slot in d.open then Resized(d, slot, contents) else d.(files := d.files[slot := File(d.files[slot].name, contents)])
  }

  /** The same for an operation on records nobody has open. */
  ghost predicate FilesEffect(g: Shape, a: seq<File>, op: Op, b: seq<File>, done: bool, f: Table) {
    match op
    case Make(name) =>
      if done then exists slot :: 0 <= slot < |a| && Made(a, name, slot, b)
      else a == b && ((exists k :: 0 <= k < |a| && Called(a[k], name)) || forall k :: 0 <= k < |a| ==> a[k] != NoFile)
    case MoveTo(src, name) =>
      if !IsFile(a, src) then a == b && !done
      else if done then exists dst :: 0 <= dst < |a| && Target(a, name, dst) && if dst == src then a == b else Moved(a, src, name, dst, b)
      else a == b && forall k :: 0 <= k < |a| ==> a[k].File? && !Called(a[k], name)
    case Delete(slot) =>
      if IsFile(a, slot) then done && b == a[slot := NoFile] else a == b && !done
    case _ => false
  }

  ghost predicate Made(a: seq<File>, name: string, slot: nat, b: seq<File>) {
    && slot < |a| && a[slot] == NoFile && b == a[slot := File(name, [])]
    && forall k :: 0 <= k < |a| ==> !Called(a[k], name)
  }

  ghost predicate Moved(a: seq<File>, src: nat, name: string, dst: nat, b: seq<File>) {
    && IsFile(a, src) && dst < |a| && dst != src && Target(a, name, dst)
    && b == a[dst := File(name, a[src].contents)][src := NoFile]
  }

  /** A medium a rename left with the file under both names. */
  ghost predicate CaughtMoving(g: Shape, m: Medium, a: seq<File>, op: Op, b: seq<File>) {
    op.MoveTo? && exists dst :: 0 <= dst < |a| && Moved(a, op.src, op.name, dst, b) && Doubled(g, m, b, op.src, dst)
  }

  /** What a power cut during the operation can leave, told from what the records showed before and after it. */
  ghost predicate Cut(g: Shape, m: Medium, a: seq<File>, op: Op, b: seq<File>) {
    || Whole(g, m, a)
    || Whole(g, m, b)
    || (op.Put? && Torn(g, m, a, op.slot, op.offset, op.bytes))
    || CaughtMoving(g, m, a, op, b)
    || (op.Resize? && IsFile(a, op.slot) && Ahead(g, m, a, op.slot))
  }

  ghost predicate CutsSince(g: Shape, h0: seq<Medium>, h: seq<Medium>, a: seq<File>, op: Op, b: seq<File>) {
    h0 <= h && forall i :: |h0| <= i < |h| ==> Cut(g, h[i], a, op, b)
  }

  /** Whether an operation is careless, as far as anybody has files open. */
  method IsCareless(v: Volume, hands: map<nat, Handle>, op: Op, ghost d: Desk, ghost chains: seq<seq<nat>>, ghost held: map<nat, seq<nat>>)
    returns (careless: bool)
    requires Desked(v, hands, d, chains, held)
    ensures careless <==> Careless(d, op)
  {
    HandsAreOpen(v, hands, d, chains, held);
    if op.MoveTo? {
      careless := IsCarelessMove(v, hands, op.src, op.name, d, chains, held);
    } else {
      careless := ToRecord(op) && op.slot in hands;
    }
  }

  lemma HandsAreOpen(v: Volume, hands: map<nat, Handle>, d: Desk, chains: seq<seq<nat>>, held: map<nat, seq<nat>>)
    requires Desked(v, hands, d, chains, held)
    ensures hands.Keys == d.open.Keys
  {
  }

  method IsCarelessMove(v: Volume, hands: map<nat, Handle>, src: nat, name: string,
                        ghost d: Desk, ghost chains: seq<seq<nat>>, ghost held: map<nat, seq<nat>>)
    returns (careless: bool)
    requires Desked(v, hands, d, chains, held)
    ensures careless <==> Careless(d, MoveTo(src, name))
  {
    HandsAreOpen(v, hands, d, chains, held);
    FilesOfRecords(v, chains, d.files);
    careless := false;
    if src < |v.m.dir| && v.m.dir[src].Used? {
      careless := IsOpenName(v, hands, name, d, chains, held);
      careless := careless || src in hands;
    }
  }

  method IsOpenName(v: Volume, hands: map<nat, Handle>, name: string, ghost d: Desk, ghost chains: seq<seq<nat>>, ghost held: map<nat, seq<nat>>)
    returns (open: bool)
    requires Desked(v, hands, d, chains, held)
    ensures open <==> NamesOpen(d, name)
  {
    FilesOfRecords(v, chains, d.files);
    HandsAreRecords(v.shape, v.m, chains, hands, held, d.open);
    var found, at := Find(v.m.dir, name);
    open := found && at in hands;
    NameIsOpen(v.m.dir, d, name, found, at);
  }

  lemma NameIsOpen(dir: seq<Slot>, d: Desk, name: string, found: bool, at: nat)
    requires |dir| == |d.files| && forall k :: k in d.open ==> k < |dir| && dir[k].Used?
    requires forall k :: 0 <= k < |dir| ==> (d.files[k] == NoFile <==> dir[k] == Vacant)
    requires forall k :: 0 <= k < |dir| && d.files[k].File? ==> d.files[k].name == dir[k].name
    requires if found then at < |dir| && Named(dir[at], name) && forall k :: 0 <= k < at ==> !Named(dir[k], name)
             else forall k :: 0 <= k < |dir| ==> !Named(dir[k], name)
    ensures NamesOpen(d, name) <==> found && at in d.open
  {
    forall k | 0 <= k < |dir|
      ensures Called(d.files[k], name) <==> Named(dir[k], name)
    {
    }
    if found {
      assert Called(d.files[at], name);
      assert forall dst :: 0 <= dst < |d.files| && Target(d.files, name, dst) ==> dst == at;
      assert Target(d.files, name, at);
    }
  }

  /** One operation, refused or done; what is not a file is left alone. */
  method Perform(v: Volume, hands: map<nat, Handle>, op: Op, ghost d: Desk, ghost chains: seq<seq<nat>>, ghost held: map<nat, seq<nat>>)
    returns (done: bool, now: map<nat, Handle>, ghost after: Desk, ghost later: seq<seq<nat>>, ghost held1: map<nat, seq<nat>>)
    requires Desked(v, hands, d, chains, held) && !Careless(d, op)
    modifies v`m, v`dirty, v`history, v`cache, v`cacheSector, v`table, v`hint
    ensures Desked(v, now, after, later, held1) && Effect(v.shape, d, op, after, done, v.m.fat)
    ensures LeavesBe(old(v.m), chains, held, v.m, later, held1)
    ensures CutsSince(v.shape, old(v.history), v.history, d.files, op, after.files)
  {
    match op
    case Open(slot) =>
      later := chains;
      done, now, after, held1 := PerformOpen(v, hands, slot, d, chains, held);
    case Put(slot, offset, bytes) =>
      done, now, after, later, held1 := PerformPut(v, hands, slot, offset, bytes, d, chains, held);
    case Close(slot) => done, now, after, later, held1 := PerformClose(v, hands, slot, d, chains, held);
    case Resize(slot, size) => done, now, after, later, held1 := PerformResize(v, hands, slot, size, d, chains, held);
    case _ =>
      ghost var files;
      done, later, files := PerformClosed(v, op, chains, d.files, hands, held, d.open);
      now, after, held1 := hands, Desk(files, d.open), held;
  }

  method PerformOpen(v: Volume, hands: map<nat, Handle>, slot: nat, ghost d: Desk, ghost chains: seq<seq<nat>>, ghost held: map<nat, seq<nat>>)
    returns (done: bool, now: map<nat, Handle>, ghost after: Desk, ghost held1: map<nat, seq<nat>>)
    requires Desked(v, hands, d, chains, held) && !Careless(d, Open(slot))
    ensures Desked(v, now, after, chains, held1) && Effect(v.shape, d, Open(slot), after, done, v.m.fat)
    ensures LeavesBe(v.m, chains, held, v.m, chains, held1)
  {
    HandsAreOpen(v, hands, d, chains, held);
    FilesOfRecords(v, chains, d.files);
    done, now, after, held1 := false, hands, d, held;
    if slot < |v.m.dir| && v.m.dir[slot].Used? {
      now, held1 := OpenFile(v, hands, slot, d, chains, held);
      done, after := true, Opens(d, slot);
    }
  }

  method PerformPut(v: Volume, hands: map<nat, Handle>, slot: nat, offset: nat, bytes: seq<byte>,
                    ghost d: Desk, ghost chains: seq<seq<nat>>, ghost held: map<nat, seq<nat>>)
    returns (done: bool, now: map<nat, Handle>, ghost after: Desk, ghost later: seq<seq<nat>>, ghost held1: map<nat, seq<nat>>)
    requires Desked(v, hands, d, chains, held)
    modifies v`m, v`dirty, v`history, v`cache, v`cacheSector, v`table, v`hint
    ensures Desked(v, now, after, later, held1) && Effect(v.shape, d, Put(slot, offset, bytes), after, done, v.m.fat)
    ensures LeavesBe(old(v.m), chains, held, v.m, later, held1)
    ensures CutsSince(v.shape, old(v.history), v.history, d.files, Put(slot, offset, bytes), after.files)
  {
    HandsAreOpen(v, hands, d, chains, held);
    done, now, after, later, held1 := false, hands, d, chains, held;
    if slot in hands { done, now, after, later, held1 := WriteFile(v, hands, slot, offset, bytes, d, chains, held); }
  }

  method PerformClose(v: Volume, hands: map<nat, Handle>, slot: nat, ghost d: Desk, ghost chains: seq<seq<nat>>, ghost held: map<nat, seq<nat>>)
    returns (done: bool, now: map<nat, Handle>, ghost after: Desk, ghost later: seq<seq<nat>>, ghost held1: map<nat, seq<nat>>)
    requires Desked(v, hands, d, chains, held)
    modifies v`m, v`history
    ensures Desked(v, now, after, later, held1) && Effect(v.shape, d, Close(slot), after, done, v.m.fat)
    ensures LeavesBe(old(v.m), chains, held, v.m, later, held1)
    ensures CutsSince(v.shape, old(v.history), v.history, d.files, Close(slot), after.files)
  {
    HandsAreOpen(v, hands, d, chains, held);
    done, now, after, later, held1 := false, hands, d, chains, held;
    if slot in hands {
      now, later, held1 := CloseFile(v, hands, slot, d, chains, held);
      done, after := true, Closes(d, slot);
    }
  }

  /** An operation on the records, while other files may be open. */
  method PerformClosed(v: Volume, op: Op, ghost chains: seq<seq<nat>>, ghost files: seq<File>,
                       ghost hands: map<nat, Handle>, ghost held: map<nat, seq<nat>>, ghost open: map<nat, View>)
    returns (done: bool, ghost later: seq<seq<nat>>, ghost after: seq<File>)
    requires Rest(v, chains, files) && AllHands(v.shape, v.m, chains, hands, held, open) && !Careless(Desk(files, open), op)
    requires !op.Open? && !op.Put? && !op.Close? && !op.Resize?
    modifies v`m, v`dirty, v`history, v`cache, v`cacheSector, v`table, v`hint
    ensures Rest(v, later, after) && |after| == |files| && FilesEffect(v.shape, files, op, after, done, v.m.fat)
    ensures AllHands(v.shape, v.m, later, hands, held, open)
    ensures LeavesBe(old(v.m), chains, held, v.m, later, held)
    ensures CutsSince(v.shape, old(v.history), v.history, files, op, after)
  {
    FilesOfRecords(v, chains, files);
    done, later, after := false, chains, files;
    ghost var m0 := v.m;
    match op
    case Make(name) => done, after := PerformMake(v, name, chains, files, hands, held, open);
    case MoveTo(src, name) =>
      if src < |v.m.dir| && v.m.dir[src].Used? { done, later, after := PerformMove(v, src, name, chains, files, hands, held, open); }
    case Delete(slot) =>
      if slot < |v.m.dir| && v.m.dir[slot].Used? {
        later := Remove(v, slot, chains, files);
        done, after := true, files[slot := NoFile];
        HandsAside(v.shape, m0, chains, v.m, later, slot, hands, held, open);
        LeavesByRecord(m0, chains, v.m, later, slot, held);
      }
  }

  method PerformMake(v: Volume, name: string, ghost chains: seq<seq<nat>>, ghost files: seq<File>,
                     ghost hands: map<nat, Handle>, ghost held: map<nat, seq<nat>>, ghost open: map<nat, View>)
    returns (done: bool, ghost after: seq<File>)
    requires Rest(v, chains, files) && AllHands(v.shape, v.m, chains, hands, held, open)
    modifies v`m, v`dirty, v`history
    ensures Rest(v, chains, after) && |after| == |files| && FilesEffect(v.shape, files, Make(name), after, done, v.m.fat)
    ensures AllHands(v.shape, v.m, chains, hands, held, open)
    ensures LeavesBe(old(v.m), chains, held, v.m, chains, held)
    ensures CutsSince(v.shape, old(v.history), v.history, files, Make(name), after)
  {
    FilesOfRecords(v, chains, files);
    ghost var m0 := v.m;
    var slot;
    done, slot := Create(v, name, chains, files);
    after := if done then files[slot := File(name, [])] else files;
    assert done ==> Made(files, name, slot, after);
    if done {
      HandsAreRecords(v.shape, m0, chains, hands, held, open);
      HandsAside(v.shape, m0, chains, v.m, chains, slot, hands, held, open);
      LeavesByRecord(m0, chains, v.m, chains, slot, held);
    }
  }

  method PerformMove(v: Volume, src: nat, name: string, ghost chains: seq<seq<nat>>, ghost files: seq<File>,
                     ghost hands: map<nat, Handle>, ghost held: map<nat, seq<nat>>, ghost open: map<nat, View>)
    returns (done: bool, ghost later: seq<seq<nat>>, ghost after: seq<File>)
    requires Rest(v, chains, files) && AllHands(v.shape, v.m, chains, hands, held, open)
    requires IsFile(files, src) && !Careless(Desk(files, open), MoveTo(src, name))
    modifies v`m, v`dirty, v`history, v`cache, v`cacheSector, v`table
    ensures Rest(v, later, after) && |after| == |files| && FilesEffect(v.shape, files, MoveTo(src, name), after, done, v.m.fat)
    ensures AllHands(v.shape, v.m, later, hands, held, open)
    ensures LeavesBe(old(v.m), chains, held, v.m, later, held)
    ensures CutsSince(v.shape, old(v.history), v.history, files, MoveTo(src, name), after)
  {
    var dst;
    ghost var at, m0 := 0, v.m;
    done, dst, later, at := Rename(v, src, name, chains, files);
    after := files;
    if done && dst != src {
      after := files[dst := File(name, files[src].contents)][src := NoFile];
      assert Moved(files, src, name, dst, after);
      assert dst in open ==> NamesOpen(Desk(files, open), name);
      HandsMoved(v.shape, m0, chains, v.m, later, src, dst, hands, held, open);
      LeavesByMove(m0, chains, v.m, later, src, dst, held);
    }
  }

  /** A file made some size: through its handle, or else opened for it and closed again. */
  method PerformResize(v: Volume, hands: map<nat, Handle>, slot: nat, size: nat,
                       ghost d: Desk, ghost chains: seq<seq<nat>>, ghost held: map<nat, seq<nat>>)
    returns (done: bool, now: map<nat, Handle>, ghost after: Desk, ghost later: seq<seq<nat>>, ghost held1: map<nat, seq<nat>>)
    requires Desked(v, hands, d, chains, held)
    modifies v`m, v`dirty, v`history, v`cache, v`cacheSector, v`table, v`hint
    ensures Desked(v, now, after, later, held1) && Effect(v.shape, d, Resize(slot, size), after, done, v.m.fat)
    ensures LeavesBe(old(v.m), chains, held, v.m, later, held1)
    ensures CutsSince(v.shape, old(v.history), v.history, d.files, Resize(slot, size), after.files)
  {
    HandsAreOpen(v, hands, d, chains, held);
    FilesOfRecords(v, chains, d.files);
    done, now, after, later, held1 := false, hands, d, chains, held;
    if slot < |v.m.dir| && v.m.dir[slot].Used? {
      if slot in hands {
        done, now, after, later, held1 := ResizeHeld(v, hands, slot, size, d, chains, held);
      } else {
        done, now, after, later, held1 := ResizeClosed(v, hands, slot, size, d, chains, held);
      }
    }
  }

  method ResizeHeld(v: Volume, hands: map<nat, Handle>, slot: nat, size: nat,
                    ghost d: Desk, ghost chains: seq<seq<nat>>, ghost held: map<nat, seq<nat>>)
    returns (done: bool, now: map<nat, Handle>, ghost after: Desk, ghost later: seq<seq<nat>>, ghost held1: map<nat, seq<nat>>)
    requires Desked(v, hands, d, chains, held) && slot in hands && slot in d.open
    modifies v`m, v`dirty, v`history, v`cache, v`cacheSector, v`table, v`hint
    ensures IsFile(d.files, slot) && Desked(v, now, after, later, held1)
    ensures after == if done then Resized(d, slot, SizedTo(d.open[slot].contents, size)) else d
    ensures !done ==> size > |d.open[slot].contents| && NoneFree(v.shape, v.m.fat)
    ensures LeavesBe(old(v.m), chains, held, v.m, later, held1)
    ensures CutsSince(v.shape, old(v.history), v.history, d.files, Resize(slot, size), after.files)
  {
    ghost var at;
    done, now, after, later, held1, at := ResizeFile(v, hands, slot, size, d, chains, held);
    ResizeCuts(v.shape, old(v.history), v.history, at, d.files, slot, size, after.files, held[slot]);
  }

  lemma ResizeCuts(g: Shape, h0: seq<Medium>, h: seq<Medium>, at: nat, a: seq<File>, slot: nat, size: nat, b: seq<File>, cs: seq<nat>)
    requires IsFile(a, slot)
    requires AllWhole(g, h0, h, a) || AllWhole(g, h0, h, b) || GrewAt(g, h0, h, at, a, b, slot, size, cs)
    ensures CutsSince(g, h0, h, a, Resize(slot, size), b)
  {
    forall i | |h0| <= i < |h|
      ensures Cut(g, h[i], a, Resize(slot, size), b)
    {
    }
  }

  method ResizeClosed(v: Volume, hands: map<nat, Handle>, slot: nat, size: nat,
                      ghost d: Desk, ghost chains: seq<seq<nat>>, ghost held: map<nat, seq<nat>>)
    returns (done: bool, now: map<nat, Handle>, ghost after: Desk, ghost later: seq<seq<nat>>, ghost held1: map<nat, seq<nat>>)
    requires Desked(v, hands, d, chains, held) && slot < |v.m.dir| && v.m.dir[slot].Used? && slot !in hands && slot !in d.open
    modifies v`m, v`dirty, v`history, v`cache, v`cacheSector, v`table, v`hint
    ensures IsFile(d.files, slot) && Desked(v, now, after, later, held1)
    ensures after == if done then d.(files := d.files[slot := File(d.files[slot].name, SizedTo(d.files[slot].contents, size))]) else d
    ensures !done ==> size > |d.files[slot].contents| && NoneFree(v.shape, v.m.fat)
    ensures LeavesBe(old(v.m), chains, held, v.m, later, held1)
    ensures CutsSince(v.shape, old(v.history), v.history, d.files, Resize(slot, size), after.files)
  {
    ghost var m0, held0 := v.m, held;
    now, held0 := OpenFile(v, hands, slot, d, chains, held);
    done, now, after, later, held1 := ResizeAndClose(v, now, slot, size, Opens(d, slot), chains, held0);
    LeavesTwice(m0, chains, held, m0, chains, held0, v.m, later, held1);
    ClosedAgain(d, slot, SizedTo(d.files[slot].contents, size), done);
  }

  /** Through a handle that has not written. */
  method ResizeAndClose(v: Volume, hands: map<nat, Handle>, slot: nat, size: nat,
                        ghost d: Desk, ghost chains: seq<seq<nat>>, ghost held: map<nat, seq<nat>>)
    returns (done: bool, now: map<nat, Handle>, ghost after: Desk, ghost later: seq<seq<nat>>, ghost held1: map<nat, seq<nat>>)
    requires Desked(v, hands, d, chains, held) && slot in hands && slot in d.open && !d.open[slot].dirty
    modifies v`m, v`dirty, v`history, v`cache, v`cacheSector, v`table, v`hint
    ensures IsFile(d.files, slot) && Desked(v, now, after, later, held1)
    ensures after == Closes(if done then Resized(d, slot, SizedTo(d.open[slot].contents, size)) else d, slot)
    ensures !done ==> size > |d.open[slot].contents| && NoneFree(v.shape, v.m.fat)
    ensures LeavesBe(old(v.m), chains, held, v.m, later, held1)
    ensures CutsSince(v.shape, old(v.history), v.history, d.files, Resize(slot, size), after.files)
  {
    ghost var h0, m0, d1, c1, k1 := v.history, v.m, d, chains, held;
    done, now, d1, c1, k1 := ResizeHeld(v, hands, slot, size, d, chains, held);
    HandsAreOpen(v, now, d1, c1, k1);
    ghost var h1, m1 := v.history, v.m;
    now, later, held1 := CloseFile(v, now, slot, d1, c1, k1);
    after := Closes(d1, slot);
    LeavesTwice(m0, chains, held, m1, c1, k1, v.m, later, held1);
    CutsThen(v.shape, h0, h1, v.history, d.files, Resize(slot, size), after.files);
  }

  lemma CutsThen(g: Shape, h0: seq<Medium>, h1: seq<Medium>, h2: seq<Medium>, a: seq<File>, op: Op, b: seq<File>)
    requires CutsSince(g, h0, h1, a, op, b) && AllWhole(g, h1, h2, b)
    ensures CutsSince(g, h0, h2, a, op, b)
  {
    forall i | |h0| <= i < |h2|
      ensures Cut(g, h2[i], a, op, b)
    {
      if i < |h1| { assert h2[i] == h1[i]; }
    }
  }

  /** A file opened, resized and closed leaves no handle. */
  lemma ClosedAgain(d: Desk, slot: nat, contents: seq<byte>, done: bool)
    requires slot !in d.open && IsFile(d.files, slot)
    ensures Closes(if done then Resized(Opens(d, slot), slot, contents) else Opens(d, slot), slot)
         == if done then d.(files := d.files[slot := File(d.files[slot].name, contents)]) else d
  {
    var d2 := if done then Resized(Opens(d, slot), slot, contents) else Opens(d, slot);
    assert d2.open - {slot} == d.open;
  }

  // ------------------------------------------------------------------
  // Many operations
  // ------------------------------------------------------------------

  /** A run of operations: the desk before and after each, whether it was done, and the medium it left. */
  datatype Log = Log(ops: seq<Op>, trail: seq<Desk>, done: seq<bool>, rests: seq<Medium>)

  ghost predicate Logged(g: Shape, log: Log, n: nat) {
    && n <= |log.ops| && |log.trail| == n + 1 && |log.done| == |log.rests| == n
    && (forall j {:trigger log.ops[j]} :: 0 <= j < n ==>
          Effect(g, log.trail[j], log.ops[j], log.trail[j + 1], log.done[j], log.rests[j].fat) && !Careless(log.trail[j], log.ops[j]))
    && (forall j {:trigger Agrees(log.trail[j])} :: 0 <= j <= n ==> Agrees(log.trail[j]))
  }

  /** What a cut in the `j`th operation leaves. */
  ghost predicate During(g: Shape, m: Medium, log: Log, j: nat) {
    j < |log.ops| && j + 1 < |log.trail| && Cut(g, m, log.trail[j].files, log.ops[j], log.trail[j + 1].files)
  }

  ghost predicate OnTrail(g: Shape, m: Medium, log: Log) {
    exists j: nat :: During(g, m, log, j)
  }

  /** Every medium written since `h0` is what a cut in one of the operations leaves. */
  ghost predicate AllCuts(g: Shape, h0: seq<Medium>, h: seq<Medium>, log: Log) {
    h0 <= h && forall i :: |h0| <= i < |h| ==> OnTrail(g, h[i], log)
  }

  ghost function LogMore(log: Log, b: Desk, done: bool, m: Medium): Log {
    log.(trail := log.trail + [b], done := log.done + [done], rests := log.rests + [m])
  }

  lemma LoggedMore(g: Shape, log: Log, n: nat, b: Desk, done: bool, m: Medium)
    requires n < |log.ops| && Logged(g, log, n) && Effect(g, log.trail[n], log.ops[n], b, done, m.fat)
    requires !Careless(log.trail[n], log.ops[n]) && Agrees(b)
    ensures Logged(g, LogMore(log, b, done, m), n + 1)
  {
    var longer := LogMore(log, b, done, m);
    forall j | 0 <= j < n + 1
      ensures Effect(g, longer.trail[j], longer.ops[j], longer.trail[j + 1], longer.done[j], longer.rests[j].fat)
      ensures !Careless(longer.trail[j], longer.ops[j])
    {
      assert longer.ops[j] == log.ops[j];
    }
    forall j | 0 <= j <= n + 1
      ensures Agrees(longer.trail[j])
    {
      if j <= n { assert Agrees(log.trail[j]); }
    }
  }

  lemma AllCutsMore(g: Shape, h0: seq<Medium>, h1: seq<Medium>, h2: seq<Medium>, log: Log, n: nat, b: Desk, done: bool, m: Medium)
    requires n < |log.ops| && Logged(g, log, n)
    requires AllCuts(g, h0, h1, log) && CutsSince(g, h1, h2, log.trail[n].files, log.ops[n], b.files)
    ensures AllCuts(g, h0, h2, LogMore(log, b, done, m))
  {
    var longer := LogMore(log, b, done, m);
    forall i | |h0| <= i < |h2|
      ensures OnTrail(g, h2[i], longer)
    {
      if i < |h1| {
        assert h2[i] == h1[i];
        var j: nat :| During(g, h1[i], log, j);
        assert During(g, h2[i], longer, j);
      } else {
        assert Cut(g, h2[i], log.trail[n].files, log.ops[n], b.files);
        assert During(g, h2[i], longer, n);
      }
    }
  }

  /** Nobody has a file open. */
  lemma RestIsDesked(v: Volume, chains: seq<seq<nat>>, files: seq<File>)
    requires Rest(v, chains, files)
    ensures Desked(v, map[], Desk(files, map[]), chains, map[]) && Agrees(Desk(files, map[]))
  {
  }

  /**
   Any sequence of operations through any number of handles: what each does or
   why it is refused, and what a cut anywhere among them leaves. The run ends
   with the sequence, or at the first operation that reaches past an open
   handle. What was in use and nobody's when it began is left alone throughout.
   */
  method Session(v: Volume, open: map<nat, Handle>, ops: seq<Op>, ghost d: Desk, ghost chains: seq<seq<nat>>, ghost held: map<nat, seq<nat>>)
    returns (n: nat, hands: map<nat, Handle>, ghost later: seq<seq<nat>>, ghost held1: map<nat, seq<nat>>, ghost log: Log)
    requires Desked(v, open, d, chains, held)
    modifies v`m, v`dirty, v`history, v`cache, v`cacheSector, v`table, v`hint
    ensures log.ops == ops && Logged(v.shape, log, n) && log.trail[0] == d
    ensures Desked(v, hands, log.trail[n], later, held1)
    ensures n < |ops| ==> Careless(log.trail[n], ops[n])
    ensures AllCuts(v.shape, old(v.history), v.history, log) && AllFit(v.shape, v.history)
    ensures forall i {:trigger v.history[i]} :: |old(v.history)| <= i < |v.history| ==> SizesFit(v.history[i])
    ensures forall k {:trigger hands[k]} :: k in hands ==> hands[k].size < 0x1_0000_0000
    ensures LeavesBe(old(v.m), chains, held, v.m, later, held1)
  {
    hands, later, held1, log := open, chains, held, Log(ops, [d], [], []);
    n := 0;
    DeskAgrees(v, hands, d, chains, held);
    while n < |ops|
      invariant n <= |ops| && log.ops == ops && Logged(v.shape, log, n) && log.trail[0] == d
      invariant Desked(v, hands, log.trail[n], later, held1)
      invariant AllCuts(v.shape, old(v.history), v.history, log)
      invariant LeavesBe(old(v.m), chains, held, v.m, later, held1)
    {
      var careless := IsCareless(v, hands, ops[n], log.trail[n], later, held1);
      if careless { break; }
      ghost var after, h1, m1, c1, k1 := log.trail[n], v.history, v.m, later, held1;
      var done;
      done, hands, after, later, held1 := Perform(v, hands, ops[n], log.trail[n], c1, k1);
      LeavesTwice(old(v.m), chains, held, m1, c1, k1, v.m, later, held1);
      DeskAgrees(v, hands, after, later, held1);
      LoggedMore(v.shape, log, n, after, done, v.m);
      AllCutsMore(v.shape, old(v.history), h1, v.history, log, n, after, done, v.m);
      log := LogMore(log, after, done, v.m);
      n := n + 1;
    }
    CutsFit(v.shape, old(v.history), v.history, log);
    HandsFit(v, hands, log.trail[n], later, held1);
  }

  // ------------------------------------------------------------------
  // What a cut leaves
  // ------------------------------------------------------------------

  lemma WholeFits(g: Shape, m: Medium, files: seq<File>)
    requires GoodShape(g) && Whole(g, m, files)
    ensures SizesFit(m)
  {
    var chains :| Holds(g, m.fat, m.dir, m.data, files, chains);
    forall k | 0 <= k < |m.dir| && m.dir[k].Used?
      ensures m.dir[k].size < 0x1_0000_0000
    {
      assert SlotSound(g, m.fat, m.dir[k], chains[k]);
      RecordFits(g, m.fat, m.dir[k], chains[k]);
    }
  }

  /** One record of a medium that would be whole without it is small enough too. */
  lemma WholeBut(g: Shape, m: Medium, files: seq<File>, slot: nat, s: Slot)
    requires GoodShape(g) && slot < |m.dir| && Whole(g, m.(dir := m.dir[slot := s]), files)
    requires m.dir[slot].Used? ==> m.dir[slot].size < 0x1_0000_0000
    ensures SizesFit(m)
  {
    var m1 := m.(dir := m.dir[slot := s]);
    WholeFits(g, m1, files);
    forall k | 0 <= k < |m.dir| && m.dir[k].Used?
      ensures m.dir[k].size < 0x1_0000_0000
    {
      assert k != slot ==> m1.dir[k] == m.dir[k];
    }
  }

  /** Whatever the cut, every record's size is one that thirty-two bits hold. */
  lemma CutFits(g: Shape, m: Medium, a: seq<File>, op: Op, b: seq<File>)
    requires GoodShape(g) && Cut(g, m, a, op, b)
    ensures SizesFit(m)
  {
    if Whole(g, m, a) {
      WholeFits(g, m, a);
    } else if Whole(g, m, b) {
      WholeFits(g, m, b);
    } else if op.Put? {
      var file :| Alike(file, a[op.slot], op.offset, op.bytes) && Whole(g, m, a[op.slot := file]);
      WholeFits(g, m, a[op.slot := file]);
    } else if op.MoveTo? {
      var dst :| 0 <= dst < |a| && Moved(a, op.src, op.name, dst, b) && Doubled(g, m, b, op.src, dst);
      var m1 := m.(dir := m.dir[op.src := Vacant]);
      WholeFits(g, m1, b);
      assert m1.dir[dst] == m.dir[dst];
      WholeBut(g, m, b, op.src, Vacant);
    } else {
      var before, chains, walk :| AheadBy(g, m, a, op.slot, before, chains, walk);
      assert Whole(g, m.(dir := m.dir[op.slot := before]), a);
      WholeBut(g, m, a, op.slot, before);
    }
  }

  lemma CutsFit(g: Shape, h0: seq<Medium>, h: seq<Medium>, log: Log)
    requires GoodShape(g) && AllCuts(g, h0, h, log)
    ensures forall i {:trigger h[i]} :: |h0| <= i < |h| ==> SizesFit(h[i])
  {
    forall i | |h0| <= i < |h|
      ensures SizesFit(h[i])
    {
      var j: nat :| During(g, h[i], log, j);
      CutFits(g, h[i], log.trail[j].files, log.ops[j], log.trail[j + 1].files);
    }
  }

  /** Whatever the cut, the records lead to whole chains that share no cluster, but for a file caught under two names and one caught growing. */
  lemma CutIsSound(g: Shape, m: Medium, a: seq<File>, op: Op, b: seq<File>)
    requires Cut(g, m, a, op, b)
    ensures SoundMedium(g, m) || CaughtMoving(g, m, a, op, b) || (op.Resize? && Ahead(g, m, a, op.slot))
  {
  }

  /** The record at `slot` leads to a whole chain and shows this file, whatever else the medium holds. */
  ghost predicate ShowsFile(g: Shape, m: Medium, slot: nat, file: File) {
    exists cs :: ShowsBy(g, m, slot, cs, file)
  }

  ghost predicate ShowsBy(g: Shape, m: Medium, slot: nat, cs: seq<nat>, file: File) {
    slot < |m.dir| && SlotSound(g, m.fat, m.dir[slot], cs) && FileOf(m.dir[slot], m.data, cs) == file
  }

  lemma WholeShows(g: Shape, m: Medium, files: seq<File>, slot: nat)
    requires Whole(g, m, files) && slot < |files|
    ensures ShowsFile(g, m, slot, files[slot])
  {
    var chains :| Holds(g, m.fat, m.dir, m.data, files, chains);
    assert SlotSound(g, m.fat, m.dir[slot], chains[slot]);
    assert ShowsBy(g, m, slot, chains[slot], files[slot]);
  }

  /** While one record is in flux the others show what they did. */
  lemma FluxShows(g: Shape, m: Medium, files: seq<File>, changed: nat, s: Slot, slot: nat)
    requires changed < |m.dir| && Whole(g, m.(dir := m.dir[changed := s]), files) && slot < |files| && slot != changed
    ensures ShowsFile(g, m, slot, files[slot])
  {
    var m1 := m.(dir := m.dir[changed := s]);
    WholeShows(g, m1, files, slot);
    var cs :| ShowsBy(g, m1, slot, cs, files[slot]);
    assert ShowsBy(g, m, slot, cs, files[slot]);
  }

  /** What a handle's own calls do to its file. */
  predicate OfHandle(op: Op, slot: nat) {
    (op.Put? || op.Close? || op.Resize?) && op.slot == slot
  }

  /** An operation that writes into an open file, if at all, only behind its record's end. */
  predicate OnlyBehind(op: Op, slot: nat, end: nat) {
    OfHandle(op, slot) ==> op.Put? && op.offset >= end
  }

  /** Such an operation leaves the record showing what it did, and the file open. */
  lemma RecordStays(g: Shape, a: Desk, op: Op, b: Desk, done: bool, f: Table, slot: nat)
    requires Effect(g, a, op, b, done, f) && !Careless(a, op) && slot in a.open && IsFile(a.files, slot)
    requires OnlyBehind(op, slot, |a.files[slot].contents|)
    ensures slot in b.open && IsFile(b.files, slot) && b.files[slot] == a.files[slot]
  {
    match op
    case Put(at, offset, bytes) =>
      if at == slot { PartlyHidden(a.files[slot].contents, b.files[slot].contents, offset, bytes); }
    case MoveTo(src, name) =>
      assert forall dst: nat :: dst in a.open && dst < |a.files| && Target(a.files, name, dst) ==> NamesOpen(a, name) || !IsFile(a.files, src);
    case _ =>
  }

  /** And so does every cut in it. */
  lemma CutShowsRecord(g: Shape, m: Medium, a: Desk, op: Op, b: Desk, slot: nat)
    requires Cut(g, m, a.files, op, b.files) && !Careless(a, op) && slot in a.open && IsFile(a.files, slot)
    requires OnlyBehind(op, slot, |a.files[slot].contents|) && IsFile(b.files, slot) && b.files[slot] == a.files[slot]
    ensures ShowsFile(g, m, slot, a.files[slot])
  {
    if Whole(g, m, a.files) {
      WholeShows(g, m, a.files, slot);
    } else if Whole(g, m, b.files) {
      WholeShows(g, m, b.files, slot);
    } else if op.Put? {
      var file :| Alike(file, a.files[op.slot], op.offset, op.bytes) && Whole(g, m, a.files[op.slot := file]);
      if op.slot == slot { PartlyHidden(a.files[slot].contents, file.contents, op.offset, op.bytes); }
      WholeShows(g, m, a.files[op.slot := file], slot);
    } else if op.MoveTo? {
      var dst :| 0 <= dst < |a.files| && Moved(a.files, op.src, op.name, dst, b.files) && Doubled(g, m, b.files, op.src, dst);
      FluxShows(g, m, b.files, op.src, Vacant, slot);
    } else {
      var before, chains, walk :| AheadBy(g, m, a.files, op.slot, before, chains, walk);
      assert Whole(g, m.(dir := m.dir[op.slot := before]), a.files);
      FluxShows(g, m, a.files, op.slot, before, slot);
    }
  }

  /** From the `i`th to the `j`th operation, whatever is done to other files, this open one is only written behind its record's end. */
  ghost predicate BehindOnly(log: Log, i: nat, j: nat, slot: nat) {
    && i <= j <= |log.ops| && j < |log.trail| && IsFile(log.trail[i].files, slot) && slot in log.trail[i].open
    && forall k {:trigger log.ops[k]} :: i <= k < j ==> OnlyBehind(log.ops[k], slot, |log.trail[i].files[slot].contents|)
  }

  /**
   However many writes go behind an open file's end, and whatever is done to
   other files between them, its record shows none of them before the handle
   closes, and no cut does.
   */
  lemma {:induction false} AppendIsAtomic(g: Shape, log: Log, n: nat, i: nat, j: nat, slot: nat, m: Medium)
    requires Logged(g, log, n) && BehindOnly(log, i, j, slot)
    ensures slot in log.trail[j].open && IsFile(log.trail[j].files, slot) && log.trail[j].files[slot] == log.trail[i].files[slot]
    ensures forall k: nat :: i <= k < j && During(g, m, log, k) ==> ShowsFile(g, m, slot, log.trail[i].files[slot])
    decreases j - i
  {
    if i < j {
      var a, op, b := log.trail[i], log.ops[i], log.trail[i + 1];
      RecordStays(g, a, op, b, log.done[i], log.rests[i].fat, slot);
      AppendIsAtomic(g, log, n, i + 1, j, slot, m);
      forall k: nat | i <= k < j && During(g, m, log, k)
        ensures ShowsFile(g, m, slot, a.files[slot])
      {
        if k == i { CutShowsRecord(g, m, a, op, b, slot); }
      }
    }
  }

  /** A name being replaced means its old content or the new, whole, at every cut; and every other file is as it was. */
  lemma ReplacedIsOldOrNew(g: Shape, m: Medium, a: seq<File>, src: nat, name: string, b: seq<File>, dst: nat)
    requires Cut(g, m, a, MoveTo(src, name), b) && Moved(a, src, name, dst, b)
    ensures exists chains, shown ::
      && Readable(g, m, chains, shown) && |shown| == |a|
      && (shown[dst] == a[dst] || shown[dst] == File(name, a[src].contents))
      && forall k :: 0 <= k < |a| && k != src && k != dst ==> shown[k] == a[k]
  {
    if Whole(g, m, a) {
      WholeReads(g, m, a);
    } else if Whole(g, m, b) {
      WholeReads(g, m, b);
    } else {
      var d :| 0 <= d < |a| && Moved(a, src, name, d, b) && Doubled(g, m, b, src, d);
      assert b[d] == File(name, a[src].contents) && b[dst] == b[d];
      assert d == dst;
      var both := DoubledReads(g, m, b, src, d);
    }
  }

  lemma WholeReads(g: Shape, m: Medium, files: seq<File>)
    requires Whole(g, m, files)
    ensures |files| == |m.dir| && exists chains :: Readable(g, m, chains, files)
  {
    var chains :| Holds(g, m.fat, m.dir, m.data, files, chains);
    assert Readable(g, m, chains, files);
  }
}
