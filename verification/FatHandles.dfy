/**
 Files open for writing, several at once: each handle keeps what its record
 should say until it closes, and the clusters it has gained are in the table
 and in no record. Closing a handle that has written commits its record.
 */
module FatHandles {
  import opened ByteFields
  import opened FatVolume
  import opened FatTable
  import opened FatChains
  import opened FatWrite
  import opened FatStore
  import opened FatFiles
  import opened FatResize

  /** An open file: what its record should say, where its last walk ended, and whether it has written. */
  datatype Handle = Handle(first: nat, size: nat, walked: nat, walkedCluster: nat, dirty: bool)

  /** What a handle reads as. */
  datatype View = View(contents: seq<byte>, dirty: bool)

  /** The files of the records, and what the open handles read as, by record. */
  datatype Desk = Desk(files: seq<File>, open: map<nat, View>)

  /** One open handle, over a table that is on the medium. The record it will be committed to leads to its whole chain or to none yet. */
  ghost predicate Hand(g: Shape, m: Medium, chains: seq<seq<nat>>, slot: nat, h: Handle, cs: seq<nat>, view: View) {
    true == (
      && slot < |m.dir| == |chains| && m.dir[slot].Used?
      && (m.dir[slot].first == h.first || m.dir[slot].first == m.dir[slot].size == 0) && m.dir[slot].size <= h.size
      && SlotSound(g, m.fat, m.dir[slot].(first := h.first, size := h.size), cs)
      && (h.walkedCluster != 0 ==> h.walked < |cs| && cs[h.walked] == h.walkedCluster)
      && chains[slot] == (if m.dir[slot].first == 0 then [] else cs)
      && (forall k {:trigger chains[k]} :: 0 <= k < |chains| && k != slot ==> Apart(chains[k], cs))
      && view == View(Take(Bytes(m.data, cs), h.size), h.dirty))
  }

  /** Every open handle has its own chain, no record but its own leads there, and no two share a cluster. */
  ghost predicate AllHands(g: Shape, m: Medium, chains: seq<seq<nat>>, hands: map<nat, Handle>, held: map<nat, seq<nat>>, open: map<nat, View>) {
    && hands.Keys == held.Keys == open.Keys
    && (forall k {:trigger hands[k]} :: k in hands ==> Hand(g, m, chains, k, hands[k], held[k], open[k]))
    && (forall j, k {:trigger Apart(held[j], held[k])} :: j in held && k in held && j != k ==> Apart(held[j], held[k]))
  }

  /** The volume between two calls: the records' files at rest, and the open handles. */
  ghost predicate Desked(v: Volume, hands: map<nat, Handle>, d: Desk, chains: seq<seq<nat>>, held: map<nat, seq<nat>>)
    reads v
  {
    true == (Rest(v, chains, d.files) && AllHands(v.shape, v.m, chains, hands, held, d.open))
  }

  /** What a record shows is the front of what its handle reads. */
  ghost predicate Agrees(d: Desk) {
    forall k {:trigger d.open[k]} :: k in d.open ==>
      k < |d.files| && d.files[k].File? && d.files[k].contents <= d.open[k].contents
  }

  lemma HandBytes(g: Shape, m: Medium, chains: seq<seq<nat>>, slot: nat, h: Handle, cs: seq<nat>, view: View)
    requires DataFits(g, m.data) && Hand(g, m, chains, slot, h, cs, view)
    ensures m.dir[slot].size <= h.size <= |Bytes(m.data, cs)| == g.clusterSize * |cs|
    ensures view.contents == Bytes(m.data, cs)[..h.size]
  {
    BytesLength(g, m.data, cs);
  }

  /** What a handle claims, its record can say. */
  lemma HandsFit(v: Volume, hands: map<nat, Handle>, d: Desk, chains: seq<seq<nat>>, held: map<nat, seq<nat>>)
    requires Desked(v, hands, d, chains, held)
    ensures forall k {:trigger hands[k]} :: k in hands ==> hands[k].size < 0x1_0000_0000
  {
    forall k | k in hands
      ensures hands[k].size < 0x1_0000_0000
    {
      assert Hand(v.shape, v.m, chains, k, hands[k], held[k], d.open[k]);
      RecordFits(v.shape, v.m.fat, v.m.dir[k].(first := hands[k].first, size := hands[k].size), held[k]);
    }
  }

  /** What of a handle is the record's business. */
  lemma HandRecord(g: Shape, m: Medium, chains: seq<seq<nat>>, slot: nat, h: Handle, cs: seq<nat>, view: View)
    requires Hand(g, m, chains, slot, h, cs, view)
    ensures slot < |m.dir| == |chains| && m.dir[slot].Used?
    ensures chains[slot] == cs || (chains[slot] == [] && m.dir[slot].size == 0)
  {
  }

  lemma HandShows(g: Shape, m: Medium, chains: seq<seq<nat>>, slot: nat, h: Handle, cs: seq<nat>, view: View)
    requires DataFits(g, m.data) && Hand(g, m, chains, slot, h, cs, view)
    ensures m.dir[slot].size <= |view.contents|
    ensures FileOf(m.dir[slot], m.data, chains[slot]) == File(m.dir[slot].name, view.contents[..m.dir[slot].size])
  {
    HandRecord(g, m, chains, slot, h, cs, view);
    HandBytes(g, m, chains, slot, h, cs, view);
    FrontOf(Bytes(m.data, cs), h.size, m.dir[slot].size);
  }

  lemma FrontOf(b: seq<byte>, n: nat, size: nat)
    requires size <= n <= |b|
    ensures Take(b, size) == b[..n][..size]
  {
  }

  lemma HandsAreRecords(g: Shape, m: Medium, chains: seq<seq<nat>>, hands: map<nat, Handle>, held: map<nat, seq<nat>>, open: map<nat, View>)
    requires AllHands(g, m, chains, hands, held, open)
    ensures forall k :: k in hands ==> k < |m.dir| && m.dir[k].Used?
  {
    forall k | k in hands
      ensures k < |m.dir| && m.dir[k].Used?
    {
      HandRecord(g, m, chains, k, hands[k], held[k], open[k]);
    }
  }

  lemma DeskAgrees(v: Volume, hands: map<nat, Handle>, d: Desk, chains: seq<seq<nat>>, held: map<nat, seq<nat>>)
    requires Desked(v, hands, d, chains, held)
    ensures Agrees(d)
  {
    forall k | k in d.open
      ensures k < |d.files| && d.files[k].File? && d.files[k].contents <= d.open[k].contents
    {
      assert Hand(v.shape, v.m, chains, k, hands[k], held[k], d.open[k]);
      HandShows(v.shape, v.m, chains, k, hands[k], held[k], d.open[k]);
      assert FileOf(v.m.dir[k], v.m.data, chains[k]) == d.files[k];
    }
  }

  // ------------------------------------------------------------------
  // What one file does not do to another's handle
  // ------------------------------------------------------------------

  /** A cluster a handle holds is in use. */
  lemma HeldInUse(g: Shape, m: Medium, chains: seq<seq<nat>>, slot: nat, h: Handle, cs: seq<nat>, view: View, c: nat)
    requires Hand(g, m, chains, slot, h, cs, view) && c in cs
    ensures c < |m.fat| && m.fat[c] != FREE && ValidCluster(g, c)
  {
    assert IsChain(g, m.fat, cs);
    var i :| 0 <= i < |cs| && cs[i] == c;
    LinkInChain(g, m.fat, cs, i);
  }

  /** A handle whose own clusters and record did not move is as it was. */
  lemma HandAside(g: Shape, m0: Medium, c0: seq<seq<nat>>, m1: Medium, c1: seq<seq<nat>>, own: seq<nat>,
                  slot: nat, h: Handle, cs: seq<nat>, view: View)
    requires Hand(g, m0, c0, slot, h, cs, view) && DataFits(g, m0.data) && Aside(m0, m1, own) && Apart(own, cs)
    requires |c1| == |c0| == |m1.dir| && m1.dir[slot] == m0.dir[slot] && c1[slot] == c0[slot]
    requires forall k {:trigger c1[k]} :: 0 <= k < |c1| && k != slot ==> Apart(c1[k], cs)
    ensures Hand(g, m1, c1, slot, h, cs, view)
  {
    forall c | c in cs
      ensures c < |m0.fat| && m1.fat[c] == m0.fat[c] && c < |m0.data| && m1.data[c] == m0.data[c]
    {
      HeldInUse(g, m0, c0, slot, h, cs, view, c);
    }
    ChainFrame(g, m0.fat, m1.fat, cs);
    BytesFrame(m0.data, m1.data, cs);
  }

  /** While one file's record, chain or contents change, the handles of the others do not. */
  lemma OthersStand(g: Shape, m0: Medium, c0: seq<seq<nat>>, m1: Medium, c1: seq<seq<nat>>, changed: nat,
                    slot: nat, h: Handle, cs: seq<nat>, view: View)
    requires OnlySlot(m0, c0, m1, c1, changed) && DataFits(g, m0.data) && slot != changed
    requires Hand(g, m0, c0, slot, h, cs, view)
    ensures Hand(g, m1, c1, slot, h, cs, view) && Apart(c1[changed], cs)
  {
    assert Apart(c0[changed], cs);
    forall c | c in cs
      ensures c !in c1[changed]
    {
      HeldInUse(g, m0, c0, slot, h, cs, view, c);
    }
    HandAside(g, m0, c0, m1, c1, c0[changed], slot, h, cs, view);
  }

  // ------------------------------------------------------------------
  // What is nobody's
  // ------------------------------------------------------------------

  /** A record leads to the cluster, or a handle holds it. */
  ghost predicate Somebodys(c: nat, chains: seq<seq<nat>>, held: map<nat, seq<nat>>) {
    (exists k :: 0 <= k < |chains| && c in chains[k]) || (exists k :: k in held && c in held[k])
  }

  /** What was in use and nobody's is as it was, and still nobody's. */
  ghost predicate LeavesBe(m0: Medium, c0: seq<seq<nat>>, held0: map<nat, seq<nat>>, m1: Medium, c1: seq<seq<nat>>, held1: map<nat, seq<nat>>) {
    true == (
      && |m1.fat| == |m0.fat| && |m1.data| == |m0.data| && |m1.dir| == |m0.dir|
      && forall c: nat {:trigger Somebodys(c, c1, held1)} {:trigger m1.fat[c]} {:trigger m1.data[c]} ::
           c < |m0.fat| && c < |m0.data| && m0.fat[c] != FREE && !Somebodys(c, c0, held0) ==>
             m1.fat[c] == m0.fat[c] && m1.data[c] == m0.data[c] && !Somebodys(c, c1, held1))
  }

  lemma LeavesTwice(m0: Medium, c0: seq<seq<nat>>, held0: map<nat, seq<nat>>, m1: Medium, c1: seq<seq<nat>>, held1: map<nat, seq<nat>>,
                    m2: Medium, c2: seq<seq<nat>>, held2: map<nat, seq<nat>>)
    requires LeavesBe(m0, c0, held0, m1, c1, held1) && LeavesBe(m1, c1, held1, m2, c2, held2)
    ensures LeavesBe(m0, c0, held0, m2, c2, held2)
  {
    forall c: nat | c < |m0.fat| && c < |m0.data| && m0.fat[c] != FREE && !Somebodys(c, c0, held0)
      ensures m2.fat[c] == m0.fat[c] && m2.data[c] == m0.data[c] && !Somebodys(c, c2, held2)
    {
      assert m1.fat[c] == m0.fat[c] && !Somebodys(c, c1, held1);
    }
  }

  /** A record changed with its chain, and no handle. */
  lemma LeavesByRecord(m0: Medium, c0: seq<seq<nat>>, m1: Medium, c1: seq<seq<nat>>, slot: nat, held: map<nat, seq<nat>>)
    requires OnlySlot(m0, c0, m1, c1, slot)
    ensures LeavesBe(m0, c0, held, m1, c1, held)
  {
    forall c: nat | c < |m0.fat| && c < |m0.data| && m0.fat[c] != FREE && !Somebodys(c, c0, held)
      ensures m1.fat[c] == m0.fat[c] && m1.data[c] == m0.data[c] && !Somebodys(c, c1, held)
    {
      assert c !in c0[slot];
    }
  }

  lemma LeavesByMove(m0: Medium, c0: seq<seq<nat>>, m1: Medium, c1: seq<seq<nat>>, src: nat, dst: nat, held: map<nat, seq<nat>>)
    requires MovedOnly(m0, c0, m1, c1, src, dst)
    ensures LeavesBe(m0, c0, held, m1, c1, held)
  {
    forall c: nat | c < |m0.fat| && c < |m0.data| && m0.fat[c] != FREE && !Somebodys(c, c0, held)
      ensures m1.fat[c] == m0.fat[c] && m1.data[c] == m0.data[c] && !Somebodys(c, c1, held)
    {
      assert c !in c0[src] && c !in c0[dst];
    }
  }

  /** What a handle holds changed, and its record with it. */
  lemma LeavesByHandle(m0: Medium, c0: seq<seq<nat>>, held: map<nat, seq<nat>>, m1: Medium, longer: seq<seq<nat>>, c1: seq<seq<nat>>,
                       held1: map<nat, seq<nat>>, slot: nat)
    requires slot in held && slot < |c0| && OnlySlot(m0, Through(c0, slot, held[slot]), m1, longer, slot)
    requires |c1| == |longer| && c1 == longer[slot := c1[slot]] && (c1[slot] == [] || c1[slot] == longer[slot]) && held1 == held[slot := longer[slot]]
    ensures LeavesBe(m0, c0, held, m1, c1, held1)
  {
    forall c: nat | c < |m0.fat| && c < |m0.data| && m0.fat[c] != FREE && !Somebodys(c, c0, held)
      ensures m1.fat[c] == m0.fat[c] && m1.data[c] == m0.data[c] && !Somebodys(c, c1, held1)
    {
      assert c !in held[slot] && c !in longer[slot];
      forall k | 0 <= k < |c1|
        ensures c !in c1[k]
      {
        assert k != slot ==> c1[k] == c0[k];
      }
    }
  }

  /** Who holds what already taken changed hands, and nothing else. */
  lemma LeavesAll(m0: Medium, c0: seq<seq<nat>>, held0: map<nat, seq<nat>>, m1: Medium, c1: seq<seq<nat>>, held1: map<nat, seq<nat>>)
    requires m1.fat == m0.fat && m1.data == m0.data && |m1.dir| == |m0.dir|
    requires forall k :: 0 <= k < |c1| ==> (k < |c0| && c1[k] == c0[k]) || (k in held0 && c1[k] == held0[k])
    requires forall k :: k in held1 ==> (k < |c0| && held1[k] == c0[k]) || (k in held0 && held1[k] == held0[k])
    ensures LeavesBe(m0, c0, held0, m1, c1, held1)
  {
  }

  // ------------------------------------------------------------------
  // Writing
  // ------------------------------------------------------------------

  /** The chains a write through this handle sees: its own whole, whatever its record leads to. */
  ghost function Through(chains: seq<seq<nat>>, slot: nat, cs: seq<nat>): seq<seq<nat>>
    requires slot < |chains|
  {
    chains[slot := cs]
  }

  /** The chains of the records, when this one's file has grown. */
  ghost function Recorded(dir: seq<Slot>, slot: nat, longer: seq<seq<nat>>): seq<seq<nat>>
    requires slot < |longer| && slot < |dir| && dir[slot].Used?
  {
    longer[slot := if dir[slot].first == 0 then [] else longer[slot]]
  }

  /** A record that leads nowhere yet, or to the whole chain of its handle. */
  lemma ReadyHere(g: Shape, m: Medium, chains: seq<seq<nat>>, slot: nat, h: Handle, cs: seq<nat>, view: View)
    requires Hand(g, m, chains, slot, h, cs, view) && Sound(g, m.fat, m.dir, chains)
    ensures Ready(g, m, m.fat, slot, h.first, h.size, Through(chains, slot, cs))
  {
    var s := m.dir[slot].(first := h.first, size := h.size);
    SoundWith(g, m.fat, m.dir, chains, slot, s, cs);
    var n := |chains[slot]|;
    assert cs[..n] == chains[slot] && Through(chains, slot, cs)[slot := cs[..n]] == chains;
    assert Reaches(g, m.fat, m.dir, Through(chains, slot, cs), slot, n);
  }

  lemma ShownThrough(g: Shape, m: Medium, chains: seq<seq<nat>>, slot: nat, h: Handle, cs: seq<nat>, view: View, files: seq<File>)
    requires Hand(g, m, chains, slot, h, cs, view) && DataFits(g, m.data) && Shows(m.dir, m.data, chains, files)
    ensures Shows(m.dir, m.data, Through(chains, slot, cs), files)
  {
    HandBytes(g, m, chains, slot, h, cs, view);
    assert FileOf(m.dir[slot], m.data, chains[slot]) == files[slot];
    forall k | 0 <= k < |m.dir|
      ensures FileOf(m.dir[k], m.data, Through(chains, slot, cs)[k]) == files[k]
    {
      assert FileOf(m.dir[k], m.data, chains[k]) == files[k];
    }
  }

  lemma HandThrough(g: Shape, m: Medium, chains: seq<seq<nat>>, slot: nat, own: seq<nat>, k: nat, h: Handle, cs: seq<nat>, view: View)
    requires Hand(g, m, chains, k, h, cs, view) && slot < |chains| && k != slot && Apart(own, cs)
    ensures Hand(g, m, Through(chains, slot, own), k, h, cs, view)
  {
    assert forall j {:trigger Through(chains, slot, own)[j]} :: 0 <= j < |chains| && j != k ==> Apart(Through(chains, slot, own)[j], cs);
  }

  /** The other handles do not see the difference. */
  lemma HandsThrough(g: Shape, m: Medium, chains: seq<seq<nat>>, hands: map<nat, Handle>, held: map<nat, seq<nat>>, open: map<nat, View>,
                     slot: nat, k: nat)
    requires AllHands(g, m, chains, hands, held, open) && slot in hands && k in hands && k != slot && slot < |chains|
    ensures Hand(g, m, Through(chains, slot, held[slot]), k, hands[k], held[k], open[k])
  {
    assert hands[k] == hands[k] && Apart(held[slot], held[k]);
    HandThrough(g, m, chains, slot, held[slot], k, hands[k], held[k], open[k]);
  }

  /** What a write leaves of the records: sound, and showing the file they showed with a front part of the bytes over it. */
  lemma PutRecords(g: Shape, s: Start, m: Medium, first: nat, size: nat, longer: seq<seq<nat>>, slot: nat, offset: nat, bytes: seq<byte>, ok: bool)
    requires GoodShape(g) && Began(g, s, slot) && Outcome(s, m, size, longer, slot, offset, bytes, ok) && DataFits(g, m.data)
    requires Ready(g, m, m.fat, slot, first, size, longer) && |m.fat| == PER_SECTOR * g.tableSectors
    requires s.m.dir[slot].first == 0 ==> s.m.dir[slot].size == 0
    ensures Sound(g, m.fat, m.dir, Recorded(m.dir, slot, longer))
    ensures Shows(m.dir, m.data, Recorded(m.dir, slot, longer),
                  s.files[slot := FileOf(m.dir[slot], m.data, Recorded(m.dir, slot, longer)[slot])])
    ensures Alike(FileOf(m.dir[slot], m.data, Recorded(m.dir, slot, longer)[slot]), s.files[slot], offset, bytes)
  {
    PutSound(g, m, first, size, longer, slot);
    PutAlike(g, s, m, first, size, longer, slot, offset, bytes, ok);
    var chains := Recorded(m.dir, slot, longer);
    forall k | 0 <= k < |m.dir| && k != slot
      ensures FileOf(m.dir[k], m.data, chains[k]) == s.files[k]
    {
      assert longer[k] == s.chains[k] && FileOf(s.m.dir[k], s.m.data, s.chains[k]) == s.files[k];
    }
  }

  lemma PutSound(g: Shape, m: Medium, first: nat, size: nat, longer: seq<seq<nat>>, slot: nat)
    requires GoodShape(g) && Ready(g, m, m.fat, slot, first, size, longer) && |m.fat| == PER_SECTOR * g.tableSectors
    requires m.dir[slot].first == 0 ==> m.dir[slot].size == 0
    ensures Sound(g, m.fat, m.dir, Recorded(m.dir, slot, longer))
  {
    var after := Committed(m.dir, slot, first, size);
    ChainOf(g, m.fat, after, longer, slot);
    if m.dir[slot].first == 0 {
      assert IsChain(g, m.fat, []);
      SoundWith(g, m.fat, after, longer, slot, m.dir[slot], []);
      assert after[slot := m.dir[slot]] == m.dir;
    } else {
      SoundSmaller(g, m.fat, m.dir, slot, first, size, longer);
      assert Recorded(m.dir, slot, longer) == longer;
    }
  }

  lemma PutAlike(g: Shape, s: Start, m: Medium, first: nat, size: nat, longer: seq<seq<nat>>, slot: nat, offset: nat, bytes: seq<byte>, ok: bool)
    requires Began(g, s, slot) && Outcome(s, m, size, longer, slot, offset, bytes, ok) && DataFits(g, m.data)
    requires Ready(g, m, m.fat, slot, first, size, longer)
    requires s.m.dir[slot].first == 0 ==> s.m.dir[slot].size == 0
    ensures Alike(FileOf(m.dir[slot], m.data, Recorded(m.dir, slot, longer)[slot]), s.files[slot], offset, bytes)
  {
    BeganBytes(g, s, slot);
    ChainOf(g, m.fat, Committed(m.dir, slot, first, size), longer, slot);
    BytesLength(g, m.data, longer[slot]);
    var b0, b, shown := Bytes(s.m.data, s.chains[slot]), Bytes(m.data, longer[slot]), m.dir[slot].size;
    var d := ShownOverlaid(b0, s.size, b, size, offset, bytes, ok, shown);
    var file := FileOf(m.dir[slot], m.data, Recorded(m.dir, slot, longer)[slot]);
    assert file.contents == b[..shown];
    assert Overlaid(s.files[slot].contents, file.contents, |file.contents|, offset, bytes[..d]);
  }

  /** What storing bytes makes of what a handle reads. */
  ghost predicate StoredInto(before: seq<byte>, after: seq<byte>, offset: nat, bytes: seq<byte>, ok: bool) {
    if ok && bytes != [] then after == Stored(before, offset, bytes) else PartlyStored(before, after, offset, bytes)
  }

  /** From `d` to `d1`: one handle reads with the bytes stored, and its record shows no more of them than reach into what it claims. */
  ghost predicate PutDone(d: Desk, d1: Desk, slot: nat, offset: nat, bytes: seq<byte>, ok: bool) {
    true == (
      && slot in d.open && slot in d1.open && slot < |d.files| == |d1.files|
      && d1 == Desk(d.files[slot := d1.files[slot]], d.open[slot := d1.open[slot]])
      && StoredInto(d.open[slot].contents, d1.open[slot].contents, offset, bytes, ok)
      && d1.open[slot].dirty == (d.open[slot].dirty || ok)
      && Alike(d1.files[slot], d.files[slot], offset, bytes))
  }

  ghost function StartOf(m: Medium, h: Handle, history: seq<Medium>, chains: seq<seq<nat>>, slot: nat, cs: seq<nat>, files: seq<File>): Start
    requires slot < |chains|
  {
    Start(m, m.fat, h.first, h.size, Retold(history, m.dir), Through(chains, slot, cs), files, m.dir, history)
  }

  lemma HandBegins(g: Shape, m: Medium, chains: seq<seq<nat>>, slot: nat, h: Handle, cs: seq<nat>, view: View, files: seq<File>, history: seq<Medium>)
    requires Hand(g, m, chains, slot, h, cs, view) && DataFits(g, m.data)
    requires Sound(g, m.fat, m.dir, chains) && Shows(m.dir, m.data, chains, files)
    ensures Began(g, StartOf(m, h, history, chains, slot, cs, files), slot)
    ensures m.dir[slot].Used? && (m.dir[slot].first == 0 ==> m.dir[slot].size == 0)
    ensures Visible(m.data, Through(chains, slot, cs), slot, h.size) == view.contents
    ensures h.walkedCluster != 0 ==> h.walked < |cs| && cs[h.walked] == h.walkedCluster
  {
    ReadyHere(g, m, chains, slot, h, cs, view);
    ShownThrough(g, m, chains, slot, h, cs, view, files);
  }

  /** A write through the handle at `slot` began at `s`. */
  ghost predicate Going(g: Shape, s: Start, hands: map<nat, Handle>, d: Desk, chains: seq<seq<nat>>, held: map<nat, seq<nat>>, slot: nat) {
    true == (
      && slot in hands && slot < |chains| && AllHands(g, s.m, chains, hands, held, d.open)
      && s.chains == Through(chains, slot, held[slot]) && s.files == d.files && s.m.fat == s.table == s.m.copy
      && Began(g, s, slot) && (s.m.dir[slot].first == 0 ==> s.m.dir[slot].size == 0)
      && d.open[slot] == View(Visible(s.m.data, s.chains, slot, s.size), hands[slot].dirty))
  }

  /** The volume between two calls, as an entry is told of it. */
  ghost predicate DeskedAs(v: Volume, told: seq<Slot>, hands: map<nat, Handle>, d: Desk, chains: seq<seq<nat>>, held: map<nat, seq<nat>>)
    reads v
  {
    true == (
      && v.Valid() && !v.dirty && v.table == v.m.fat == v.m.copy
      && Holds(v.shape, v.m.fat, told, v.m.data, d.files, chains)
      && AllHands(v.shape, v.m.(dir := told), chains, hands, held, d.open))
  }

  lemma DeskedTruly(v: Volume, hands: map<nat, Handle>, d: Desk, chains: seq<seq<nat>>, held: map<nat, seq<nat>>)
    ensures DeskedAs(v, v.m.dir, hands, d, chains, held) <==> Desked(v, hands, d, chains, held)
  {
    assert v.m.(dir := v.m.dir) == v.m;
  }

  /** A handle's chain grew by clusters that were free, and no other entry of the table moved. */
  ghost predicate HeldGrew(f0: Table, f1: Table, held: map<nat, seq<nat>>, held1: map<nat, seq<nat>>, slot: nat) {
    true == (
      && slot in held && slot in held1 && held1 == held[slot := held1[slot]] && held[slot] <= held1[slot]
      && Spared(f0, f1, held[slot], held1[slot]))
  }

  lemma HandGoing(g: Shape, m: Medium, hands: map<nat, Handle>, d: Desk, chains: seq<seq<nat>>, held: map<nat, seq<nat>>, slot: nat, history: seq<Medium>)
    requires AllHands(g, m, chains, hands, held, d.open) && Holds(g, m.fat, m.dir, m.data, d.files, chains) && m.copy == m.fat
    requires slot in hands && DataFits(g, m.data)
    ensures slot < |chains| && Going(g, StartOf(m, hands[slot], history, chains, slot, held[slot], d.files), hands, d, chains, held, slot)
    ensures var h := hands[slot]; h.walkedCluster != 0 ==> h.walked < |held[slot]| && held[slot][h.walked] == h.walkedCluster
  {
    assert Hand(g, m, chains, slot, hands[slot], held[slot], d.open[slot]);
    HandBegins(g, m, chains, slot, hands[slot], held[slot], d.open[slot], d.files, history);
  }

  /** One handle changed with its chain, the others where they were. */
  lemma HandsWith(g: Shape, m: Medium, chains: seq<seq<nat>>, hands: map<nat, Handle>, held: map<nat, seq<nat>>, open: map<nat, View>,
                  slot: nat, h: Handle, cs: seq<nat>, view: View)
    requires hands.Keys == held.Keys == open.Keys && Hand(g, m, chains, slot, h, cs, view)
    requires forall k {:trigger hands[k]} :: k in hands && k != slot ==> Hand(g, m, chains, k, hands[k], held[k], open[k])
    requires forall k {:trigger held[k]} :: k in held && k != slot ==> Apart(cs, held[k])
    requires forall j, k {:trigger Apart(held[j], held[k])} :: j in held && k in held && j != k && j != slot && k != slot ==> Apart(held[j], held[k])
    ensures AllHands(g, m, chains, hands[slot := h], held[slot := cs], open[slot := view])
  {
    var held1 := held[slot := cs];
    forall j, k | j in held1 && k in held1 && j != k
      ensures Apart(held1[j], held1[k])
    {
      if j == slot { assert Apart(cs, held[k]); } else if k == slot { assert Apart(cs, held[j]); } else { assert Apart(held[j], held[k]); }
    }
  }

  /** What a write leaves of a handle it did not go through. */
  lemma PutOther(g: Shape, s: Start, chains: seq<seq<nat>>, slot: nat, own: seq<nat>, m: Medium, longer: seq<seq<nat>>, c1: seq<seq<nat>>,
                 k: nat, h: Handle, cs: seq<nat>, view: View)
    requires Hand(g, s.m, chains, k, h, cs, view) && k != slot && slot < |chains| && Apart(own, cs) && DataFits(g, s.m.data)
    requires s.chains == Through(chains, slot, own) && SparedBy(s.m, s.chains, m, longer, slot)
    requires |c1| == |longer| && c1[slot] <= longer[slot] && c1 == longer[slot := c1[slot]]
    ensures Hand(g, m, c1, k, h, cs, view) && Apart(c1[slot], cs)
  {
    SparedSlot(s.m, s.chains, m, longer, m, c1, slot);
    HandThrough(g, s.m, chains, slot, own, k, h, cs, view);
    OthersStand(g, s.m, s.chains, m, c1, slot, k, h, cs, view);
  }

  lemma PutBeside(g: Shape, s: Start, chains: seq<seq<nat>>, slot: nat, own: seq<nat>, m: Medium, longer: seq<seq<nat>>,
                  k: nat, h: Handle, cs: seq<nat>, view: View)
    requires Hand(g, s.m, chains, k, h, cs, view) && k != slot && slot < |chains| && Apart(own, cs) && DataFits(g, s.m.data)
    requires s.chains == Through(chains, slot, own) && SparedBy(s.m, s.chains, m, longer, slot) && m.dir[slot].Used?
    ensures Hand(g, m, Recorded(m.dir, slot, longer), k, h, cs, view) && Apart(longer[slot], cs)
  {
    PutOther(g, s, chains, slot, own, m, longer, longer, k, h, cs, view);
    PutOther(g, s, chains, slot, own, m, longer, Recorded(m.dir, slot, longer), k, h, cs, view);
  }

  lemma PutHands(g: Shape, s: Start, chains: seq<seq<nat>>, hands: map<nat, Handle>, held: map<nat, seq<nat>>, open: map<nat, View>,
                 m: Medium, h: Handle, longer: seq<seq<nat>>, slot: nat)
    requires AllHands(g, s.m, chains, hands, held, open) && slot in hands && slot < |chains| && DataFits(g, s.m.data)
    requires s.chains == Through(chains, slot, held[slot]) && SparedBy(s.m, s.chains, m, longer, slot)
    requires Ready(g, m, m.fat, slot, h.first, h.size, longer) && (m.dir[slot].first == 0 ==> m.dir[slot].size == 0)
    requires h.walkedCluster != 0 ==> h.walked < |longer[slot]| && longer[slot][h.walked] == h.walkedCluster
    ensures AllHands(g, m, Recorded(m.dir, slot, longer), hands[slot := h], held[slot := longer[slot]],
                     open[slot := View(Visible(m.data, longer, slot, h.size), h.dirty)])
  {
    HandHere(g, m, h, longer, slot);
    forall k | k in hands && k != slot
      ensures Hand(g, m, Recorded(m.dir, slot, longer), k, hands[k], held[k], open[k]) && Apart(longer[slot], held[k])
    {
      assert Apart(held[slot], held[k]);
      PutBeside(g, s, chains, slot, held[slot], m, longer, k, hands[k], held[k], open[k]);
    }
    HandsWith(g, m, Recorded(m.dir, slot, longer), hands, held, open, slot, h, longer[slot],
              View(Visible(m.data, longer, slot, h.size), h.dirty));
  }

  lemma HandHere(g: Shape, m: Medium, h: Handle, longer: seq<seq<nat>>, slot: nat)
    requires Ready(g, m, m.fat, slot, h.first, h.size, longer) && (m.dir[slot].first == 0 ==> m.dir[slot].size == 0)
    requires h.walkedCluster != 0 ==> h.walked < |longer[slot]| && longer[slot][h.walked] == h.walkedCluster
    ensures Hand(g, m, Recorded(m.dir, slot, longer), slot, h, longer[slot], View(Visible(m.data, longer, slot, h.size), h.dirty))
  {
    var after := Committed(m.dir, slot, h.first, h.size);
    assert SlotSound(g, m.fat, after[slot], longer[slot]);
    forall k | 0 <= k < |longer| && k != slot
      ensures Apart(longer[k], longer[slot])
    {
    }
  }

  lemma WroteSpared(v: Volume, e: Entry, s: Start, longer: seq<seq<nat>>, offset: nat, bytes: seq<byte>, ok: bool)
    requires WroteAt(v, e, s, longer, offset, bytes, ok) && Began(v.shape, s, e.slot) && s.m.fat == s.table && v.table == v.m.fat
    ensures SparedBy(s.m, s.chains, Told(v, e), longer, e.slot)
  {
    ChainOf(v.shape, v.table, Committed(e.told, e.slot, e.first, e.size), longer, e.slot);
  }

  /** The desk after a write through the handle at `slot`. */
  ghost function DeskAfter(d: Desk, m: Medium, longer: seq<seq<nat>>, slot: nat, h: Handle): Desk
    requires slot < |m.dir| == |longer| == |d.files| && m.dir[slot].Used?
  {
    Desk(d.files[slot := FileOf(m.dir[slot], m.data, Recorded(m.dir, slot, longer)[slot])],
         d.open[slot := View(Visible(m.data, longer, slot, h.size), h.dirty)])
  }

  lemma PutLeavesBe(m0: Medium, chains: seq<seq<nat>>, held: map<nat, seq<nat>>, m: Medium, longer: seq<seq<nat>>, slot: nat)
    requires slot in held && slot < |chains| && SparedBy(m0, Through(chains, slot, held[slot]), m, longer, slot)
    requires slot < |m.dir| && m.dir[slot].Used?
    ensures LeavesBe(m0, chains, held, m, Recorded(m.dir, slot, longer), held[slot := longer[slot]])
  {
    SparedSlot(m0, Through(chains, slot, held[slot]), m, longer, m, longer, slot);
    LeavesByHandle(m0, chains, held, m, longer, Recorded(m.dir, slot, longer), held[slot := longer[slot]], slot);
  }

  lemma PutLeaves(v: Volume, e: Entry, s: Start, hands: map<nat, Handle>, d: Desk, chains: seq<seq<nat>>, held: map<nat, seq<nat>>,
                  h: Handle, longer: seq<seq<nat>>, offset: nat, bytes: seq<byte>, ok: bool)
    requires Going(v.shape, s, hands, d, chains, held, e.slot)
    requires WroteAt(v, e, s, longer, offset, bytes, ok) && !v.dirty && v.table == v.m.fat
    requires h == Handle(e.first, e.size, e.walked, e.walkedCluster, hands[e.slot].dirty || ok)
    ensures |longer| == |e.told| == |d.files| && e.told[e.slot].Used?
    ensures DeskedAs(v, e.told, hands[e.slot := h], DeskAfter(d, Told(v, e), longer, e.slot, h), Recorded(e.told, e.slot, longer), held[e.slot := longer[e.slot]])
    ensures PutDone(d, DeskAfter(d, Told(v, e), longer, e.slot, h), e.slot, offset, bytes, ok)
    ensures HeldGrew(s.m.fat, v.m.fat, held, held[e.slot := longer[e.slot]], e.slot)
    ensures LeavesBe(s.m, chains, held, Told(v, e), Recorded(e.told, e.slot, longer), held[e.slot := longer[e.slot]])
  {
    WroteSpared(v, e, s, longer, offset, bytes, ok);
    PutLeavesBe(s.m, chains, held, Told(v, e), longer, e.slot);
    PutRecords(v.shape, s, Told(v, e), e.first, e.size, longer, e.slot, offset, bytes, ok);
    PutHands(v.shape, s, chains, hands, held, d.open, Told(v, e), h, longer, e.slot);
  }

  /** The entry of an open handle, as its last call left it. */
  method Resume(v: Volume, hands: map<nat, Handle>, slot: nat, ghost d: Desk, ghost chains: seq<seq<nat>>, ghost held: map<nat, seq<nat>>)
    returns (e: Entry, ghost s: Start)
    requires Desked(v, hands, d, chains, held) && slot in hands
    ensures fresh(e) && e.slot == slot && e.told == v.m.dir && Starting(v, e, s)
    ensures s.m == v.m && s.past == v.history && s.history == Retold(v.history, v.m.dir) && s.dir == v.m.dir
    ensures s.table == s.m.fat == s.m.copy && hands[slot] == Handle(e.first, e.size, e.walked, e.walkedCluster, hands[slot].dirty)
    ensures Going(v.shape, s, hands, d, chains, held, slot)
  {
    var h := hands[slot];
    HandGoing(v.shape, v.m, hands, d, chains, held, slot, v.history);
    s := StartOf(v.m, h, v.history, chains, slot, held[slot], d.files);
    e := new Entry(slot, h.first, h.size, h.walked, h.walkedCluster, v.m.dir);
    ResumedStarts(v, e, s, chains, held[slot], d.files);
  }

  lemma ResumedStarts(v: Volume, e: Entry, s: Start, chains: seq<seq<nat>>, cs: seq<nat>, files: seq<File>)
    requires v.Valid() && e.slot < |chains| && v.table == v.m.fat && Began(v.shape, s, e.slot)
    requires s == StartOf(Told(v, e), Handle(e.first, e.size, e.walked, e.walkedCluster, false), v.history, chains, e.slot, cs, files).(dir := v.m.dir)
    requires e.walkedCluster != 0 ==> e.walked < |cs| && cs[e.walked] == e.walkedCluster
    ensures Starting(v, e, s)
  {
  }

  method PutThrough(v: Volume, e: Entry, offset: nat, bytes: seq<byte>, hands: map<nat, Handle>,
                    ghost d: Desk, ghost chains: seq<seq<nat>>, ghost held: map<nat, seq<nat>>, ghost s: Start)
    returns (ok: bool, now: map<nat, Handle>, ghost d1: Desk, ghost c1: seq<seq<nat>>, ghost held1: map<nat, seq<nat>>)
    requires Starting(v, e, s) && Going(v.shape, s, hands, d, chains, held, e.slot)
    modifies v`m, v`dirty, v`history, v`cache, v`cacheSector, v`table, v`hint, e
    ensures DeskedAs(v, e.told, now, d1, c1, held1) && PutDone(d, d1, e.slot, offset, bytes, ok) && HeldGrew(s.m.fat, v.m.fat, held, held1, e.slot)
    ensures LeavesBe(s.m, chains, held, Told(v, e), c1, held1)
    ensures AllTorn(v.shape, s.history, Tale(v, e), d.files, e.slot, offset, bytes) && RecordsKept(v, s)
    ensures e.slot in now && now == hands[e.slot := now[e.slot]]
    ensures now[e.slot] == Handle(e.first, e.size, e.walked, e.walkedCluster, hands[e.slot].dirty || ok)
    ensures bytes == [] ==> ok
    ensures bytes != [] && offset + |bytes| > MAX_FILE_BYTES ==> !ok
    ensures !old(v.dirty) && (bytes == [] || offset + |bytes| > MAX_FILE_BYTES) ==>
      NothingMoved(v, e) && StandsAfter(s, hands, d, chains, held, e.slot, now[e.slot], d1, c1, held1)
    ensures !ok ==> offset + |bytes| > MAX_FILE_BYTES || FullAt(v.shape, v.m.fat, held1, e.slot, offset + |bytes|)
  {
    ghost var longer;
    ok, longer := WriteAt(v, e, offset, bytes, s);
    var h := Handle(e.first, e.size, e.walked, e.walkedCluster, hands[e.slot].dirty || ok);
    PutLeaves(v, e, s, hands, d, chains, held, h, longer, offset, bytes, ok);
    now, held1 := hands[e.slot := h], held[e.slot := longer[e.slot]];
    c1, d1 := Recorded(e.told, e.slot, longer), DeskAfter(d, Told(v, e), longer, e.slot, h);
    if longer == s.chains && Told(v, e) == s.m { DeskStands(v.shape, s, hands, d, chains, held, e.slot, h); }
  }

  /** Nothing was written: the desk is as it was, once the handle's own fields are. */
  ghost predicate StandsAfter(s: Start, hands: map<nat, Handle>, d: Desk, chains: seq<seq<nat>>, held: map<nat, seq<nat>>, slot: nat, h: Handle,
                              d1: Desk, c1: seq<seq<nat>>, held1: map<nat, seq<nat>>) {
    true == (
      slot in hands && slot in d.open && d.open[slot].dirty == hands[slot].dirty && (h == hands[slot].(dirty := h.dirty) ==>
        c1 == chains && held1 == held && d1 == d.(open := d.open[slot := d.open[slot].(dirty := h.dirty)])))
  }

  lemma StandsSame(s: Start, hands: map<nat, Handle>, d: Desk, chains: seq<seq<nat>>, held: map<nat, seq<nat>>, slot: nat, dirty: bool,
                   now: map<nat, Handle>, d1: Desk, c1: seq<seq<nat>>, held1: map<nat, seq<nat>>)
    requires slot in hands && slot in now && now == hands[slot := now[slot]] && now[slot] == hands[slot].(dirty := hands[slot].dirty || dirty)
    requires StandsAfter(s, hands, d, chains, held, slot, now[slot], d1, c1, held1)
    ensures Stands(hands, d, chains, held, slot, dirty, now, d1, c1, held1)
  {
    assert d.open[slot := d.open[slot]] == d.open;
  }

  lemma DeskStands(g: Shape, s: Start, hands: map<nat, Handle>, d: Desk, chains: seq<seq<nat>>, held: map<nat, seq<nat>>, slot: nat, h: Handle)
    requires Going(g, s, hands, d, chains, held, slot) && |d.files| == |s.m.dir|
    ensures slot < |s.m.dir| == |s.chains| && s.m.dir[slot].Used?
    ensures StandsAfter(s, hands, d, chains, held, slot, h,
                        DeskAfter(d, s.m, s.chains, slot, h), Recorded(s.m.dir, slot, s.chains), held[slot := s.chains[slot]])
  {
    DeskTold(g, s, hands, d, chains, held, slot);
    DeskSame(s, hands, d, chains, held, slot, h);
  }

  lemma DeskSame(s: Start, hands: map<nat, Handle>, d: Desk, chains: seq<seq<nat>>, held: map<nat, seq<nat>>, slot: nat, h: Handle)
    requires slot in hands && slot in held && slot in d.open && slot < |chains| && |d.files| == |s.m.dir| == |s.chains| && slot < |d.files|
    requires s.m.dir[slot].Used? && s.chains == Through(chains, slot, held[slot])
    requires chains[slot] == (if s.m.dir[slot].first == 0 then [] else held[slot])
    requires s.m.dir[slot].first == 0 ==> s.m.dir[slot].size == 0
    requires FileOf(s.m.dir[slot], s.m.data, held[slot]) == d.files[slot] && d.open[slot].dirty == hands[slot].dirty
    requires d.open[slot].contents == Visible(s.m.data, s.chains, slot, hands[slot].size)
    ensures StandsAfter(s, hands, d, chains, held, slot, h,
                        DeskAfter(d, s.m, s.chains, slot, h), Recorded(s.m.dir, slot, s.chains), held[slot := s.chains[slot]])
  {
    RecordedSame(s.m.dir, chains, slot, held[slot]);
    FileSame(s.m.dir[slot], s.m.data, chains[slot], held[slot], d.files, slot);
    assert held[slot := held[slot]] == held;
  }

  /** What of a write about to begin says that the desk is the handle's. */
  lemma DeskTold(g: Shape, s: Start, hands: map<nat, Handle>, d: Desk, chains: seq<seq<nat>>, held: map<nat, seq<nat>>, slot: nat)
    requires Going(g, s, hands, d, chains, held, slot)
    ensures slot in hands && slot in held && slot in d.open && slot < |chains| && slot < |s.m.dir| == |s.chains| && slot < |d.files|
    ensures s.m.dir[slot].Used? && s.chains == Through(chains, slot, held[slot])
    ensures chains[slot] == (if s.m.dir[slot].first == 0 then [] else held[slot])
    ensures s.m.dir[slot].first == 0 ==> s.m.dir[slot].size == 0
    ensures FileOf(s.m.dir[slot], s.m.data, held[slot]) == d.files[slot]
    ensures d.open[slot].contents == Visible(s.m.data, s.chains, slot, hands[slot].size)
    ensures d.open[slot].dirty == hands[slot].dirty
  {
    assert Hand(g, s.m, chains, slot, hands[slot], held[slot], d.open[slot]);
    assert FileOf(s.m.dir[slot], s.m.data, s.chains[slot]) == d.files[slot];
  }

  lemma RecordedSame(dir: seq<Slot>, chains: seq<seq<nat>>, slot: nat, cs: seq<nat>)
    requires slot < |chains| && slot < |dir| && dir[slot].Used? && chains[slot] == if dir[slot].first == 0 then [] else cs
    ensures Recorded(dir, slot, Through(chains, slot, cs)) == chains && Through(chains, slot, cs)[slot] == cs
  {
  }

  /** A record that shows nothing shows it of any chain. */
  lemma FileSame(s: Slot, data: Clusters, own: seq<nat>, cs: seq<nat>, files: seq<File>, slot: nat)
    requires s.Used? && (own == cs || s.size == 0) && slot < |files| && FileOf(s, data, cs) == files[slot]
    ensures files[slot := FileOf(s, data, own)] == files
  {
  }

  /** The volume is full, and what the handle holds does not reach to `end`. */
  ghost predicate FullAt(g: Shape, f: Table, held: map<nat, seq<nat>>, slot: nat, end: nat) {
    NoneFree(g, f) && slot in held && g.clusterSize * |held[slot]| < end
  }

  /** Nothing but that the handle at `slot` may have become dirty. */
  ghost predicate Stands(hands: map<nat, Handle>, d: Desk, chains: seq<seq<nat>>, held: map<nat, seq<nat>>, slot: nat, dirty: bool,
                         now: map<nat, Handle>, d1: Desk, c1: seq<seq<nat>>, held1: map<nat, seq<nat>>) {
    true == (
      && slot in hands && slot in d.open && c1 == chains && held1 == held
      && now == hands[slot := hands[slot].(dirty := hands[slot].dirty || dirty)]
      && d1 == if dirty then d.(open := d.open[slot := d.open[slot].(dirty := true)]) else d)
  }

  /** Bytes written through one of the open handles. */
  method WriteFile(v: Volume, hands: map<nat, Handle>, slot: nat, offset: nat, bytes: seq<byte>,
                   ghost d: Desk, ghost chains: seq<seq<nat>>, ghost held: map<nat, seq<nat>>)
    returns (ok: bool, now: map<nat, Handle>, ghost d1: Desk, ghost c1: seq<seq<nat>>, ghost held1: map<nat, seq<nat>>)
    requires Desked(v, hands, d, chains, held) && slot in hands
    modifies v`m, v`dirty, v`history, v`cache, v`cacheSector, v`table, v`hint
    ensures Desked(v, now, d1, c1, held1) && PutDone(d, d1, slot, offset, bytes, ok) && HeldGrew(old(v.m.fat), v.m.fat, held, held1, slot)
    ensures LeavesBe(old(v.m), chains, held, v.m, c1, held1)
    ensures AllTorn(v.shape, old(v.history), v.history, d.files, slot, offset, bytes) && v.m.dir == old(v.m.dir)
    ensures bytes == [] ==> ok
    ensures bytes != [] && offset + |bytes| > MAX_FILE_BYTES ==> !ok
    ensures bytes == [] || offset + |bytes| > MAX_FILE_BYTES ==>
      v.m == old(v.m) && v.history == old(v.history) && Stands(hands, d, chains, held, slot, ok, now, d1, c1, held1)
    ensures !ok ==> offset + |bytes| > MAX_FILE_BYTES || FullAt(v.shape, v.m.fat, held1, slot, offset + |bytes|)
  {
    var e;
    ghost var s;
    e, s := Resume(v, hands, slot, d, chains, held);
    ok, now, d1, c1, held1 := PutThrough(v, e, offset, bytes, hands, d, chains, held, s);
    if bytes == [] || offset + |bytes| > MAX_FILE_BYTES { StandsSame(s, hands, d, chains, held, slot, ok, now, d1, c1, held1); }
    ToldTruly(v, e);
    DeskedTruly(v, now, d1, c1, held1);
    TornTruly(v.shape, s.past, v.history, v.m.dir, d.files, slot, offset, bytes);
  }

  // ------------------------------------------------------------------
  // Opening and closing
  // ------------------------------------------------------------------

  /** A handle as opening makes it: what the record says, and nothing written. */
  function Opening(s: Slot): Handle
    requires s.Used?
  {
    Handle(s.first, s.size, 0, 0, false)
  }

  /** The desk with one more file open. */
  function Opens(d: Desk, slot: nat): Desk
    requires slot < |d.files| && d.files[slot].File?
  {
    d.(open := d.open[slot := View(d.files[slot].contents, false)])
  }

  lemma OpeningHand(g: Shape, m: Medium, chains: seq<seq<nat>>, files: seq<File>, slot: nat)
    requires Holds(g, m.fat, m.dir, m.data, files, chains) && DataFits(g, m.data) && slot < |m.dir| && m.dir[slot].Used?
    ensures files[slot].File? && Hand(g, m, chains, slot, Opening(m.dir[slot]), chains[slot], View(files[slot].contents, false))
  {
    assert SlotSound(g, m.fat, m.dir[slot], chains[slot]) && FileOf(m.dir[slot], m.data, chains[slot]) == files[slot];
    forall k | 0 <= k < |chains| && k != slot
      ensures Apart(chains[k], chains[slot])
    {
    }
  }

  /** A file opened that nobody else has open. */
  method OpenFile(v: Volume, hands: map<nat, Handle>, slot: nat, ghost d: Desk, ghost chains: seq<seq<nat>>, ghost held: map<nat, seq<nat>>)
    returns (now: map<nat, Handle>, ghost held1: map<nat, seq<nat>>)
    requires Desked(v, hands, d, chains, held) && slot < |v.m.dir| && v.m.dir[slot].Used? && slot !in hands
    ensures slot < |d.files| && d.files[slot].File? && Desked(v, now, Opens(d, slot), chains, held1)
    ensures LeavesBe(v.m, chains, held, v.m, chains, held1)
    ensures slot < |chains| && held1 == held[slot := chains[slot]] && now == hands[slot := Opening(v.m.dir[slot])]
  {
    now := hands[slot := Opening(v.m.dir[slot])];
    ghost var cs := chains[slot];
    held1 := held[slot := cs];
    OpeningHand(v.shape, v.m, chains, d.files, slot);
    forall k | k in hands
      ensures Hand(v.shape, v.m, chains, k, hands[k], held[k], d.open[k]) && Apart(cs, held[k])
    {
      assert Hand(v.shape, v.m, chains, k, hands[k], held[k], d.open[k]);
    }
    HandsWith(v.shape, v.m, chains, hands, held, d.open, slot, now[slot], cs, View(d.files[slot].contents, false));
    LeavesAll(v.m, chains, held, v.m, chains, held1);
  }

  /** The desk with a file closed: what its handle read is what its record shows, if it has written. */
  function Closes(d: Desk, slot: nat): Desk
    requires slot in d.open && slot < |d.files| && d.files[slot].File?
  {
    Desk(if d.open[slot].dirty then d.files[slot := File(d.files[slot].name, d.open[slot].contents)] else d.files, d.open - {slot})
  }

  /** The other handles, when one is let go. */
  lemma HandsWithout(g: Shape, m: Medium, chains: seq<seq<nat>>, hands: map<nat, Handle>, held: map<nat, seq<nat>>, open: map<nat, View>, slot: nat)
    requires AllHands(g, m, chains, hands, held, open)
    ensures AllHands(g, m, chains, hands - {slot}, held - {slot}, open - {slot})
  {
    forall j, k | j in held - {slot} && k in held - {slot} && j != k
      ensures Apart((held - {slot})[j], (held - {slot})[k])
    {
      assert Apart(held[j], held[k]);
    }
  }

  /** A record that comes to say what its handle does. */
  lemma CommitStands(g: Shape, m: Medium, chains: seq<seq<nat>>, files: seq<File>, hands: map<nat, Handle>, held: map<nat, seq<nat>>,
                     open: map<nat, View>, slot: nat, m1: Medium)
    requires AllHands(g, m, chains, hands, held, open) && slot in hands && DataFits(g, m.data)
    requires Holds(g, m.fat, m.dir, m.data, files, chains)
    requires slot < |m.dir| && m.dir[slot].Used? && m1 == m.(dir := Committed(m.dir, slot, hands[slot].first, hands[slot].size))
    ensures files[slot].File? && slot < |chains|
    ensures Holds(g, m1.fat, m1.dir, m1.data, files[slot := File(files[slot].name, open[slot].contents)], chains[slot := held[slot]])
    ensures AllHands(g, m1, chains[slot := held[slot]], hands - {slot}, held - {slot}, open - {slot})
    ensures LeavesBe(m, chains, held, m1, chains[slot := held[slot]], held - {slot})
  {
    var cs := held[slot];
    LeavesAll(m, chains, held, m1, chains[slot := cs], held - {slot});
    assert Hand(g, m, chains, slot, hands[slot], cs, open[slot]);
    RecordCommitted(g, m, chains, files, slot, hands[slot], cs, open[slot]);
    CommitOthers(g, m, chains, hands, held, open, slot, m1);
  }

  lemma RecordCommitted(g: Shape, m: Medium, chains: seq<seq<nat>>, files: seq<File>, slot: nat, h: Handle, cs: seq<nat>, view: View)
    requires Hand(g, m, chains, slot, h, cs, view) && Holds(g, m.fat, m.dir, m.data, files, chains)
    ensures files[slot].File?
    ensures Holds(g, m.fat, Committed(m.dir, slot, h.first, h.size), m.data, files[slot := File(files[slot].name, view.contents)], chains[slot := cs])
  {
    assert FileOf(m.dir[slot], m.data, chains[slot]) == files[slot];
    HoldsWith(g, m.fat, m.dir, m.data, files, chains, slot, m.dir[slot].(first := h.first, size := h.size), cs);
  }

  lemma CommitOthers(g: Shape, m: Medium, chains: seq<seq<nat>>, hands: map<nat, Handle>, held: map<nat, seq<nat>>, open: map<nat, View>,
                     slot: nat, m1: Medium)
    requires AllHands(g, m, chains, hands, held, open) && slot in hands && DataFits(g, m.data) && slot < |chains| == |m.dir|
    requires |m1.dir| == |m.dir| && m1 == m.(dir := m.dir[slot := m1.dir[slot]])
    ensures AllHands(g, m1, chains[slot := held[slot]], hands - {slot}, held - {slot}, open - {slot})
  {
    var cs := held[slot];
    HandsWithout(g, m, chains, hands, held, open, slot);
    forall k | k in hands && k != slot
      ensures Hand(g, m1, chains[slot := cs], k, hands[k], held[k], open[k])
    {
      HandsThrough(g, m, chains, hands, held, open, slot, k);
      HandAside(g, m, Through(chains, slot, cs), m1, Through(chains, slot, cs), [], k, hands[k], held[k], open[k]);
    }
  }

  /** What a handle says, written over the record at its place, whatever that is by then. */
  method WriteRecord(v: Volume, slot: nat, h: Handle)
    requires v.Valid() && slot < |v.m.dir|
    modifies v`m, v`history
    ensures v.Valid() && v.history == old(v.history) + [v.m]
    ensures v.m == old(v.m).(dir := if old(v.m.dir)[slot].Used? then Committed(old(v.m.dir), slot, h.first, h.size) else old(v.m.dir))
  {
    PutRecord(v, slot, if v.m.dir[slot].Used? then v.m.dir[slot].(first := h.first, size := h.size) else Vacant);
    assert v.m.dir[slot].Vacant? ==> v.m.dir == old(v.m.dir);
  }

  lemma WholeOne(g: Shape, h: seq<Medium>, m: Medium, files: seq<File>, chains: seq<seq<nat>>)
    requires Holds(g, m.fat, m.dir, m.data, files, chains)
    ensures AllWhole(g, h, h + [m], files)
  {
    assert Whole(g, m, files);
  }

  /** The record says what its handle did. */
  predicate Committing(m: Medium, slot: nat, h: Handle, dir: seq<Slot>) {
    slot < |m.dir| && m.dir[slot].Used? && dir == Committed(m.dir, slot, h.first, h.size)
  }

  /** A handle's record, written to say what the handle does. */
  method CommitHandle(v: Volume, hands: map<nat, Handle>, slot: nat, ghost d: Desk, ghost chains: seq<seq<nat>>, ghost held: map<nat, seq<nat>>)
    returns (ghost c1: seq<seq<nat>>)
    requires Desked(v, hands, d, chains, held) && slot in hands && hands[slot].dirty
    modifies v`m, v`history
    ensures slot in d.open && slot < |d.files| && d.files[slot].File? && Desked(v, hands - {slot}, Closes(d, slot), c1, held - {slot})
    ensures AllWhole(v.shape, old(v.history), v.history, Closes(d, slot).files)
    ensures LeavesBe(old(v.m), chains, held, v.m, c1, held - {slot}) && v.m == old(v.m).(dir := v.m.dir)
    ensures Committing(old(v.m), slot, hands[slot], v.m.dir)
  {
    DirtyHand(v, hands, slot, d, chains, held);
    c1 := chains[slot := held[slot]];
    CommitStands(v.shape, v.m, chains, d.files, hands, held, d.open, slot,
                 v.m.(dir := Committed(v.m.dir, slot, hands[slot].first, hands[slot].size)));
    PutWhole(v, slot, v.m.dir[slot].(first := hands[slot].first, size := hands[slot].size), chains, d.files, c1, Closes(d, slot).files);
  }

  /** A handle that has not written lets go of nothing a record shows. */
  lemma LetGo(v: Volume, hands: map<nat, Handle>, slot: nat, d: Desk, chains: seq<seq<nat>>, held: map<nat, seq<nat>>)
    requires Desked(v, hands, d, chains, held) && slot in hands && !hands[slot].dirty
    ensures slot in d.open && slot < |d.files| && d.files[slot].File?
    ensures Desked(v, hands - {slot}, Closes(d, slot), chains, held - {slot})
    ensures LeavesBe(v.m, chains, held, v.m, chains, held - {slot})
  {
    LeavesAll(v.m, chains, held, v.m, chains, held - {slot});
    assert Hand(v.shape, v.m, chains, slot, hands[slot], held[slot], d.open[slot]);
    assert FileOf(v.m.dir[slot], v.m.data, chains[slot]) == d.files[slot];
    HandsWithout(v.shape, v.m, chains, hands, held, d.open, slot);
  }

  /** A file closed; if it has been written, its record first comes to say so. */
  method CloseFile(v: Volume, hands: map<nat, Handle>, slot: nat, ghost d: Desk, ghost chains: seq<seq<nat>>, ghost held: map<nat, seq<nat>>)
    returns (now: map<nat, Handle>, ghost c1: seq<seq<nat>>, ghost held1: map<nat, seq<nat>>)
    requires Desked(v, hands, d, chains, held) && slot in hands
    modifies v`m, v`history
    ensures slot in d.open && slot < |d.files| && d.files[slot].File? && Desked(v, now, Closes(d, slot), c1, held1)
    ensures AllWhole(v.shape, old(v.history), v.history, Closes(d, slot).files)
    ensures LeavesBe(old(v.m), chains, held, v.m, c1, held1) && v.m == old(v.m).(dir := v.m.dir)
    ensures if hands[slot].dirty then Committing(old(v.m), slot, hands[slot], v.m.dir) else v.m.dir == old(v.m.dir)
  {
    now, held1, c1 := hands - {slot}, held - {slot}, chains;
    if hands[slot].dirty {
      c1 := CommitHandle(v, hands, slot, d, chains, held);
    } else {
      LetGo(v, hands, slot, d, chains, held);
    }
  }

  lemma DirtyHand(v: Volume, hands: map<nat, Handle>, slot: nat, d: Desk, chains: seq<seq<nat>>, held: map<nat, seq<nat>>)
    requires Desked(v, hands, d, chains, held) && slot in hands && hands[slot].dirty
    ensures slot < |v.m.dir| && v.m.dir[slot].Used? && slot in d.open && d.open[slot].dirty
  {
    assert Hand(v.shape, v.m, chains, slot, hands[slot], held[slot], d.open[slot]);
  }

  // ------------------------------------------------------------------
  // Calls that touch no open file
  // ------------------------------------------------------------------

  lemma HandsAside(g: Shape, m0: Medium, c0: seq<seq<nat>>, m1: Medium, c1: seq<seq<nat>>, changed: nat,
                   hands: map<nat, Handle>, held: map<nat, seq<nat>>, open: map<nat, View>)
    requires AllHands(g, m0, c0, hands, held, open) && DataFits(g, m0.data) && OnlySlot(m0, c0, m1, c1, changed) && changed !in hands
    ensures AllHands(g, m1, c1, hands, held, open)
  {
    forall k | k in hands
      ensures Hand(g, m1, c1, k, hands[k], held[k], open[k])
    {
      OthersStand(g, m0, c0, m1, c1, changed, k, hands[k], held[k], open[k]);
    }
  }

  lemma HandsMoved(g: Shape, m0: Medium, c0: seq<seq<nat>>, m1: Medium, c1: seq<seq<nat>>, src: nat, dst: nat,
                   hands: map<nat, Handle>, held: map<nat, seq<nat>>, open: map<nat, View>)
    requires AllHands(g, m0, c0, hands, held, open) && DataFits(g, m0.data) && MovedOnly(m0, c0, m1, c1, src, dst)
    requires src !in hands && dst !in hands
    ensures AllHands(g, m1, c1, hands, held, open)
  {
    forall k | k in hands
      ensures Hand(g, m1, c1, k, hands[k], held[k], open[k])
    {
      MovedStands(g, m0, c0, m1, c1, src, dst, k, hands[k], held[k], open[k]);
    }
  }

  lemma MovedStands(g: Shape, m0: Medium, c0: seq<seq<nat>>, m1: Medium, c1: seq<seq<nat>>, src: nat, dst: nat,
                    slot: nat, h: Handle, cs: seq<nat>, view: View)
    requires Hand(g, m0, c0, slot, h, cs, view) && DataFits(g, m0.data) && MovedOnly(m0, c0, m1, c1, src, dst)
    requires slot != src && slot != dst
    ensures Hand(g, m1, c1, slot, h, cs, view)
  {
    assert Apart(c0[src], cs) && Apart(c0[dst], cs);
    HandAside(g, m0, c0, m1, c1, c0[dst], slot, h, cs, view);
  }
}
