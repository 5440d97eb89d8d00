/**
 An open file made exactly some size, through its handle and record and all:
 whatever the handle has written and not yet committed is committed with it.
 */
module FatTruncate {
  import opened ByteFields
  import opened FatVolume
  import opened FatTable
  import opened FatChains
  import opened FatWrite
  import opened FatStore
  import opened FatFiles
  import opened FatResize
  import opened FatHandles

  /** The desk with a file resized: its record and its handle both have these contents. */
  ghost function Resized(d: Desk, slot: nat, contents: seq<byte>): Desk
    requires slot in d.open && slot < |d.files| && d.files[slot].File?
  {
    Desk(d.files[slot := File(d.files[slot].name, contents)], d.open[slot := View(contents, d.open[slot].dirty)])
  }

  /** The handles of the others, while one file's chain and record change. */
  lemma HandsBeside(g: Shape, m0: Medium, chains: seq<seq<nat>>, hands: map<nat, Handle>, held: map<nat, seq<nat>>, open: map<nat, View>,
                    slot: nat, m1: Medium, c1: seq<seq<nat>>)
    requires AllHands(g, m0, chains, hands, held, open) && slot in hands && slot < |chains| && DataFits(g, m0.data)
    requires OnlySlot(m0, Through(chains, slot, held[slot]), m1, c1, slot)
    ensures AllHands(g, m1, c1, hands - {slot}, held - {slot}, open - {slot})
    ensures forall k {:trigger held[k]} :: k in held && k != slot ==> Apart(c1[slot], held[k])
  {
    forall k | k in hands && k != slot
      ensures Hand(g, m1, c1, k, hands[k], held[k], open[k]) && Apart(c1[slot], held[k])
    {
      HandsThrough(g, m0, chains, hands, held, open, slot, k);
      OthersStand(g, m0, Through(chains, slot, held[slot]), m1, c1, slot, k, hands[k], held[k], open[k]);
    }
    HandsWithout(g, m0, chains, hands, held, open, slot);
  }

  /** A handle that says what its record does, beside the others. */
  lemma HandBack(g: Shape, m: Medium, chains: seq<seq<nat>>, files: seq<File>, hands: map<nat, Handle>, held: map<nat, seq<nat>>,
                 open: map<nat, View>, slot: nat, h: Handle)
    requires AllHands(g, m, chains, hands - {slot}, held - {slot}, open - {slot}) && hands.Keys == held.Keys == open.Keys && slot in hands
    requires Holds(g, m.fat, m.dir, m.data, files, chains) && slot < |m.dir| && m.dir[slot].Used?
    requires h.first == m.dir[slot].first && h.size == m.dir[slot].size
    requires h.walkedCluster != 0 ==> h.walked < |chains[slot]| && chains[slot][h.walked] == h.walkedCluster
    requires forall k {:trigger held[k]} :: k in held && k != slot ==> Apart(chains[slot], held[k])
    ensures files[slot].File?
    ensures AllHands(g, m, chains, hands[slot := h], held[slot := chains[slot]], open[slot := View(files[slot].contents, h.dirty)])
  {
    var view := View(files[slot].contents, h.dirty);
    assert SlotSound(g, m.fat, m.dir[slot], chains[slot]) && FileOf(m.dir[slot], m.data, chains[slot]) == files[slot];
    forall k | 0 <= k < |chains| && k != slot
      ensures Apart(chains[k], chains[slot])
    {
    }
    assert Hand(g, m, chains, slot, h, chains[slot], view);
    var hands0, held0, open0 := hands - {slot}, held - {slot}, open - {slot};
    OneBack(g, m, chains, hands0, held0, open0, slot, h, chains[slot], view);
    assert hands0[slot := h] == hands[slot := h] && held0[slot := chains[slot]] == held[slot := chains[slot]];
    assert open0[slot := view] == open[slot := view];
  }

  lemma OneBack(g: Shape, m: Medium, chains: seq<seq<nat>>, hands: map<nat, Handle>, held: map<nat, seq<nat>>, open: map<nat, View>,
                slot: nat, h: Handle, cs: seq<nat>, view: View)
    requires AllHands(g, m, chains, hands, held, open) && slot !in hands && Hand(g, m, chains, slot, h, cs, view)
    requires forall k {:trigger held[k]} :: k in held ==> Apart(cs, held[k])
    ensures AllHands(g, m, chains, hands[slot := h], held[slot := cs], open[slot := view])
  {
    HandsWith(g, m, chains, hands, held, open, slot, h, cs, view);
  }

  // ------------------------------------------------------------------
  // Shorter
  // ------------------------------------------------------------------

  /** A record made to claim the front of what its handle reads, with all the handle holds behind it. */
  lemma ClaimStands(g: Shape, m: Medium, chains: seq<seq<nat>>, files: seq<File>, slot: nat, h: Handle, cs: seq<nat>, view: View, size: nat)
    requires Hand(g, m, chains, slot, h, cs, view) && Holds(g, m.fat, m.dir, m.data, files, chains) && DataFits(g, m.data) && size <= h.size
    ensures files[slot].File? && size <= |view.contents|
    ensures Holds(g, m.fat, Committed(m.dir, slot, h.first, size), m.data,
                  files[slot := File(files[slot].name, view.contents[..size])], Through(chains, slot, cs))
    ensures IsChain(g, m.fat, cs) && size <= g.clusterSize * |cs| == |Bytes(m.data, cs)|
    ensures if cs == [] then h.first == 0 else h.first == cs[0] >= FIRST_CLUSTER
  {
    HandBytes(g, m, chains, slot, h, cs, view);
    FrontOf(Bytes(m.data, cs), h.size, size);
    assert FileOf(m.dir[slot], m.data, chains[slot]) == files[slot];
    HoldsWith(g, m.fat, m.dir, m.data, files, chains, slot, m.dir[slot].(first := h.first, size := size), cs);
  }

  /** The record at `slot` claims the first `size` bytes its handle reads on `m1`, and leads to all the handle holds; on `m0` it did not yet. */
  ghost predicate Claiming(g: Shape, m0: Medium, m1: Medium, hands: map<nat, Handle>, slot: nat, size: nat, d: Desk, chains: seq<seq<nat>>,
                           held: map<nat, seq<nat>>) {
    true == (
      && AllHands(g, m0, chains, hands, held, d.open) && DataFits(g, m0.data) && slot in hands
      && slot < |chains| == |m0.dir| == |d.files| && m0.dir[slot].Used? && d.files[slot].File? && size <= |d.open[slot].contents|
      && d.open[slot].dirty == hands[slot].dirty
      && m1 == m0.(dir := Committed(m0.dir, slot, hands[slot].first, size))
      && IsChain(g, m0.fat, held[slot]) && size <= g.clusterSize * |held[slot]| == |Bytes(m0.data, held[slot])|)
  }

  lemma ClaimingNow(g: Shape, m0: Medium, hands: map<nat, Handle>, slot: nat, size: nat, d: Desk, chains: seq<seq<nat>>, held: map<nat, seq<nat>>)
    requires AllHands(g, m0, chains, hands, held, d.open) && Holds(g, m0.fat, m0.dir, m0.data, d.files, chains) && slot in hands
    requires GoodShape(g) && DataFits(g, m0.data) && size <= hands[slot].size
    ensures slot < |m0.dir| && m0.dir[slot].Used? && slot < |d.files| && d.files[slot].File? && slot in d.open && slot < |chains|
    ensures Claiming(g, m0, m0.(dir := Committed(m0.dir, slot, hands[slot].first, size)), hands, slot, size, d, chains, held)
    ensures size <= |d.open[slot].contents|
    ensures Holds(g, m0.fat, Committed(m0.dir, slot, hands[slot].first, size), m0.data,
                  Resized(d, slot, d.open[slot].contents[..size]).files, Through(chains, slot, held[slot]))
  {
    assert Hand(g, m0, chains, slot, hands[slot], held[slot], d.open[slot]);
    HandFacts(g, m0, chains, slot, hands[slot], held[slot], d.open[slot]);
    ClaimStands(g, m0, chains, d.files, slot, hands[slot], held[slot], d.open[slot], size);
  }

  /** The record of an open file made to claim less, its chain still longer than it needs. */
  method Claim(v: Volume, hands: map<nat, Handle>, slot: nat, size: nat, ghost d: Desk, ghost chains: seq<seq<nat>>, ghost held: map<nat, seq<nat>>)
    requires Desked(v, hands, d, chains, held) && slot in hands && size <= hands[slot].size
    modifies v`m, v`history
    ensures Claiming(v.shape, old(v.m), v.m, hands, slot, size, d, chains, held)
    ensures Rest(v, Through(chains, slot, held[slot]), Resized(d, slot, d.open[slot].contents[..size]).files)
    ensures AllWhole(v.shape, old(v.history), v.history, Resized(d, slot, d.open[slot].contents[..size]).files)
  {
    ClaimingNow(v.shape, v.m, hands, slot, size, d, chains, held);
    PutWhole(v, slot, v.m.dir[slot].(first := hands[slot].first, size := size), chains, d.files,
             Through(chains, slot, held[slot]), Resized(d, slot, d.open[slot].contents[..size]).files);
  }

  /** The handle of a file just made shorter. */
  function Refreshed(s: Slot, dirty: bool): Handle
    requires s.Used?
  {
    Handle(s.first, s.size, 0, 0, dirty)
  }

  lemma HeldLeavesBe(m0: Medium, chains: seq<seq<nat>>, held: map<nat, seq<nat>>, m1: Medium, c1: seq<seq<nat>>, slot: nat)
    requires slot in held && slot < |chains| && OnlySlot(m0, Through(chains, slot, held[slot]), m1, c1, slot)
    ensures LeavesBe(m0, chains, held, m1, c1, held[slot := c1[slot]])
  {
    LeavesByHandle(m0, chains, held, m1, c1, c1, held[slot := c1[slot]], slot);
  }

  lemma ShorterDesk(v: Volume, m0: Medium, hands: map<nat, Handle>, slot: nat, d: Desk, chains: seq<seq<nat>>, held: map<nat, seq<nat>>,
                    kept: seq<seq<nat>>, contents: seq<byte>)
    requires AllHands(v.shape, m0, chains, hands, held, d.open) && slot in hands && slot < |chains| && DataFits(v.shape, m0.data)
    requires slot < |d.files| && d.files[slot].File? && slot in d.open && d.open[slot].dirty == hands[slot].dirty
    requires OnlySlot(m0, Through(chains, slot, held[slot]), v.m, kept, slot) && slot < |v.m.dir| && v.m.dir[slot].Used?
    requires Rest(v, kept, d.files[slot := File(d.files[slot].name, contents)])
    ensures Desked(v, hands[slot := Refreshed(v.m.dir[slot], hands[slot].dirty)], Resized(d, slot, contents), kept, held[slot := kept[slot]])
    ensures LeavesBe(m0, chains, held, v.m, kept, held[slot := kept[slot]])
  {
    HeldLeavesBe(m0, chains, held, v.m, kept, slot);
    HandsBeside(v.shape, m0, chains, hands, held, d.open, slot, v.m, kept);
    HandBack(v.shape, v.m, kept, d.files[slot := File(d.files[slot].name, contents)], hands, held, d.open, slot,
             Refreshed(v.m.dir[slot], hands[slot].dirty));
  }

  /** What a handle says of its record and its neighbours, as a caller needs it. */
  lemma HandFacts(g: Shape, m: Medium, chains: seq<seq<nat>>, slot: nat, h: Handle, cs: seq<nat>, view: View)
    requires Hand(g, m, chains, slot, h, cs, view)
    ensures slot < |m.dir| == |chains| && m.dir[slot].Used? && view.dirty == h.dirty
    ensures IsChain(g, m.fat, cs) && (if cs == [] then h.first == 0 else h.first == cs[0] >= FIRST_CLUSTER)
    ensures forall k {:trigger chains[k]} :: 0 <= k < |chains| && k != slot ==> Apart(chains[k], cs)
  {
  }

  /** What the claim leaves over given back. */
  method TrimClaimed(v: Volume, hands: map<nat, Handle>, slot: nat, size: nat, ghost m0: Medium, ghost d: Desk, ghost chains: seq<seq<nat>>,
                     ghost held: map<nat, seq<nat>>)
    returns (now: map<nat, Handle>, ghost kept: seq<seq<nat>>)
    requires Claiming(v.shape, m0, v.m, hands, slot, size, d, chains, held) && size > 0
    requires Rest(v, Through(chains, slot, held[slot]), Resized(d, slot, d.open[slot].contents[..size]).files)
    modifies v`m, v`dirty, v`history, v`cache, v`cacheSector, v`table
    ensures slot < |kept| && CutDown(v.shape, v.m.fat, held[slot], kept[slot], size)
    ensures Desked(v, now, Resized(d, slot, d.open[slot].contents[..size]), kept, held[slot := kept[slot]])
    ensures AllWhole(v.shape, old(v.history), v.history, Resized(d, slot, d.open[slot].contents[..size]).files)
    ensures LeavesBe(m0, chains, held, v.m, kept, held[slot := kept[slot]]) && v.m.data == old(v.m.data)
  {
    ghost var m1 := v.m;
    kept := Trim(v, slot, size, Through(chains, slot, held[slot]), Resized(d, slot, d.open[slot].contents[..size]).files);
    TrimmedSlot(m0, m1, v.m, slot, Through(chains, slot, held[slot]), kept);
    ShorterDesk(v, m0, hands, slot, d, chains, held, kept, d.open[slot].contents[..size]);
    now := hands[slot := Refreshed(v.m.dir[slot], hands[slot].dirty)];
  }

  lemma TrimmedSlot(m0: Medium, m1: Medium, m2: Medium, slot: nat, whole: seq<seq<nat>>, kept: seq<seq<nat>>)
    requires slot < |m0.dir| == |m1.dir| && m1 == m0.(dir := m0.dir[slot := m1.dir[slot]]) && m2.dir == m1.dir
    requires OnlySlot(m1, whole, m2, kept, slot)
    ensures OnlySlot(m0, whole, m2, kept, slot)
  {
  }

  /** An open file cut to a size that needs clusters. */
  method CutOpen(v: Volume, hands: map<nat, Handle>, slot: nat, size: nat, ghost d: Desk, ghost chains: seq<seq<nat>>, ghost held: map<nat, seq<nat>>)
    returns (now: map<nat, Handle>, ghost kept: seq<seq<nat>>)
    requires Desked(v, hands, d, chains, held) && slot in hands && 0 < size <= hands[slot].size
    modifies v`m, v`dirty, v`history, v`cache, v`cacheSector, v`table
    ensures slot in d.open && slot < |d.files| && d.files[slot].File? && size <= |d.open[slot].contents|
    ensures slot < |kept| && CutDown(v.shape, v.m.fat, held[slot], kept[slot], size)
    ensures Desked(v, now, Resized(d, slot, d.open[slot].contents[..size]), kept, held[slot := kept[slot]])
    ensures AllWhole(v.shape, old(v.history), v.history, Resized(d, slot, d.open[slot].contents[..size]).files)
    ensures LeavesBe(old(v.m), chains, held, v.m, kept, held[slot := kept[slot]]) && v.m.data == old(v.m.data)
  {
    ghost var m0, h0 := v.m, v.history;
    Claim(v, hands, slot, size, d, chains, held);
    ghost var h1 := v.history;
    now, kept := TrimClaimed(v, hands, slot, size, m0, d, chains, held);
    WholeTwice(v.shape, h0, h1, v.history, Resized(d, slot, d.open[slot].contents[..size]).files);
  }

  /** A record that comes to name nothing, while its handle still holds its clusters. */
  lemma EmptyStands(g: Shape, m: Medium, chains: seq<seq<nat>>, files: seq<File>, slot: nat, h: Handle, cs: seq<nat>, view: View)
    requires Hand(g, m, chains, slot, h, cs, view) && Holds(g, m.fat, m.dir, m.data, files, chains) && GoodShape(g)
    ensures files[slot].File?
    ensures Holds(g, m.fat, m.dir[slot := m.dir[slot].(first := 0, size := 0)], m.data,
                  files[slot := File(files[slot].name, [])], chains[slot := []])
    ensures forall k {:trigger chains[slot := []][k]} :: 0 <= k < |chains| ==> Apart(chains[slot := []][k], cs)
  {
    assert FileOf(m.dir[slot], m.data, chains[slot]) == files[slot];
    assert IsChain(g, m.fat, []);
    HoldsWith(g, m.fat, m.dir, m.data, files, chains, slot, m.dir[slot].(first := 0, size := 0), []);
  }

  /** The record at `slot` names nothing on `m1`, and its handle still holds its clusters; on `m0` it did not yet. */
  ghost predicate Nameless(g: Shape, m0: Medium, m1: Medium, hands: map<nat, Handle>, slot: nat, d: Desk, chains: seq<seq<nat>>,
                           held: map<nat, seq<nat>>) {
    true == (
      && AllHands(g, m0, chains, hands, held, d.open) && DataFits(g, m0.data) && slot in hands
      && slot < |chains| == |m0.dir| == |d.files| && m0.dir[slot].Used? && d.files[slot].File?
      && d.open[slot].dirty == hands[slot].dirty
      && m1 == m0.(dir := m0.dir[slot := m0.dir[slot].(first := 0, size := 0)])
      && IsChain(g, m0.fat, held[slot])
      && (if held[slot] == [] then hands[slot].first == 0 else hands[slot].first == held[slot][0] >= FIRST_CLUSTER)
      && forall k {:trigger chains[slot := []][k]} :: 0 <= k < |chains| ==> Apart(chains[slot := []][k], held[slot]))
  }

  lemma NamelessNow(g: Shape, m0: Medium, hands: map<nat, Handle>, slot: nat, d: Desk, chains: seq<seq<nat>>, held: map<nat, seq<nat>>)
    requires AllHands(g, m0, chains, hands, held, d.open) && Holds(g, m0.fat, m0.dir, m0.data, d.files, chains) && slot in hands
    requires GoodShape(g) && DataFits(g, m0.data)
    ensures slot < |m0.dir| && m0.dir[slot].Used? && slot < |d.files| && d.files[slot].File? && slot in d.open && slot < |chains|
    ensures Nameless(g, m0, m0.(dir := m0.dir[slot := m0.dir[slot].(first := 0, size := 0)]), hands, slot, d, chains, held)
    ensures Holds(g, m0.fat, m0.dir[slot := m0.dir[slot].(first := 0, size := 0)], m0.data, Resized(d, slot, []).files, chains[slot := []])
  {
    assert Hand(g, m0, chains, slot, hands[slot], held[slot], d.open[slot]);
    HandFacts(g, m0, chains, slot, hands[slot], held[slot], d.open[slot]);
    EmptyStands(g, m0, chains, d.files, slot, hands[slot], held[slot], d.open[slot]);
  }

  /** The first half of emptying an open file. */
  method NameNothing(v: Volume, hands: map<nat, Handle>, slot: nat, ghost d: Desk, ghost chains: seq<seq<nat>>, ghost held: map<nat, seq<nat>>)
    requires Desked(v, hands, d, chains, held) && slot in hands
    modifies v`m, v`history
    ensures Nameless(v.shape, old(v.m), v.m, hands, slot, d, chains, held) && Rest(v, chains[slot := []], Resized(d, slot, []).files)
    ensures AllWhole(v.shape, old(v.history), v.history, Resized(d, slot, []).files)
  {
    NamelessNow(v.shape, v.m, hands, slot, d, chains, held);
    PutWhole(v, slot, v.m.dir[slot].(first := 0, size := 0), chains, d.files, chains[slot := []], Resized(d, slot, []).files);
  }

  /** An open file emptied: its record names nothing before what the handle held goes back. */
  method EmptyOpen(v: Volume, hands: map<nat, Handle>, slot: nat, ghost d: Desk, ghost chains: seq<seq<nat>>, ghost held: map<nat, seq<nat>>)
    returns (now: map<nat, Handle>, ghost kept: seq<seq<nat>>)
    requires Desked(v, hands, d, chains, held) && slot in hands
    modifies v`m, v`dirty, v`history, v`cache, v`cacheSector, v`table
    ensures slot in d.open && slot < |d.files| && d.files[slot].File? && slot < |kept| && kept[slot] == []
    ensures Desked(v, now, Resized(d, slot, []), kept, held[slot := []])
    ensures AllWhole(v.shape, old(v.history), v.history, Resized(d, slot, []).files)
    ensures LeavesBe(old(v.m), chains, held, v.m, kept, held[slot := []]) && Freed(v.m.fat, old(v.m.fat), held[slot])
  {
    ghost var m0, h0 := v.m, v.history;
    NameNothing(v, hands, slot, d, chains, held);
    ghost var h1 := v.history;
    now, kept := ReleaseNameless(v, hands, slot, m0, d, chains, held);
    WholeTwice(v.shape, h0, h1, v.history, Resized(d, slot, []).files);
  }

  method ReleaseNameless(v: Volume, hands: map<nat, Handle>, slot: nat, ghost m0: Medium, ghost d: Desk, ghost chains: seq<seq<nat>>,
                         ghost held: map<nat, seq<nat>>)
    returns (now: map<nat, Handle>, ghost kept: seq<seq<nat>>)
    requires Nameless(v.shape, m0, v.m, hands, slot, d, chains, held) && Rest(v, chains[slot := []], Resized(d, slot, []).files)
    modifies v`m, v`dirty, v`history, v`cache, v`cacheSector, v`table
    ensures slot < |kept| && kept[slot] == [] && Desked(v, now, Resized(d, slot, []), kept, held[slot := []])
    ensures AllWhole(v.shape, old(v.history), v.history, Resized(d, slot, []).files)
    ensures LeavesBe(m0, chains, held, v.m, kept, held[slot := []]) && Freed(v.m.fat, old(v.m.fat), held[slot])
  {
    kept := chains[slot := []];
    Release(v, hands[slot].first, held[slot], kept, Resized(d, slot, []).files);
    EmptiedSlot(m0, chains, held[slot], v.m, slot);
    ShorterDesk(v, m0, hands, slot, d, chains, held, kept, []);
    now := hands[slot := Refreshed(v.m.dir[slot], hands[slot].dirty)];
  }

  lemma EmptiedSlot(m0: Medium, chains: seq<seq<nat>>, cs: seq<nat>, m1: Medium, slot: nat)
    requires slot < |chains| == |m0.dir| == |m1.dir| && m1.dir == m0.dir[slot := m1.dir[slot]]
    requires m1.data == m0.data && Freed(m1.fat, m0.fat, cs)
    ensures OnlySlot(m0, Through(chains, slot, cs), m1, chains[slot := []], slot)
  {
  }

  /** A chain nobody's record leads to, given back and on the medium. */
  method Release(v: Volume, first: nat, ghost cs: seq<nat>, ghost chains: seq<seq<nat>>, ghost files: seq<File>)
    requires Rest(v, chains, files) && IsChain(v.shape, v.table, cs) && (if cs == [] then first == 0 else first == cs[0] >= FIRST_CLUSTER)
    requires forall k {:trigger chains[k]} :: 0 <= k < |chains| ==> Apart(chains[k], cs)
    modifies v`m, v`dirty, v`history, v`cache, v`cacheSector, v`table
    ensures Rest(v, chains, files) && AllWhole(v.shape, old(v.history), v.history, files)
    ensures v.m.dir == old(v.m.dir) && v.m.data == old(v.m.data) && Freed(v.m.fat, old(v.m.fat), cs)
  {
    ghost var h0 := v.history;
    Drop(v, first, cs, v.m.dir, chains);
    ghost var h1 := v.history;
    Flush(v, SoundTable(v.shape, v.m.dir, chains));
    TableWritesWhole(v.shape, h0, h1, v.m, chains, files);
    TableWritesWhole(v.shape, h1, v.history, v.m, chains, files);
    WholeTwice(v.shape, h0, h1, v.history, files);
  }

  // ------------------------------------------------------------------
  // Longer
  // ------------------------------------------------------------------

  /** Nothing was stored. */
  lemma NothingPut(d: Desk, d1: Desk, slot: nat)
    requires PutDone(d, d1, slot, 0, [], false) && slot in d.open
    ensures d1 == d
  {
    NothingLies(d.open[slot].contents, d1.open[slot].contents);
    NothingLies(d.files[slot].contents, d1.files[slot].contents);
    assert d.files[slot := d1.files[slot]] == d.files && d.open[slot := d1.open[slot]] == d.open;
  }

  lemma NothingLies(b: seq<byte>, a: seq<byte>)
    requires PartlyStored(b, a, 0, [])
    ensures a == b && PartlyStored(b, a, |b|, [])
  {
    assert Overlaid(b, a, |b|, |b|, [][..0]);
  }

  lemma GrownSlot(m0: Medium, c0: seq<seq<nat>>, m1: Medium, longer: seq<seq<nat>>, slot: nat)
    requires SparedBy(m0, c0, m0.(fat := m1.fat, data := m1.data), longer, slot)
    requires |m1.dir| == |m0.dir| && m1.dir == m0.dir[slot := m1.dir[slot]]
    ensures OnlySlot(m0, c0, m1, longer, slot)
  {
    assert longer == longer[slot := longer[slot]];
    SparedSlot(m0, c0, m0.(fat := m1.fat, data := m1.data), longer, m1, longer, slot);
  }

  /** What a file that has grown under its handle leaves of all the handles. */
  lemma GrownHands(g: Shape, s: Start, hands: map<nat, Handle>, d: Desk, chains: seq<seq<nat>>, held: map<nat, seq<nat>>, slot: nat,
                   m1: Medium, files: seq<File>, longer: seq<seq<nat>>, h: Handle)
    requires slot in hands && slot < |chains| && AllHands(g, s.m, chains, hands, held, d.open) && DataFits(g, s.m.data)
    requires s.chains == Through(chains, slot, held[slot]) && SparedBy(s.m, s.chains, s.m.(fat := m1.fat, data := m1.data), longer, slot)
    requires slot < |s.m.dir| && s.m.dir[slot].Used? && m1.dir == Committed(s.m.dir, slot, h.first, h.size)
    requires Holds(g, m1.fat, m1.dir, m1.data, files, longer)
    requires h.walkedCluster != 0 ==> h.walked < |longer[slot]| && longer[slot][h.walked] == h.walkedCluster
    ensures files[slot].File? && AllHands(g, m1, longer, hands[slot := h], held[slot := longer[slot]], d.open[slot := View(files[slot].contents, h.dirty)])
  {
    GrownSlot(s.m, s.chains, m1, longer, slot);
    HandsBeside(g, s.m, chains, hands, held, d.open, slot, m1, longer);
    HandBack(g, m1, longer, files, hands, held, d.open, slot, h);
  }

  /** What of a write under way is about the file's record. */
  lemma GoingFacts(g: Shape, s: Start, hands: map<nat, Handle>, d: Desk, chains: seq<seq<nat>>, held: map<nat, seq<nat>>, slot: nat)
    requires Going(g, s, hands, d, chains, held, slot)
    ensures slot in hands && slot in held && slot in d.open && slot < |chains| && AllHands(g, s.m, chains, hands, held, d.open)
    ensures s.chains == Through(chains, slot, held[slot]) && s.files == d.files && DataFits(g, s.m.data)
    ensures slot < |s.chains| && d.open[slot] == View(Visible(s.m.data, s.chains, slot, s.size), hands[slot].dirty)
  {
  }

  lemma GrownDesk(v: Volume, e: Entry, s: Start, hands: map<nat, Handle>, d: Desk, chains: seq<seq<nat>>, held: map<nat, seq<nat>>, slot: nat,
                  size: nat, longer: seq<seq<nat>>, h: Handle, at: nat)
    requires Going(v.shape, s, hands, d, chains, held, e.slot) && s.m.dir == s.dir && slot == e.slot && MadeLonger(v, e, s, longer, size, at)
    requires h == Handle(e.first, e.size, e.walked, e.walkedCluster, hands[slot].dirty)
    ensures slot < |longer| && slot in d.open && slot < |d.files| && d.files[slot].File?
    ensures GrewAt(v.shape, s.past, v.history, at, d.files, Resized(d, slot, Stored(d.open[slot].contents, size, [])).files, slot, size, held[slot])
    ensures Desked(v, hands[slot := h], Resized(d, slot, Stored(d.open[slot].contents, size, [])), longer, held[slot := longer[slot]])
    ensures HeldGrew(s.m.fat, v.m.fat, held, held[slot := longer[slot]], slot)
    ensures LeavesBe(s.m, chains, held, v.m, longer, held[slot := longer[slot]])
    ensures ZeroedIn(s.m, v.m, held, held[slot := longer[slot]], slot, s.size, size, true)
  {
    GoingFacts(v.shape, s, hands, d, chains, held, slot);
    GrownSlot(s.m, s.chains, v.m, longer, slot);
    HeldLeavesBe(s.m, chains, held, v.m, longer, slot);
    GrownHands(v.shape, s, hands, d, chains, held, slot, v.m, Lengthy(s, slot, size), longer, h);
  }

  /** What a cut in a growing resize through a handle can leave. */
  ghost predicate GrewAt(g: Shape, h0: seq<Medium>, h: seq<Medium>, at: nat, files: seq<File>, after: seq<File>, slot: nat, size: nat, cs: seq<nat>) {
    true == (
      && CutAt(g, h0, h, at, files, after)
      && (SoundMedium(g, h[at]) <==> size <= g.clusterSize * |cs|)
      && (SoundMedium(g, h[at]) ==> Whole(g, h[at], after))
      && Ahead(g, h[at], files, slot))
  }

  /** In what the handle at `slot` holds, zeros went over what lay between two sizes, or over some front part of it. */
  ghost predicate ZeroedIn(m0: Medium, m1: Medium, held: map<nat, seq<nat>>, held1: map<nat, seq<nat>>, slot: nat, from: nat, to: nat, all: bool) {
    true == (slot in held && slot in held1 && from < to && Zeroed(Bytes(m0.data, held[slot]), from, to - from, Bytes(m1.data, held1[slot]), all))
  }

  /** An open file made longer. */
  method GrowOpen(v: Volume, hands: map<nat, Handle>, slot: nat, size: nat, ghost d: Desk, ghost chains: seq<seq<nat>>, ghost held: map<nat, seq<nat>>)
    returns (ok: bool, now: map<nat, Handle>, ghost c1: seq<seq<nat>>, ghost held1: map<nat, seq<nat>>, ghost at: nat)
    requires Desked(v, hands, d, chains, held) && slot in hands && hands[slot].size < size
    modifies v`m, v`dirty, v`history, v`cache, v`cacheSector, v`table, v`hint
    ensures slot in d.open && slot < |d.files| && d.files[slot].File? && HeldGrew(old(v.m.fat), v.m.fat, held, held1, slot)
    ensures ok ==> var d1 := Resized(d, slot, Stored(d.open[slot].contents, size, []));
      Desked(v, now, d1, c1, held1) && GrewAt(v.shape, old(v.history), v.history, at, d.files, d1.files, slot, size, held[slot])
    ensures !ok ==> Desked(v, now, d, c1, held1) && AllWhole(v.shape, old(v.history), v.history, d.files)
    ensures LeavesBe(old(v.m), chains, held, v.m, c1, held1)
    ensures ZeroedIn(old(v.m), v.m, held, held1, slot, hands[slot].size, size, ok)
    ensures !ok ==> FullAt(v.shape, v.m.fat, held1, slot, size)
    ensures !ok ==> v.m.dir == old(v.m.dir)
    ensures !ok ==> v.m.fat == old(v.m.fat) || v.shape.clusterSize * (|held[slot]| + 1) < size
  {
    var e;
    ghost var s, longer;
    e, s := Resume(v, hands, slot, d, chains, held);
    BeganBytes(v.shape, s, slot);
    ok, longer, at := Lengthen(v, e, size, s);
    var h := Handle(e.first, e.size, e.walked, e.walkedCluster, hands[slot].dirty);
    now := hands[slot := h];
    if ok {
      GrownDesk(v, e, s, hands, d, chains, held, slot, size, longer, h, at);
      c1, held1 := longer, held[slot := longer[slot]];
    } else {
      GoingFacts(v.shape, s, hands, d, chains, held, slot);
      NotGrown(v, e, s, chains, held, longer, size);
      NothingTold(v, e, s, hands, d, chains, held, longer, h);
      c1, held1 := Recorded(e.told, slot, longer), held[slot := longer[slot]];
    }
  }

  /** What is left of a lengthening for which there was no room. */
  lemma NotGrown(v: Volume, e: Entry, s: Start, chains: seq<seq<nat>>, held: map<nat, seq<nat>>, longer: seq<seq<nat>>, size: nat)
    requires NotLonger(v, e, s, longer, size) && e.told == s.dir && s.history == Retold(s.past, s.dir)
    requires e.slot in held && e.slot < |chains| && s.chains == Through(chains, e.slot, held[e.slot])
    ensures v.m.dir == s.dir && AllWhole(v.shape, s.past, v.history, s.files)
    ensures e.slot < |longer| && FullAt(v.shape, v.m.fat, held[e.slot := longer[e.slot]], e.slot, size)
    ensures v.m.fat == s.m.fat || v.shape.clusterSize * (|held[e.slot]| + 1) < size
    ensures WroteAt(v, e, s, longer, 0, [], false) && !v.dirty && v.table == v.m.fat
    ensures ZeroedIn(s.m, v.m, held, held[e.slot := longer[e.slot]], e.slot, s.size, size, false)
  {
    NothingTorn(v.shape, s.past, v.history, s.dir, s.files, e.slot);
  }

  /** A write of nothing that came to nothing leaves the desk as it was. */
  lemma NothingTold(v: Volume, e: Entry, s: Start, hands: map<nat, Handle>, d: Desk, chains: seq<seq<nat>>, held: map<nat, seq<nat>>,
                    longer: seq<seq<nat>>, h: Handle)
    requires Going(v.shape, s, hands, d, chains, held, e.slot) && e.told == v.m.dir
    requires WroteAt(v, e, s, longer, 0, [], false) && !v.dirty && v.table == v.m.fat
    requires h == Handle(e.first, e.size, e.walked, e.walkedCluster, hands[e.slot].dirty)
    ensures |longer| == |e.told| && e.slot < |e.told| && e.told[e.slot].Used?
    ensures Desked(v, hands[e.slot := h], d, Recorded(e.told, e.slot, longer), held[e.slot := longer[e.slot]])
    ensures HeldGrew(s.m.fat, v.m.fat, held, held[e.slot := longer[e.slot]], e.slot)
    ensures LeavesBe(s.m, chains, held, v.m, Recorded(e.told, e.slot, longer), held[e.slot := longer[e.slot]])
  {
    ToldTruly(v, e);
    PutLeaves(v, e, s, hands, d, chains, held, h, longer, 0, [], false);
    NothingPut(d, DeskAfter(d, Told(v, e), longer, e.slot, h), e.slot);
    DeskedTruly(v, hands[e.slot := h], d, Recorded(e.told, e.slot, longer), held[e.slot := longer[e.slot]]);
  }

  lemma NothingTorn(g: Shape, h0: seq<Medium>, h1: seq<Medium>, dir: seq<Slot>, files: seq<File>, slot: nat)
    requires SameRecords(h0, h1, dir) && AllTorn(g, Retold(h0, dir), Retold(h1, dir), files, slot, 0, [])
    ensures AllWhole(g, h0, h1, files)
  {
    TornTruly(g, h0, h1, dir, files, slot, 0, []);
    forall i | |h0| <= i < |h1|
      ensures Whole(g, h1[i], files)
    {
      TornOfNothing(g, h1[i], files, slot);
    }
  }

  lemma TornOfNothing(g: Shape, m: Medium, files: seq<File>, slot: nat)
    requires Torn(g, m, files, slot, 0, [])
    ensures Whole(g, m, files)
  {
    var file :| Alike(file, files[slot], 0, []) && Whole(g, m, files[slot := file]);
    NothingLies(files[slot].contents, file.contents);
    assert files[slot := file] == files;
  }

  /** What a resize through a handle makes of the file's contents. */
  function SizedTo(contents: seq<byte>, size: nat): (r: seq<byte>)
    ensures |r| == size
  {
    if size <= |contents| then contents[..size] else Stored(contents, size, [])
  }

  /** A handle's size is that of what it reads. */
  lemma HandSize(v: Volume, hands: map<nat, Handle>, d: Desk, chains: seq<seq<nat>>, held: map<nat, seq<nat>>, slot: nat)
    requires Desked(v, hands, d, chains, held) && slot in hands
    ensures slot in d.open && |d.open[slot].contents| == hands[slot].size && slot < |v.m.dir| && v.m.dir[slot].Used?
  {
    assert Hand(v.shape, v.m, chains, slot, hands[slot], held[slot], d.open[slot]);
    HandBytes(v.shape, v.m, chains, slot, hands[slot], held[slot], d.open[slot]);
  }

  /**
   An open file made exactly `size` bytes. Whatever it was, its record now says
   so; every cut shows the files before or after, but one while it grew, which
   is sound exactly if the handle's clusters reach. Refused only when full.
   */
  method ResizeFile(v: Volume, hands: map<nat, Handle>, slot: nat, size: nat, ghost d: Desk, ghost chains: seq<seq<nat>>, ghost held: map<nat, seq<nat>>)
    returns (ok: bool, now: map<nat, Handle>, ghost d1: Desk, ghost c1: seq<seq<nat>>, ghost held1: map<nat, seq<nat>>, ghost at: nat)
    requires Desked(v, hands, d, chains, held) && slot in hands
    modifies v`m, v`dirty, v`history, v`cache, v`cacheSector, v`table, v`hint
    ensures slot in d.open && slot < |d.files| && d.files[slot].File? && Desked(v, now, d1, c1, held1)
    ensures LeavesBe(old(v.m), chains, held, v.m, c1, held1)
    ensures d1 == if ok then Resized(d, slot, SizedTo(d.open[slot].contents, size)) else d
    ensures size <= |d.open[slot].contents| ==> ok && AllWhole(v.shape, old(v.history), v.history, d1.files)
    ensures size > |d.open[slot].contents| && ok ==> GrewAt(v.shape, old(v.history), v.history, at, d.files, d1.files, slot, size, held[slot])
    ensures !ok ==> AllWhole(v.shape, old(v.history), v.history, d.files) && FullAt(v.shape, v.m.fat, held1, slot, size)
  {
    HandSize(v, hands, d, chains, held, slot);
    at := 0;
    if size > hands[slot].size {
      ok, now, c1, held1, at := GrowOpen(v, hands, slot, size, d, chains, held);
      d1 := if ok then Resized(d, slot, Stored(d.open[slot].contents, size, [])) else d;
    } else if size == 0 {
      now, c1 := EmptyOpen(v, hands, slot, d, chains, held);
      ok, d1, held1 := true, Resized(d, slot, []), held[slot := []];
    } else {
      now, c1 := CutOpen(v, hands, slot, size, d, chains, held);
      ok, d1, held1 := true, Resized(d, slot, d.open[slot].contents[..size]), held[slot := c1[slot]];
    }
  }
}
