/**
 Handles whose record is gone, given to another, or resized under them. Nothing
 in the driver stops a call from reaching past an open handle to its record; what
 that does to the handle depends on whether the record led to its clusters.
 */
module FatStale {
  import opened ByteFields
  import opened FatVolume
  import opened FatTable
  import opened FatChains
  import opened FatWrite
  import opened FatFiles
  import opened FatHandles
  import opened FatSession

  /** The medium with one record more, which names nothing: what a handle that has no record is told of. */
  function Beside(m: Medium): Medium {
    m.(dir := m.dir + [Used("", 0, 0)])
  }

  /** A handle that depends on no record: its clusters are its own, and no record leads there. */
  ghost predicate Stray(g: Shape, m: Medium, chains: seq<seq<nat>>, h: Handle, cs: seq<nat>, view: View) {
    |chains| == |m.dir| && Hand(g, Beside(m), chains + [[]], |m.dir|, h, cs, view)
  }

  /** Such a handle, beside those that have their records. */
  ghost predicate Strayed(v: Volume, hands: map<nat, Handle>, d: Desk, chains: seq<seq<nat>>, held: map<nat, seq<nat>>,
                          h: Handle, cs: seq<nat>, view: View)
    reads v
  {
    true == (
      && Desked(v, hands, d, chains, held) && Stray(v.shape, v.m, chains, h, cs, view)
      && forall k {:trigger held[k]} :: k in held ==> Apart(cs, held[k]))
  }

  // ------------------------------------------------------------------
  // A handle whose record leads nowhere
  // ------------------------------------------------------------------

  /** A handle whose record leads nowhere yet depends on it for nothing. */
  lemma LedNowhere(g: Shape, m: Medium, chains: seq<seq<nat>>, slot: nat, h: Handle, cs: seq<nat>, view: View)
    requires Hand(g, m, chains, slot, h, cs, view) && m.dir[slot].first == 0
    ensures Stray(g, m, chains, h, cs, view)
  {
    var c1 := chains + [[]];
    forall k | 0 <= k < |c1| && k != |m.dir|
      ensures Apart(c1[k], cs)
    {
      assert c1[k] == chains[k];
    }
  }

  /** Set aside from the others, it leaves calls on its record nothing to be careless of. */
  lemma SetAside(v: Volume, hands: map<nat, Handle>, slot: nat, d: Desk, chains: seq<seq<nat>>, held: map<nat, seq<nat>>)
    requires Desked(v, hands, d, chains, held) && slot in hands
    ensures slot < |v.m.dir| && v.m.dir[slot].Used? && slot in held && slot in d.open
    ensures Desked(v, hands - {slot}, Desk(d.files, d.open - {slot}), chains, held - {slot})
    ensures v.m.dir[slot].first == 0 ==>
      Strayed(v, hands - {slot}, Desk(d.files, d.open - {slot}), chains, held - {slot}, hands[slot], held[slot], d.open[slot])
  {
    assert Hand(v.shape, v.m, chains, slot, hands[slot], held[slot], d.open[slot]);
    HandRecord(v.shape, v.m, chains, slot, hands[slot], held[slot], d.open[slot]);
    HandsWithout(v.shape, v.m, chains, hands, held, d.open, slot);
    if v.m.dir[slot].first == 0 {
      LedNowhere(v.shape, v.m, chains, slot, hands[slot], held[slot], d.open[slot]);
      forall k | k in held - {slot}
        ensures Apart(held[slot], (held - {slot})[k])
      {
        assert Apart(held[slot], held[k]);
      }
    }
  }

  /** What a stray handle holds is in use and nobody's. */
  lemma StrayIsNobodys(g: Shape, m: Medium, chains: seq<seq<nat>>, held: map<nat, seq<nat>>, h: Handle, cs: seq<nat>, view: View, c: nat)
    requires Stray(g, m, chains, h, cs, view) && DataFits(g, m.data) && c in cs
    requires forall k {:trigger held[k]} :: k in held ==> Apart(cs, held[k])
    ensures c < |m.fat| && m.fat[c] != FREE && c < |m.data| && !Somebodys(c, chains, held)
  {
    HeldInUse(g, Beside(m), chains + [[]], |m.dir|, h, cs, view, c);
    forall k | 0 <= k < |chains|
      ensures c !in chains[k]
    {
      assert (chains + [[]])[k] == chains[k] && Apart((chains + [[]])[k], cs);
    }
  }

  /** Whatever leaves what is nobody's alone leaves a stray handle as it was. */
  lemma StrayStays(g: Shape, m0: Medium, c0: seq<seq<nat>>, held0: map<nat, seq<nat>>, m1: Medium, c1: seq<seq<nat>>, held1: map<nat, seq<nat>>,
                   h: Handle, cs: seq<nat>, view: View)
    requires Stray(g, m0, c0, h, cs, view) && DataFits(g, m0.data) && LeavesBe(m0, c0, held0, m1, c1, held1) && |c1| == |m1.dir|
    requires forall k {:trigger held0[k]} :: k in held0 ==> Apart(cs, held0[k])
    ensures Stray(g, m1, c1, h, cs, view)
    ensures forall k {:trigger held1[k]} :: k in held1 ==> Apart(cs, held1[k])
  {
    forall c | c in cs
      ensures c < |m0.fat| && m1.fat[c] == m0.fat[c] && c < |m0.data| && m1.data[c] == m0.data[c] && !Somebodys(c, c1, held1)
    {
      StrayIsNobodys(g, m0, c0, held0, h, cs, view, c);
    }
    ChainFrame(g, m0.fat, m1.fat, cs);
    BytesFrame(m0.data, m1.data, cs);
    var longer := c1 + [[]];
    forall k | 0 <= k < |longer| && k != |m1.dir|
      ensures Apart(longer[k], cs)
    {
      assert longer[k] == c1[k];
    }
  }

  /**
   Any sequence of operations beside a handle whose record leads nowhere: its
   record may be deleted, renamed, given to another file, resized or opened
   again by name, and the handle still reads what it did.
   */
  method Outlive(v: Volume, hands: map<nat, Handle>, slot: nat, ops: seq<Op>, ghost d: Desk, ghost chains: seq<seq<nat>>, ghost held: map<nat, seq<nat>>)
    returns (n: nat, now: map<nat, Handle>, ghost later: seq<seq<nat>>, ghost held1: map<nat, seq<nat>>, ghost log: Log)
    requires Desked(v, hands, d, chains, held) && slot in hands && slot < |v.m.dir| && v.m.dir[slot].Used? && v.m.dir[slot].first == 0
    modifies v`m, v`dirty, v`history, v`cache, v`cacheSector, v`table, v`hint
    ensures log.ops == ops && Logged(v.shape, log, n) && log.trail[0] == Desk(d.files, d.open - {slot})
    ensures n < |ops| ==> Careless(log.trail[n], ops[n])
    ensures slot in held && slot in d.open && Strayed(v, now, log.trail[n], later, held1, hands[slot], held[slot], d.open[slot])
    ensures AllCuts(v.shape, old(v.history), v.history, log) && |v.m.dir| == |old(v.m.dir)|
  {
    SetAside(v, hands, slot, d, chains, held);
    ghost var m0 := v.m;
    n, now, later, held1, log := Session(v, hands - {slot}, ops, Desk(d.files, d.open - {slot}), chains, held - {slot});
    StillStrayed(v, m0, chains, held - {slot}, now, log.trail[n], later, held1, hands[slot], held[slot], d.open[slot]);
  }

  lemma StillStrayed(v: Volume, m0: Medium, c0: seq<seq<nat>>, held0: map<nat, seq<nat>>, hands: map<nat, Handle>, d: Desk,
                     chains: seq<seq<nat>>, held: map<nat, seq<nat>>, h: Handle, cs: seq<nat>, view: View)
    requires Stray(v.shape, m0, c0, h, cs, view) && DataFits(v.shape, m0.data) && LeavesBe(m0, c0, held0, v.m, chains, held)
    requires forall k {:trigger held0[k]} :: k in held0 ==> Apart(cs, held0[k])
    requires Desked(v, hands, d, chains, held)
    ensures Strayed(v, hands, d, chains, held, h, cs, view)
  {
    StrayStays(v.shape, m0, c0, held0, v.m, chains, held, h, cs, view);
  }

  // ------------------------------------------------------------------
  // Closing a stray handle
  // ------------------------------------------------------------------

  /** A stray handle's chain, and what a record that came to say so would show. */
  lemma StrayChain(g: Shape, m: Medium, chains: seq<seq<nat>>, h: Handle, cs: seq<nat>, view: View, name: string)
    requires Stray(g, m, chains, h, cs, view)
    ensures SlotSound(g, m.fat, Used(name, h.first, h.size), cs) && view.dirty == h.dirty
    ensures FileOf(Used(name, h.first, h.size), m.data, cs) == File(name, view.contents)
    ensures forall k {:trigger chains[k]} :: 0 <= k < |chains| ==> Apart(chains[k], cs)
  {
    forall k | 0 <= k < |chains|
      ensures Apart(chains[k], cs)
    {
      assert (chains + [[]])[k] == chains[k];
    }
  }

  /** What a record says once a stray handle has been written over it. */
  lemma StrayCommits(g: Shape, m: Medium, chains: seq<seq<nat>>, files: seq<File>, home: nat, h: Handle, cs: seq<nat>, view: View)
    requires Holds(g, m.fat, m.dir, m.data, files, chains) && Stray(g, m, chains, h, cs, view)
    requires home < |m.dir| && m.dir[home].Used?
    ensures Holds(g, m.fat, Committed(m.dir, home, h.first, h.size), m.data, files[home := File(m.dir[home].name, view.contents)], chains[home := cs])
  {
    StrayChain(g, m, chains, h, cs, view, m.dir[home].name);
    HoldsWith(g, m.fat, m.dir, m.data, files, chains, home, Used(m.dir[home].name, h.first, h.size), cs);
  }

  /** The other handles are as they were, and whoever had that record open has strayed too. */
  lemma HandsBesideStray(g: Shape, m: Medium, chains: seq<seq<nat>>, hands: map<nat, Handle>, held: map<nat, seq<nat>>, open: map<nat, View>,
                         home: nat, h: Handle, cs: seq<nat>, view: View, m1: Medium)
    requires AllHands(g, m, chains, hands, held, open) && DataFits(g, m.data) && Stray(g, m, chains, h, cs, view)
    requires forall k {:trigger held[k]} :: k in held ==> Apart(cs, held[k])
    requires home < |m.dir| && m.dir[home].Used? && m1 == m.(dir := Committed(m.dir, home, h.first, h.size))
    ensures AllHands(g, m1, chains[home := cs], hands - {home}, held - {home}, open - {home})
    ensures home in hands ==> Stray(g, m1, chains[home := cs], hands[home], held[home], open[home])
  {
    if home in hands {
      assert Apart(cs, held[home]);
      StraysToo(g, m, chains, home, hands[home], held[home], open[home], cs, m1);
    }
    HandsWithout(g, m, chains, hands, held, open, home);
    OthersBesideStray(g, m, chains, hands - {home}, held - {home}, open - {home}, home, h, cs, m1);
  }

  lemma OthersBesideStray(g: Shape, m: Medium, chains: seq<seq<nat>>, hands: map<nat, Handle>, held: map<nat, seq<nat>>, open: map<nat, View>,
                          home: nat, h: Handle, own: seq<nat>, m1: Medium)
    requires AllHands(g, m, chains, hands, held, open) && DataFits(g, m.data) && home !in hands
    requires forall k {:trigger held[k]} :: k in held ==> Apart(own, held[k])
    requires home < |m.dir| && m.dir[home].Used? && m1 == m.(dir := Committed(m.dir, home, h.first, h.size)) && home < |chains|
    ensures AllHands(g, m1, chains[home := own], hands, held, open)
  {
    forall k | k in hands
      ensures Hand(g, m1, chains[home := own], k, hands[k], held[k], open[k])
    {
      OtherBesideStray(g, m, chains, home, h, own, m1, k, hands[k], held[k], open[k]);
    }
  }

  lemma OtherBesideStray(g: Shape, m: Medium, chains: seq<seq<nat>>, home: nat, h: Handle, own: seq<nat>, m1: Medium,
                         k: nat, other: Handle, cs: seq<nat>, view: View)
    requires Hand(g, m, chains, k, other, cs, view) && DataFits(g, m.data) && Apart(own, cs) && k != home
    requires home < |m.dir| && m.dir[home].Used? && m1 == m.(dir := Committed(m.dir, home, h.first, h.size))
    ensures Hand(g, m1, chains[home := own], k, other, cs, view)
  {
    HandThrough(g, m, chains, home, own, k, other, cs, view);
    HandAside(g, m, Through(chains, home, own), m1, Through(chains, home, own), [], k, other, cs, view);
  }

  lemma StraysToo(g: Shape, m: Medium, chains: seq<seq<nat>>, home: nat, h: Handle, cs: seq<nat>, view: View, own: seq<nat>, m1: Medium)
    requires Hand(g, m, chains, home, h, cs, view) && Apart(own, cs)
    requires m1.fat == m.fat && m1.data == m.data && |m1.dir| == |m.dir|
    ensures Stray(g, m1, chains[home := own], h, cs, view)
  {
    var longer := chains[home := own] + [[]];
    forall k | 0 <= k < |longer| && k != |m1.dir|
      ensures Apart(longer[k], cs)
    {
      assert k != home ==> longer[k] == chains[k];
    }
  }

  /** Where the record is in use again: the files and the handles once the stray one has been written over it. */
  lemma StrayHome(g: Shape, m: Medium, chains: seq<seq<nat>>, hands: map<nat, Handle>, held: map<nat, seq<nat>>, d: Desk,
                  home: nat, h: Handle, cs: seq<nat>, view: View, m1: Medium)
    requires Holds(g, m.fat, m.dir, m.data, d.files, chains) && Stray(g, m, chains, h, cs, view) && DataFits(g, m.data) && view.dirty
    requires AllHands(g, m, chains, hands, held, d.open) && forall k {:trigger held[k]} :: k in held ==> Apart(cs, held[k])
    requires home < |m.dir| && m.dir[home].Used? && m1 == m.(dir := Committed(m.dir, home, h.first, h.size)) && IsFile(d.files, home)
    ensures Holds(g, m1.fat, m1.dir, m1.data, Overwrites(d, home, view).files, chains[home := cs])
    ensures AllHands(g, m1, chains[home := cs], hands - {home}, held - {home}, Overwrites(d, home, view).open)
    ensures home in hands ==> home in held && home in d.open && Stray(g, m1, chains[home := cs], hands[home], held[home], d.open[home])
  {
    assert FileOf(m.dir[home], m.data, chains[home]) == d.files[home];
    StrayCommits(g, m, chains, d.files, home, h, cs, view);
    HandsBesideStray(g, m, chains, hands, held, d.open, home, h, cs, view, m1);
  }

  /** The desk with what a closed stray handle read under the name its record has by now, if any. */
  function Overwrites(d: Desk, home: nat, view: View): Desk {
    if view.dirty && IsFile(d.files, home) then Desk(d.files[home := File(d.files[home].name, view.contents)], d.open - {home}) else d
  }

  /**
   A stray handle closed. If it has written and its record's place is in use
   again, the name there comes to mean what the handle read, whoever's it was; all
   other files, and handles on them, are as they were. Always sound.
   */
  method CloseStray(v: Volume, home: nat, h: Handle, ghost hands: map<nat, Handle>, ghost d: Desk, ghost chains: seq<seq<nat>>,
                    ghost held: map<nat, seq<nat>>, ghost cs: seq<nat>, ghost view: View)
    returns (ghost c1: seq<seq<nat>>)
    requires Strayed(v, hands, d, chains, held, h, cs, view) && home < |v.m.dir|
    modifies v`m, v`history
    ensures Rest(v, c1, Overwrites(d, home, view).files) && AllWhole(v.shape, old(v.history), v.history, Overwrites(d, home, view).files)
    ensures view.dirty && IsFile(d.files, home) ==>
      && Desked(v, hands - {home}, Overwrites(d, home, view), c1, held - {home})
      && (home in hands ==> home in held && home in d.open && Stray(v.shape, v.m, c1, hands[home], held[home], d.open[home]))
    ensures !view.dirty || !IsFile(d.files, home) ==> v.m == old(v.m) && Desked(v, hands, d, c1, held)
  {
    c1 := chains;
    FilesOfRecords(v, chains, d.files);
    if h.dirty {
      ghost var m0 := v.m;
      WriteRecord(v, home, h);
      if m0.dir[home].Used? {
        c1 := chains[home := cs];
        StrayHome(v.shape, m0, chains, hands, held, d, home, h, cs, view, v.m);
      }
      WholeOne(v.shape, old(v.history), v.m, Overwrites(d, home, view).files, c1);
    }
  }

  /**
   A handle whose record led nowhere, any run of operations beside it, and then
   its close: what the handle read is what the name at its record's place means,
   if anything has that record by then, and every other file is as the run left it.
   */
  method OutliveAndClose(v: Volume, hands: map<nat, Handle>, slot: nat, ops: seq<Op>, ghost d: Desk, ghost chains: seq<seq<nat>>, ghost held: map<nat, seq<nat>>)
    returns (n: nat, ghost log: Log, ghost c1: seq<seq<nat>>)
    requires Desked(v, hands, d, chains, held) && slot in hands && slot < |v.m.dir| && v.m.dir[slot].Used? && v.m.dir[slot].first == 0
    modifies v`m, v`dirty, v`history, v`cache, v`cacheSector, v`table, v`hint
    ensures log.ops == ops && Logged(v.shape, log, n) && log.trail[0] == Desk(d.files, d.open - {slot})
    ensures n < |ops| ==> Careless(log.trail[n], ops[n])
    ensures slot in d.open && Rest(v, c1, Overwrites(log.trail[n], slot, d.open[slot]).files)
  {
    ghost var later, held1;
    var now;
    n, now, later, held1, log := Outlive(v, hands, slot, ops, d, chains, held);
    c1 := CloseStray(v, slot, hands[slot], now, log.trail[n], later, held1, held[slot], d.open[slot]);
  }

  // ------------------------------------------------------------------
  // Writing through a stray handle
  // ------------------------------------------------------------------

  lemma BesideHand(g: Shape, m: Medium, chains: seq<seq<nat>>, k: nat, h: Handle, cs: seq<nat>, view: View)
    requires |chains| == |m.dir| && k < |m.dir|
    ensures Hand(g, m, chains, k, h, cs, view) <==> Hand(g, Beside(m), chains + [[]], k, h, cs, view)
  {
    var longer := chains + [[]];
    assert longer[|m.dir|] == [] && forall j :: 0 <= j < |chains| ==> longer[j] == chains[j];
    if Hand(g, m, chains, k, h, cs, view) {
      forall j | 0 <= j < |longer| && j != k
        ensures Apart(longer[j], cs)
      {
        if j < |chains| { assert Apart(chains[j], cs); }
      }
    }
    if Hand(g, Beside(m), longer, k, h, cs, view) {
      forall j | 0 <= j < |chains| && j != k
        ensures Apart(chains[j], cs)
      {
        assert Apart(longer[j], cs);
      }
    }
  }

  /** A stray handle is one of the handles, as told of one record more. */
  lemma BesideHands(g: Shape, m: Medium, chains: seq<seq<nat>>, hands: map<nat, Handle>, held: map<nat, seq<nat>>, open: map<nat, View>,
                    h: Handle, cs: seq<nat>, view: View)
    requires AllHands(g, m, chains, hands, held, open) && Stray(g, m, chains, h, cs, view)
    requires forall k {:trigger held[k]} :: k in held ==> Apart(cs, held[k])
    ensures |m.dir| !in hands
    ensures AllHands(g, Beside(m), chains + [[]], hands[|m.dir| := h], held[|m.dir| := cs], open[|m.dir| := view])
  {
    HandsAreRecords(g, m, chains, hands, held, open);
    forall k | k in hands
      ensures Hand(g, Beside(m), chains + [[]], k, hands[k], held[k], open[k])
    {
      BesideHand(g, m, chains, k, hands[k], held[k], open[k]);
    }
    HandsWith(g, Beside(m), chains + [[]], hands, held, open, |m.dir|, h, cs, view);
  }

  lemma BackHands(g: Shape, m: Medium, chains: seq<seq<nat>>, hands: map<nat, Handle>, held: map<nat, seq<nat>>, open: map<nat, View>,
                  h: Handle, cs: seq<nat>, view: View)
    requires |chains| == |m.dir| && |m.dir| !in hands && hands.Keys == held.Keys == open.Keys && forall k :: k in hands ==> k < |m.dir|
    requires AllHands(g, Beside(m), chains + [[]], hands[|m.dir| := h], held[|m.dir| := cs], open[|m.dir| := view])
    ensures AllHands(g, m, chains, hands, held, open) && Stray(g, m, chains, h, cs, view)
    ensures forall k {:trigger held[k]} :: k in held ==> Apart(cs, held[k])
  {
    var n := |m.dir|;
    BackApart(held, n, cs, held[n := cs]);
    forall k | k in hands
      ensures Hand(g, m, chains, k, hands[k], held[k], open[k])
    {
      assert Hand(g, Beside(m), chains + [[]], k, hands[n := h][k], held[n := cs][k], open[n := view][k]);
      BesideHand(g, m, chains, k, hands[k], held[k], open[k]);
    }
    assert Hand(g, Beside(m), chains + [[]], n, hands[n := h][n], held[n := cs][n], open[n := view][n]);
  }

  lemma BackApart(held: map<nat, seq<nat>>, n: nat, cs: seq<nat>, held1: map<nat, seq<nat>>)
    requires n !in held && held1 == held[n := cs]
    requires forall j, k {:trigger Apart(held1[j], held1[k])} :: j in held1 && k in held1 && j != k ==> Apart(held1[j], held1[k])
    ensures forall j, k {:trigger Apart(held[j], held[k])} :: j in held && k in held && j != k ==> Apart(held[j], held[k])
    ensures forall k {:trigger held[k]} :: k in held ==> Apart(cs, held[k])
  {
    forall j, k | j in held && k in held && j != k
      ensures Apart(held[j], held[k])
    {
      assert Apart(held1[j], held1[k]);
    }
    forall k | k in held
      ensures Apart(cs, held[k])
    {
      assert Apart(held1[n], held1[k]);
    }
  }

  lemma BesideHolds(g: Shape, f: Table, dir: seq<Slot>, data: Clusters, files: seq<File>, chains: seq<seq<nat>>)
    requires Holds(g, f, dir, data, files, chains) && GoodShape(g) && |f| == PER_SECTOR * g.tableSectors
    ensures Holds(g, f, dir + [Used("", 0, 0)], data, files + [File("", [])], chains + [[]])
  {
    var dir1, chains1 := dir + [Used("", 0, 0)], chains + [[]];
    assert IsChain(g, f, []);
    forall k | 0 <= k < |dir1|
      ensures SlotSound(g, f, dir1[k], chains1[k])
    {
      if k < |dir| { assert SlotSound(g, f, dir[k], chains[k]); }
    }
    forall j, k | 0 <= j < |dir1| && 0 <= k < |dir1| && j != k
      ensures Apart(chains1[j], chains1[k])
    {
      if j < |dir| && k < |dir| { assert Apart(chains[j], chains[k]); }
    }
  }

  lemma BackHolds(g: Shape, f: Table, dir: seq<Slot>, data: Clusters, files: seq<File>, longer: seq<seq<nat>>)
    requires Holds(g, f, dir + [Used("", 0, 0)], data, files, longer)
    ensures |files| == |longer| == |dir| + 1 && longer == longer[..|dir|] + [[]]
    ensures Holds(g, f, dir, data, files[..|dir|], longer[..|dir|])
  {
    var dir1, n := dir + [Used("", 0, 0)], |dir|;
    assert SlotSound(g, f, dir1[n], longer[n]);
    forall k | 0 <= k < n
      ensures SlotSound(g, f, dir[k], longer[..n][k]) && FileOf(dir[k], data, longer[..n][k]) == files[..n][k]
    {
      assert SlotSound(g, f, dir1[k], longer[k]) && FileOf(dir1[k], data, longer[k]) == files[k];
    }
    forall j, k | 0 <= j < n && 0 <= k < n && j != k
      ensures Apart(longer[..n][j], longer[..n][k])
    {
      assert Apart(longer[j], longer[k]);
    }
  }

  /** The desk with one file more, empty, which a stray handle has open. */
  ghost function DeskBeside(d: Desk, view: View): Desk {
    Desk(d.files + [File("", [])], d.open[|d.files| := view])
  }

  /** The entry of a stray handle, and where a write through it begins. */
  method ResumeStray(v: Volume, hands: map<nat, Handle>, h: Handle, ghost d: Desk, ghost chains: seq<seq<nat>>, ghost held: map<nat, seq<nat>>,
                     ghost cs: seq<nat>, ghost view: View)
    returns (e: Entry, ghost s: Start)
    requires Strayed(v, hands, d, chains, held, h, cs, view)
    ensures |v.m.dir| == |d.files| && |v.m.dir| !in hands
    ensures fresh(e) && e.slot == |v.m.dir| && e.told == Beside(v.m).dir && Starting(v, e, s)
    ensures s.m == Beside(v.m) && s.past == v.history && s.history == Retold(v.history, e.told) && s.dir == v.m.dir
    ensures Going(v.shape, s, hands[|v.m.dir| := h], DeskBeside(d, view), chains + [[]], held[|v.m.dir| := cs], |v.m.dir|)
    ensures h == Handle(e.first, e.size, e.walked, e.walkedCluster, h.dirty)
  {
    ghost var n, m1, c1 := |v.m.dir|, Beside(v.m), chains + [[]];
    BesideHolds(v.shape, v.m.fat, v.m.dir, v.m.data, d.files, chains);
    BesideHands(v.shape, v.m, chains, hands, held, d.open, h, cs, view);
    HandGoing(v.shape, m1, hands[n := h], DeskBeside(d, view), c1, held[n := cs], n, v.history);
    s := StartOf(m1, h, v.history, c1, n, cs, d.files + [File("", [])]).(dir := v.m.dir);
    e := new Entry(|v.m.dir|, h.first, h.size, h.walked, h.walkedCluster, m1.dir);
    ResumedStarts(v, e, s, c1, cs, d.files + [File("", [])]);
  }

  /** What such a write makes of the desk: nothing of the files of the records. */
  lemma StoredBeside(d: Desk, view: View, d1: Desk, offset: nat, bytes: seq<byte>, ok: bool)
    requires PutDone(DeskBeside(d, view), d1, |d.files|, offset, bytes, ok)
    ensures |d.files| in d1.open && d1 == DeskBeside(d, d1.open[|d.files|])
    ensures StoredInto(view.contents, d1.open[|d.files|].contents, offset, bytes, ok) && d1.open[|d.files|].dirty == (view.dirty || ok)
  {
    var n := |d.files|;
    assert d1.files == (d.files + [File("", [])])[n := d1.files[n]];
    assert d1.open == d.open[n := view][n := d1.open[n]];
  }

  lemma HandsBesideNow(m0: Medium, f1: Table, hands: map<nat, Handle>, held: map<nat, seq<nat>>, n: nat, h: Handle, cs: seq<nat>,
                       now: map<nat, Handle>, held1: map<nat, seq<nat>>)
    requires HeldGrew(m0.fat, f1, held[n := cs], held1, n) && n in now && now == hands[n := h][n := now[n]]
    ensures n in held1 && held1 == held[n := held1[n]] && now == hands[n := now[n]]
  {
  }

  /** The stray handle has the bytes stored, and everything else is as it was. */
  lemma StrayWritten(v: Volume, hands: map<nat, Handle>, d: Desk, held: map<nat, seq<nat>>, view1: View,
                     h1: Handle, longer: seq<seq<nat>>, cs1: seq<nat>)
    requires |v.m.dir| == |d.files| && |v.m.dir| !in hands && hands.Keys == held.Keys == d.open.Keys
    requires forall k :: k in hands ==> k < |v.m.dir|
    requires DeskedAs(v, Beside(v.m).dir, hands[|v.m.dir| := h1], DeskBeside(d, view1), longer, held[|v.m.dir| := cs1])
    ensures |longer| == |v.m.dir| + 1 && Strayed(v, hands, d, longer[..|v.m.dir|], held, h1, cs1, view1)
  {
    var n := |v.m.dir|;
    BackHolds(v.shape, v.m.fat, v.m.dir, v.m.data, d.files + [File("", [])], longer);
    BackHands(v.shape, v.m, longer[..n], hands, held, d.open, h1, cs1, view1);
    assert (d.files + [File("", [])])[..n] == d.files;
  }

  /** Every cut in such a write shows all the records' files. */
  lemma StrayCuts(g: Shape, h0: seq<Medium>, h1: seq<Medium>, dir: seq<Slot>, files: seq<File>, from: nat, x: seq<byte>)
    requires |files| == |dir| && SameRecords(h0, h1, dir)
    requires AllTorn(g, Retold(h0, dir + [Used("", 0, 0)]), Retold(h1, dir + [Used("", 0, 0)]), files + [File("", [])], |dir|, from, x)
    ensures AllWhole(g, h0, h1, files)
  {
    var dir1, files1 := dir + [Used("", 0, 0)], files + [File("", [])];
    forall i | |h0| <= i < |h1|
      ensures Whole(g, h1[i], files)
    {
      var m := Retold(h1, dir1)[i];
      assert Torn(g, m, files1, |dir|, from, x);
      var file :| Alike(file, files1[|dir|], from, x) && Whole(g, m, files1[|dir| := file]);
      var longer :| Holds(g, m.fat, m.dir, m.data, files1[|dir| := file], longer);
      BackHolds(g, m.fat, dir, m.data, files1[|dir| := file], longer);
      assert files1[|dir| := file][..|dir|] == files;
      assert Holds(g, h1[i].fat, h1[i].dir, h1[i].data, files, longer[..|dir|]);
    }
  }

  /**
   Bytes written through a stray handle: they land where it reads them, no
   file of any record changes, nor what any other handle reads, at no cut.
   */
  method WriteStray(v: Volume, hands: map<nat, Handle>, h: Handle, offset: nat, bytes: seq<byte>, ghost d: Desk, ghost chains: seq<seq<nat>>,
                    ghost held: map<nat, seq<nat>>, ghost cs: seq<nat>, ghost view: View)
    returns (ok: bool, h1: Handle, ghost c1: seq<seq<nat>>, ghost cs1: seq<nat>, ghost view1: View)
    requires Strayed(v, hands, d, chains, held, h, cs, view)
    modifies v`m, v`dirty, v`history, v`cache, v`cacheSector, v`table, v`hint
    ensures Strayed(v, hands, d, c1, held, h1, cs1, view1) && v.m.dir == old(v.m.dir)
    ensures StoredInto(view.contents, view1.contents, offset, bytes, ok) && view1.dirty == (view.dirty || ok)
    ensures AllWhole(v.shape, old(v.history), v.history, d.files)
    ensures bytes != [] && offset + |bytes| > MAX_FILE_BYTES ==>
      !ok && v.m == old(v.m) && v.history == old(v.history) && h1 == h && cs1 == cs && view1 == view
    ensures !ok ==> offset + |bytes| > MAX_FILE_BYTES || (NoneFree(v.shape, v.m.fat) && v.shape.clusterSize * |cs1| < offset + |bytes|)
  {
    StrayedFacts(v, hands, d, chains, held, h, cs, view);
    ghost var m0, h0, n := v.m, v.history, |v.m.dir|;
    var e, now;
    ghost var s, d1, longer, held1;
    e, s := ResumeStray(v, hands, h, d, chains, held, cs, view);
    ok, now, d1, longer, held1 := PutThrough(v, e, offset, bytes, hands[|v.m.dir| := h], DeskBeside(d, view), chains + [[]], held[n := cs], s);
    StoredBeside(d, view, d1, offset, bytes, ok);
    HandsBesideNow(m0, v.m.fat, hands, held, n, h, cs, now, held1);
    StrayCuts(v.shape, h0, v.history, m0.dir, d.files, offset, bytes);
    h1, c1, cs1, view1 := now[|v.m.dir|], longer[..n], held1[n], d1.open[n];
    StrayWritten(v, hands, d, held, view1, h1, longer, cs1);
  }

  lemma StrayedFacts(v: Volume, hands: map<nat, Handle>, d: Desk, chains: seq<seq<nat>>, held: map<nat, seq<nat>>, h: Handle, cs: seq<nat>, view: View)
    requires Strayed(v, hands, d, chains, held, h, cs, view)
    ensures hands.Keys == held.Keys == d.open.Keys && forall k :: k in hands ==> k < |v.m.dir|
  {
    HandsAreRecords(v.shape, v.m, chains, hands, held, d.open);
  }
}
