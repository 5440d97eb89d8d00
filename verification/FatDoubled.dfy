/** A file a power cut left under two names: what the check makes of it, of every other file, and of the free space; and what a second check does. */
module FatDoubled {
  import opened FatVolume
  import opened FatTable
  import opened FatVerdict
  import opened FatFiles
  import opened FatFollow
  import opened FatCourse
  import opened FatCheck
  import opened FatClean
  import opened FatContents
  import opened FatChains

  function Later(src: nat, dst: nat): nat { if src < dst then dst else src }
  function Sooner(src: nat, dst: nat): nat { if src < dst then src else dst }

  /** Two records on one chain, and otherwise every record on a whole chain of its own. */
  ghost predicate Twice(g: Shape, f: Table, dir: seq<Slot>, chains: seq<seq<nat>>, lo: nat, hi: nat) {
    && GoodShape(g) && |chains| == |dir| && lo < hi < |dir| && chains[lo] == chains[hi] && chains[hi] != []
    && dir[lo].Used? && dir[hi].Used? && dir[lo].size == dir[hi].size
    && (forall k {:trigger SlotSound(g, f, dir[k], chains[k])} :: 0 <= k < |dir| ==> SlotSound(g, f, dir[k], chains[k]))
    && (forall j, k {:trigger Apart(chains[j], chains[k])} :: 0 <= j < |dir| && 0 <= k < |dir| && j != k && j != hi && k != hi ==> Apart(chains[j], chains[k]))
  }

  lemma DoubledIsTwice(g: Shape, m: Medium, files: seq<File>, src: nat, dst: nat) returns (chains: seq<seq<nat>>)
    requires GoodShape(g) && Doubled(g, m, files, src, dst) && m.dir[src].first != 0
    ensures Twice(g, m.fat, m.dir, chains, Sooner(src, dst), Later(src, dst))
    ensures src < |files| && dst < |files| && files[dst].File?
    ensures Readable(g, m, chains, files[src := File(m.dir[src].name, files[dst].contents)])
  {
    var one := m.dir[src := Vacant];
    var apart :| Holds(g, m.fat, one, m.data, files, apart);
    assert SlotSound(g, m.fat, one[dst], apart[dst]) && FileOf(one[dst], m.data, apart[dst]) == files[dst];
    chains := apart[src := apart[dst]];
    forall k | 0 <= k < |m.dir|
      ensures SlotSound(g, m.fat, m.dir[k], chains[k])
      ensures k != src ==> FileOf(m.dir[k], m.data, chains[k]) == files[k]
    {
      if k != src {
        assert SlotSound(g, m.fat, one[k], apart[k]) && FileOf(one[k], m.data, apart[k]) == files[k];
      }
    }
    var hi := Later(src, dst);
    forall j, k | 0 <= j < |m.dir| && 0 <= k < |m.dir| && j != k && j != hi && k != hi
      ensures Apart(chains[j], chains[k])
    {
      var j1, k1 := if j == src then dst else j, if k == src then dst else k;
      assert Apart(apart[j1], apart[k1]);
    }
  }

  /** The later of the two runs into the sooner, and no other record into any. */
  lemma TwiceContests(g: Shape, f: Table, dir: seq<Slot>, chains: seq<seq<nat>>, lo: nat, hi: nat)
    requires Twice(g, f, dir, chains, lo, hi)
    ensures forall k :: 0 <= k < |chains| ==> (Contests(chains, k) <==> k == hi)
    ensures Crossings(chains, |chains|) == 1
  {
    assert chains[hi][0] in chains[lo] && chains[hi][0] in chains[hi];
    assert Met(chains, hi, chains[hi][0]);
    forall k | 0 <= k < |chains| && k != hi
      ensures !Contests(chains, k)
    {
      forall j | 0 <= j < k
        ensures Apart(chains[j], chains[k])
      {
        if j == hi { assert Apart(chains[lo], chains[k]); }
      }
      ApartIsUncontested(chains, k);
    }
    OneCrossing(chains, |chains|, hi);
  }

  lemma {:induction false} OneCrossing(walks: seq<seq<nat>>, n: nat, hi: nat)
    requires n <= |walks| && hi < |walks| && forall k :: 0 <= k < |walks| ==> (Contests(walks, k) <==> k == hi)
    ensures Crossings(walks, n) == if hi < n then 1 else 0
  {
    if n > 0 { OneCrossing(walks, n - 1, hi); }
  }

  /** Whole chains are the walks, shared or not. */
  lemma WholeWalks(g: Shape, f: Table, dir: seq<Slot>, chains: seq<seq<nat>>, walks: seq<seq<nat>>)
    requires AllWalks(g, f, dir, walks) && |chains| == |dir|
    requires forall k {:trigger SlotSound(g, f, dir[k], chains[k])} :: 0 <= k < |dir| ==> SlotSound(g, f, dir[k], chains[k])
    ensures walks == chains
  {
    forall k | 0 <= k < |dir|
      ensures walks[k] == chains[k]
    {
      assert SlotSound(g, f, dir[k], chains[k]) && WalkOf(g, f, dir[k], walks[k]);
      SoundIsWalk(g, f, dir[k], chains[k]);
      WalkOfUnique(g, f, dir[k], walks[k], chains[k]);
    }
  }

  ghost function CheckedChains(g: Shape, dir: seq<Slot>, chains: seq<seq<nat>>): (kept: seq<seq<nat>>)
    requires g.clusterSize > 0 && |chains| == |dir|
    ensures |kept| == |dir|
  {
    seq(|dir|, k requires 0 <= k < |dir| => CheckedChain(g, dir[k], chains[k]))
  }

  /** What the check leaves: the later record as it was, every other one put right, and exactly the clusters nobody needs free. */
  ghost predicate TwiceChecked(g: Shape, f: Table, dir: seq<Slot>, chains: seq<seq<nat>>, hi: nat, f1: Table, dir1: seq<Slot>) {
    && g.clusterSize > 0 && |dir1| == |dir| == |chains| && |f1| == |f| && hi < |dir| && dir1[hi] == dir[hi]
    && (forall k {:trigger dir1[k]} :: 0 <= k < |dir| && k != hi ==> dir1[k] == CheckedSlot(g, dir[k], |chains[k]|))
    && (forall k {:trigger Exact(g, f1, dir1[k], CheckedChain(g, dir[k], chains[k]))} :: 0 <= k < |dir| && k != hi ==>
          Exact(g, f1, dir1[k], CheckedChain(g, dir[k], chains[k])))
    && (forall c: nat {:trigger Held(CheckedChains(g, dir, chains), c)} :: c < |f| && ValidCluster(g, c) ==>
          (f1[c] == FREE <==> !Held(CheckedChains(g, dir, chains), c) && f[c] != BAD))
    && (forall c: nat {:trigger f1[c]} :: c < |f| && ValidCluster(g, c) && f[c] == BAD ==> f1[c] == BAD)
  }

  lemma TwiceIsChecked(g: Shape, f: Table, dir: seq<Slot>, chains: seq<seq<nat>>, lo: nat, hi: nat, f1: Table, dir1: seq<Slot>)
    requires Twice(g, f, dir, chains, lo, hi) && CheckedTo(g, f, dir, chains, f1, dir1)
    ensures TwiceChecked(g, f, dir, chains, hi, f1, dir1)
  {
    TwiceContests(g, f, dir, chains, lo, hi);
    forall k | 0 <= k < |dir|
      ensures k == hi ==> dir1[k] == dir[k]
      ensures k != hi ==> dir1[k] == CheckedSlot(g, dir[k], |chains[k]|) && Exact(g, f1, dir1[k], CheckedChain(g, dir[k], chains[k]))
    {
      assert Dealt(g, f, dir, chains, f1, dir1, k) && SlotSound(g, f, dir[k], chains[k]);
      if dir[k].Used? { AnswerSound(g, f, dir[k], chains[k]); }
    }
    forall c: nat | c < |f| && ValidCluster(g, c)
      ensures f1[c] == FREE <==> !Held(CheckedChains(g, dir, chains), c) && f[c] != BAD
      ensures f[c] == BAD ==> f1[c] == BAD
    {
      TwiceFreed(g, f, dir, chains, lo, hi, f1, dir1, c);
    }
  }

  lemma WholeIsUsed(g: Shape, f: Table, dir: seq<Slot>, chains: seq<seq<nat>>, k: nat, c: nat)
    requires k < |dir| == |chains| && SlotSound(g, f, dir[k], chains[k]) && c in chains[k]
    ensures c < |f| && f[c] != FREE && f[c] != BAD
  {
    var i :| 0 <= i < |chains[k]| && chains[k][i] == c;
    LinkInChain(g, f, chains[k], i);
  }

  lemma TwiceFreed(g: Shape, f: Table, dir: seq<Slot>, chains: seq<seq<nat>>, lo: nat, hi: nat, f1: Table, dir1: seq<Slot>, c: nat)
    requires Twice(g, f, dir, chains, lo, hi) && CheckedTo(g, f, dir, chains, f1, dir1) && c < |f| && ValidCluster(g, c)
    ensures f1[c] == FREE <==> !Held(CheckedChains(g, dir, chains), c) && f[c] != BAD
    ensures f[c] == BAD ==> f1[c] == BAD
  {
    var kept := CheckedChains(g, dir, chains);
    TwiceContests(g, f, dir, chains, lo, hi);
    if Met(chains, |chains|, c) {
      var k :| 0 <= k < |chains| && c in chains[k];
      var j := if k == hi then lo else k;
      WholeIsUsed(g, f, dir, chains, j, c);
      assert Dealt(g, f, dir, chains, f1, dir1, j);
      AnswerSound(g, f, dir[j], chains[j]);
      assert kept[j] == KeptOf(g, f, dir[j], chains[j]);
      if c in kept[j] {
        KeptInUse(g, f1, dir1[j], kept[j], c);
        assert Met(kept, |kept|, c);
      } else {
        TwiceOwner(g, f, dir, chains, lo, hi, kept, c, j);
      }
    } else {
      forall k | 0 <= k < |kept|
        ensures c !in kept[k]
      {
        assert c in chains[k] ==> Met(chains, |chains|, c);
      }
    }
  }

  /** A cluster its own record does not keep, no other keeps. */
  lemma TwiceOwner(g: Shape, f: Table, dir: seq<Slot>, chains: seq<seq<nat>>, lo: nat, hi: nat, kept: seq<seq<nat>>, c: nat, j: nat)
    requires Twice(g, f, dir, chains, lo, hi) && kept == CheckedChains(g, dir, chains) && j < |dir| && j != hi
    requires c in chains[j] && c !in kept[j]
    ensures !Held(kept, c)
  {
    forall k | 0 <= k < |kept|
      ensures c !in kept[k]
    {
      if k != j && k != hi { assert Apart(chains[k], chains[j]); }
      if k == hi && j != lo { assert Apart(chains[lo], chains[j]); }
    }
  }

  // ------------------------------------------------------------------
  // Reading it afterwards
  // ------------------------------------------------------------------

  /** With bytes to its size, the file is whole under both names. */
  lemma TwiceLeads(g: Shape, f: Table, dir: seq<Slot>, chains: seq<seq<nat>>, lo: nat, hi: nat, f1: Table, dir1: seq<Slot>)
    requires Twice(g, f, dir, chains, lo, hi) && TwiceChecked(g, f, dir, chains, hi, f1, dir1) && dir[hi].size > 0
    ensures forall k {:trigger SlotSound(g, f1, dir1[k], CheckedChains(g, dir, chains)[k])} :: 0 <= k < |dir| ==>
      SlotSound(g, f1, dir1[k], CheckedChains(g, dir, chains)[k])
    ensures CheckedChains(g, dir, chains)[hi] == CheckedChains(g, dir, chains)[lo] != []
  {
    var kept := CheckedChains(g, dir, chains);
    var s := dir[hi];
    assert SlotSound(g, f, s, chains[hi]);
    RoundingFits(g, s, |chains[hi]|);
    forall k | 0 <= k < |dir|
      ensures SlotSound(g, f1, dir1[k], kept[k])
    {
      var j := if k == hi then lo else k;
      assert Exact(g, f1, dir1[j], CheckedChain(g, dir[j], chains[j]));
    }
  }

  /** Without any, the later name leads to a cluster that is free. */
  lemma TwiceLost(g: Shape, f: Table, dir: seq<Slot>, chains: seq<seq<nat>>, lo: nat, hi: nat, f1: Table, dir1: seq<Slot>)
    requires Twice(g, f, dir, chains, lo, hi) && TwiceChecked(g, f, dir, chains, hi, f1, dir1) && dir[hi].size == 0
    ensures chains[hi][0] < |f1| && f1[chains[hi][0]] == FREE && !Held(CheckedChains(g, dir, chains), chains[hi][0])
    ensures forall any :: !SlotSound(g, f1, dir1[hi], any)
  {
    var kept, c := CheckedChains(g, dir, chains), chains[hi][0];
    assert c in chains[lo] && SlotSound(g, f, dir[hi], chains[hi]);
    WholeIsUsed(g, f, dir, chains, lo, c);
    ClustersForBounds(0, g.clusterSize);
    TwiceOwner(g, f, dir, chains, lo, hi, kept, c, lo);
    forall any
      ensures !SlotSound(g, f1, dir1[hi], any)
    {
      if SlotSound(g, f1, dir1[hi], any) { LinkInChain(g, f1, any, 0); }
    }
  }

  /** Every file of a doubled medium, both names of the one included, is carried through the check if and only if that one has bytes. */
  lemma TwiceCarried(g: Shape, m: Medium, files: seq<File>, chains: seq<seq<nat>>, lo: nat, hi: nat, m2: Medium)
    requires Twice(g, m.fat, m.dir, chains, lo, hi) && TwiceChecked(g, m.fat, m.dir, chains, hi, m2.fat, m2.dir)
    requires DataFits(g, m.data) && m2.data == m.data && Shows(m.dir, m.data, chains, files)
    ensures Carried(g, m2, files, |files|) <==> m.dir[hi].size > 0
  {
    if m.dir[hi].size > 0 {
      var kept := CheckedChains(g, m.dir, chains);
      var after := seq(|files|, k requires 0 <= k < |files| => FileOf(m2.dir[k], m2.data, kept[k]));
      TwiceLeads(g, m.fat, m.dir, chains, lo, hi, m2.fat, m2.dir);
      forall k | 0 <= k < |files|
        ensures FileKept(files[k], after[k], g.clusterSize)
      {
        assert SlotSound(g, m.fat, m.dir[k], chains[k]) && FileOf(m.dir[k], m.data, chains[k]) == files[k];
        if k == hi {
          SameFile(g, m.fat, m.dir[k], m.data, chains[k]);
        } else {
          CheckedFile(g, m.fat, m.dir[k], m.data, chains[k]);
        }
      }
      assert Readable(g, m2, kept, after) && AllKept(g, files, after, |files|);
    } else {
      TwiceLost(g, m.fat, m.dir, chains, lo, hi, m2.fat, m2.dir);
      LostIsNotCarried(g, m2, files, hi);
    }
  }

  lemma ReadableSlot(g: Shape, m: Medium, chains: seq<seq<nat>>, files: seq<File>, k: nat)
    requires Readable(g, m, chains, files) && k < |m.dir|
    ensures k < |chains| && SlotSound(g, m.fat, m.dir[k], chains[k])
  {
  }

  lemma LostIsNotCarried(g: Shape, m: Medium, files: seq<File>, k: nat)
    requires k < |m.dir| && forall any :: !SlotSound(g, m.fat, m.dir[k], any)
    ensures !Carried(g, m, files, |files|)
  {
    forall chains, after | Readable(g, m, chains, after)
      ensures false
    {
      ReadableSlot(g, m, chains, after, k);
    }
  }

  // ------------------------------------------------------------------
  // Checking it again
  // ------------------------------------------------------------------

  /** A second check has nothing to repair if and only if the file has bytes. */
  lemma TwiceAgain(g: Shape, f: Table, dir: seq<Slot>, chains: seq<seq<nat>>, lo: nat, hi: nat, m2: Medium, walks: seq<seq<nat>>, found: Findings)
    requires Twice(g, f, dir, chains, lo, hi) && TwiceChecked(g, f, dir, chains, hi, m2.fat, m2.dir) && m2.copy == m2.fat
    requires AllWalks(g, m2.fat, m2.dir, walks) && CountedTo(g, m2, walks, found)
    ensures Quiet(Uncrossed(found)) <==> dir[hi].size > 0
    ensures dir[hi].size > 0 ==> found.crossed == 1
  {
    if dir[hi].size > 0 {
      TwiceAgainQuiet(g, f, dir, chains, lo, hi, m2, walks);
    } else {
      TwiceAgainLoud(g, f, dir, chains, lo, hi, m2, walks);
    }
  }

  lemma TwiceAgainQuiet(g: Shape, f: Table, dir: seq<Slot>, chains: seq<seq<nat>>, lo: nat, hi: nat, m2: Medium, walks: seq<seq<nat>>)
    requires Twice(g, f, dir, chains, lo, hi) && TwiceChecked(g, f, dir, chains, hi, m2.fat, m2.dir)
    requires AllWalks(g, m2.fat, m2.dir, walks) && dir[hi].size > 0
    ensures Crossings(walks, |walks|) == 1
    ensures Faultless(g, m2.fat, m2.dir, walks, |walks|) && NoneLost(g, m2.fat, walks)
  {
    var kept := CheckedChains(g, dir, chains);
    TwiceLeads(g, f, dir, chains, lo, hi, m2.fat, m2.dir);
    WholeWalks(g, m2.fat, m2.dir, kept, walks);
    TwiceKeptContests(g, f, dir, chains, lo, hi, kept);
    forall k | 0 <= k < |dir| && m2.dir[k].Used? && k != hi
      ensures AnswerOf(g, m2.fat, m2.dir[k], walks[k]) == Agree
    {
      assert Exact(g, m2.fat, m2.dir[k], CheckedChain(g, dir[k], chains[k]));
      AnswerSound(g, m2.fat, m2.dir[k], walks[k]);
    }
    forall c: nat | c < |m2.fat| && ValidCluster(g, c) && m2.fat[c] != FREE && m2.fat[c] != BAD
      ensures Met(walks, |walks|, c)
    {
      TwiceUsed(g, f, dir, chains, hi, m2.fat, m2.dir, c);
    }
  }

  /** After the check, what is neither free nor defective is held. */
  lemma TwiceUsed(g: Shape, f: Table, dir: seq<Slot>, chains: seq<seq<nat>>, hi: nat, f1: Table, dir1: seq<Slot>, c: nat)
    requires TwiceChecked(g, f, dir, chains, hi, f1, dir1) && c < |f1| && ValidCluster(g, c) && f1[c] != FREE
    ensures Held(CheckedChains(g, dir, chains), c) || f1[c] == BAD
  {
  }

  lemma TwiceKeptContests(g: Shape, f: Table, dir: seq<Slot>, chains: seq<seq<nat>>, lo: nat, hi: nat, kept: seq<seq<nat>>)
    requires Twice(g, f, dir, chains, lo, hi) && kept == CheckedChains(g, dir, chains) && kept[hi] == kept[lo] != []
    ensures forall k :: 0 <= k < |kept| ==> (Contests(kept, k) <==> k == hi)
    ensures Crossings(kept, |kept|) == 1
  {
    assert kept[hi][0] in kept[lo] && kept[hi][0] in kept[hi];
    assert Met(kept, hi, kept[hi][0]);
    forall k | 0 <= k < |kept| && k != hi
      ensures !Contests(kept, k)
    {
      forall j | 0 <= j < k
        ensures Apart(kept[j], kept[k])
      {
        var j1 := if j == hi then lo else j;
        assert Apart(chains[j1], chains[k]);
        assert kept[j] == CheckedChain(g, dir[j1], chains[j1]) && kept[k] == CheckedChain(g, dir[k], chains[k]);
        FrontsApart(chains[j1], chains[k], kept[j], kept[k]);
      }
      ApartIsUncontested(kept, k);
    }
    OneCrossing(kept, |kept|, hi);
  }

  lemma TwiceAgainLoud(g: Shape, f: Table, dir: seq<Slot>, chains: seq<seq<nat>>, lo: nat, hi: nat, m2: Medium, walks: seq<seq<nat>>)
    requires Twice(g, f, dir, chains, lo, hi) && TwiceChecked(g, f, dir, chains, hi, m2.fat, m2.dir)
    requires AllWalks(g, m2.fat, m2.dir, walks) && dir[hi].size == 0
    ensures !Faultless(g, m2.fat, m2.dir, walks, |walks|)
  {
    var c := chains[hi][0];
    TwiceLost(g, f, dir, chains, lo, hi, m2.fat, m2.dir);
    assert SlotSound(g, f, dir[hi], chains[hi]);
    assert WalkOf(g, m2.fat, m2.dir[hi], walks[hi]);
    assert Walks(g, m2.fat, c, [c]);
    WalkUnique(g, m2.fat, c, walks[hi], [c]);
    forall j | 0 <= j < hi
      ensures Apart(walks[j], walks[hi])
    {
      assert Exact(g, m2.fat, m2.dir[j], CheckedChain(g, dir[j], chains[j])) && WalkOf(g, m2.fat, m2.dir[j], walks[j]);
      SoundIsWalk(g, m2.fat, m2.dir[j], CheckedChain(g, dir[j], chains[j]));
      WalkOfUnique(g, m2.fat, m2.dir[j], walks[j], CheckedChain(g, dir[j], chains[j]));
      assert CheckedChains(g, dir, chains)[j] == walks[j];
    }
    ApartIsUncontested(walks, hi);
    assert AnswerOf(g, m2.fat, m2.dir[hi], walks[hi]) == BreaksAt(c, 1);
  }
}
