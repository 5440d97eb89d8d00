/** Where chains cross, what a second check finds of what the first one left. */
module FatAgain {
  import opened FatVolume
  import opened FatTable
  import opened FatVerdict
  import opened FatFollow
  import opened FatCourse
  import opened FatCheck
  import opened FatClean

  // ------------------------------------------------------------------
  // Where a walk runs into an earlier one
  // ------------------------------------------------------------------

  /** The walk's `p`th cluster is the first that an earlier walk has. */
  ghost predicate EntersAt(walks: seq<seq<nat>>, k: nat, p: nat) {
    k < |walks| && p < |walks[k]| && Met(walks, k, walks[k][p]) && forall q :: 0 <= q < p ==> !Met(walks, k, walks[k][q])
  }

  /** The cluster is a record's own: no earlier walk has it, nor any cluster before it on the walk. */
  ghost predicate OwnPart(walks: seq<seq<nat>>, k: nat, c: nat) {
    exists p: nat :: EntersAt(walks, k, p) && c in walks[k][..p]
  }

  /** An earlier record, put right, walked to the cluster and does not keep it. */
  ghost predicate Spent(g: Shape, f: Table, dir: seq<Slot>, walks: seq<seq<nat>>, k: nat, c: nat) {
    g.clusterSize > 0 &&
    exists j {:trigger walks[j]} :: 0 <= j < k && j < |walks| && j < |dir| && !Contests(walks, j) && c in walks[j] && c !in KeptOf(g, f, dir[j], walks[j])
  }

  /** The record runs into a walk at a cluster that is given back. */
  ghost predicate LedAstray(g: Shape, f: Table, dir: seq<Slot>, walks: seq<seq<nat>>, k: nat) {
    exists p: nat :: EntersAt(walks, k, p) && Spent(g, f, dir, walks, k, walks[k][p])
  }

  lemma {:induction false} FirstMet(walks: seq<seq<nat>>, k: nat, n: nat) returns (p: nat)
    requires k < |walks| && n <= |walks[k]| && exists q :: 0 <= q < n && Met(walks, k, walks[k][q])
    ensures EntersAt(walks, k, p)
    decreases n
  {
    if q :| 0 <= q < n - 1 && Met(walks, k, walks[k][q]) { p := FirstMet(walks, k, n - 1); } else { p := n - 1; }
  }

  /** A record contested is one that enters an earlier walk somewhere. */
  lemma ContestedEnters(walks: seq<seq<nat>>, k: nat) returns (p: nat)
    requires Contests(walks, k)
    ensures EntersAt(walks, k, p)
  {
    var c :| c in walks[k] && Met(walks, k, c);
    var q :| 0 <= q < |walks[k]| && walks[k][q] == c;
    p := FirstMet(walks, k, |walks[k]|);
  }

  lemma EntersIsContested(walks: seq<seq<nat>>, k: nat, p: nat)
    requires EntersAt(walks, k, p)
    ensures Contests(walks, k)
  {
    assert walks[k][p] in walks[k];
  }

  /** The first walk that has a cluster. */
  lemma {:induction false} FirstOwner(walks: seq<seq<nat>>, n: nat, c: nat) returns (j: nat)
    requires Met(walks, n, c) && n <= |walks|
    ensures j < n && c in walks[j] && !Met(walks, j, c)
  {
    MetMore(walks, n - 1, c);
    if Met(walks, n - 1, c) { j := FirstOwner(walks, n - 1, c); } else { j := n - 1; }
  }

  /** What the first walk that has it makes of a cluster: if contested, its own part. */
  lemma OwnerHasIt(g: Shape, f: Table, dir: seq<Slot>, walks: seq<seq<nat>>, j: nat, c: nat)
    requires AllWalks(g, f, dir, walks) && j < |walks| && c in walks[j] && !Met(walks, j, c) && Contests(walks, j)
    ensures OwnPart(walks, j, c)
  {
    var p := ContestedEnters(walks, j);
    var r :| 0 <= r < |walks[j]| && walks[j][r] == c;
    assert WalkOf(g, f, dir[j], walks[j]);
    if p <= r { MetOnward(g, f, dir, walks, j, walks[j], p, r); }
    assert walks[j][..p][r] == c;
  }

  /** What is one record's own, no other put right has walked to. */
  lemma OwnIsLeftAlone(walks: seq<seq<nat>>, k: nat, c: nat)
    requires OwnPart(walks, k, c)
    ensures k < |walks| && c in walks[k] && !Met(walks, k, c) && Contests(walks, k) && LeftAlone(walks, |walks|, c)
  {
    var p: nat :| EntersAt(walks, k, p) && c in walks[k][..p];
    EntersIsContested(walks, k, p);
    var q :| 0 <= q < p && walks[k][..p][q] == c;
    assert walks[k][q] == c;
    forall j | 0 <= j < |walks| && c in walks[j]
      ensures Contests(walks, j)
    {
      if j > k { assert Met(walks, j, c); }
    }
  }

  // ------------------------------------------------------------------
  // What the first check leaves there
  // ------------------------------------------------------------------

  /** What the first check made of this table and these records. */
  ghost predicate First(g: Shape, f: Table, dir: seq<Slot>, walks: seq<seq<nat>>, f1: Table, dir1: seq<Slot>) {
    GoodShape(g) && CheckedTo(g, f, dir, walks, f1, dir1)
  }

  /** The record keeps the cluster, or, left alone, has it for its own. */
  ghost predicate Has(g: Shape, f: Table, dir: seq<Slot>, walks: seq<seq<nat>>, j: nat, c: nat) {
    j < |walks| && j < |dir| && g.clusterSize > 0 && if Contests(walks, j) then OwnPart(walks, j, c) else c in KeptOf(g, f, dir[j], walks[j])
  }

  /** One of the first `n` records has it. */
  ghost predicate Sure(g: Shape, f: Table, dir: seq<Slot>, walks: seq<seq<nat>>, n: nat, c: nat) {
    exists j: nat :: j < n && Has(g, f, dir, walks, j, c)
  }

  lemma SureMore(g: Shape, f: Table, dir: seq<Slot>, walks: seq<seq<nat>>, n: nat, n1: nat, c: nat)
    requires Sure(g, f, dir, walks, n, c) && n <= n1
    ensures Sure(g, f, dir, walks, n1, c)
  {
  }

  /** Such a cluster is on a walk, and in use. */
  lemma SureIsUsed(g: Shape, f: Table, dir: seq<Slot>, walks: seq<seq<nat>>, f1: Table, dir1: seq<Slot>, n: nat, c: nat)
    requires First(g, f, dir, walks, f1, dir1) && Sure(g, f, dir, walks, n, c)
    ensures Met(walks, n, c) && c < |f1| && f1[c] != FREE
  {
    var j: nat :| j < n && Has(g, f, dir, walks, j, c);
    if Contests(walks, j) {
      var next := OwnLink(g, f, dir, walks, f1, dir1, j, c);
    } else {
      assert Dealt(g, f, dir, walks, f1, dir1, j);
      KeptInUse(g, f1, dir1[j], KeptOf(g, f, dir[j], walks[j]), c);
      KeptInWalk(g, f, dir[j], walks[j]);
      PrefixMembers(KeptOf(g, f, dir[j], walks[j]), walks[j]);
    }
  }

  /** The link behind a record's own cluster is as it was, and stays on the walk. */
  lemma OwnLink(g: Shape, f: Table, dir: seq<Slot>, walks: seq<seq<nat>>, f1: Table, dir1: seq<Slot>, k: nat, c: nat) returns (q: nat)
    requires First(g, f, dir, walks, f1, dir1) && OwnPart(walks, k, c)
    ensures k < |walks| && q + 1 < |walks[k]| && walks[k][q] == c && c < |f1| && f1[c] == walks[k][q + 1] != FREE
    ensures EntersAt(walks, k, q + 1) || OwnPart(walks, k, walks[k][q + 1])
    ensures Met(walks, |walks|, c) && c in walks[k]
  {
    OwnIsLeftAlone(walks, k, c);
    var p: nat :| EntersAt(walks, k, p) && c in walks[k][..p];
    q :| 0 <= q < p && walks[k][..p][q] == c;
    assert WalkOf(g, f, dir[k], walks[k]);
    LinkedNext(g, f, walks[k], q);
    assert Met(walks, |walks|, c);
    if q + 1 < p { assert walks[k][..p][q + 1] == walks[k][q + 1]; }
  }

  /** Where a record enters an earlier walk at a cluster nobody gives back, somebody has it. */
  lemma EntrySure(g: Shape, f: Table, dir: seq<Slot>, walks: seq<seq<nat>>, f1: Table, dir1: seq<Slot>, k: nat, p: nat)
    requires First(g, f, dir, walks, f1, dir1) && EntersAt(walks, k, p) && !Spent(g, f, dir, walks, k, walks[k][p])
    ensures Sure(g, f, dir, walks, k, walks[k][p])
  {
    var c := walks[k][p];
    var j := FirstOwner(walks, k, c);
    if Contests(walks, j) { OwnerHasIt(g, f, dir, walks, j, c); }
    assert Has(g, f, dir, walks, j, c);
  }

  /** None of the first `n` records is led astray. */
  ghost predicate NoneAstray(g: Shape, f: Table, dir: seq<Slot>, walks: seq<seq<nat>>, n: nat) {
    forall k: nat :: k < n ==> !LedAstray(g, f, dir, walks, k)
  }

  /** From a sure cluster the new table leads to another, or ends. */
  lemma SureOnward(g: Shape, f: Table, dir: seq<Slot>, walks: seq<seq<nat>>, f1: Table, dir1: seq<Slot>, n: nat, c: nat)
    requires First(g, f, dir, walks, f1, dir1) && NoneAstray(g, f, dir, walks, n) && Sure(g, f, dir, walks, n, c)
    requires c < |f1| && ValidCluster(g, f1[c])
    ensures Sure(g, f, dir, walks, n, f1[c])
  {
    var j: nat :| j < n && Has(g, f, dir, walks, j, c);
    if Contests(walks, j) {
      OwnOnward(g, f, dir, walks, f1, dir1, j, c);
      SureMore(g, f, dir, walks, j + 1, n, f1[c]);
    } else {
      assert Dealt(g, f, dir, walks, f1, dir1, j);
      KeptOnward(g, f1, dir1[j], KeptOf(g, f, dir[j], walks[j]), c);
      assert Has(g, f, dir, walks, j, f1[c]);
    }
  }

  lemma OwnOnward(g: Shape, f: Table, dir: seq<Slot>, walks: seq<seq<nat>>, f1: Table, dir1: seq<Slot>, j: nat, c: nat)
    requires First(g, f, dir, walks, f1, dir1) && !LedAstray(g, f, dir, walks, j) && OwnPart(walks, j, c)
    ensures c < |f1| && Sure(g, f, dir, walks, j + 1, f1[c])
  {
    OwnIsLeftAlone(walks, j, c);
    var q := OwnLink(g, f, dir, walks, f1, dir1, j, c);
    if EntersAt(walks, j, q + 1) {
      EntrySure(g, f, dir, walks, f1, dir1, j, q + 1);
      SureMore(g, f, dir, walks, j, j + 1, f1[c]);
    } else {
      assert Has(g, f, dir, walks, j, f1[c]);
    }
  }

  lemma KeptOnward(g: Shape, f: Table, s: Slot, kept: seq<nat>, c: nat)
    requires Exact(g, f, s, kept) && c in kept && c < |f| && ValidCluster(g, f[c]) && GoodShape(g)
    ensures f[c] in kept
  {
    var i :| 0 <= i < |kept| && kept[i] == c;
    LinkInChain(g, f, kept, i);
  }

  // ------------------------------------------------------------------
  // The walks of the second check
  // ------------------------------------------------------------------

  /** A record put right is walked as far as it keeps. */
  lemma KeptAgain(g: Shape, f: Table, dir: seq<Slot>, walks: seq<seq<nat>>, f1: Table, dir1: seq<Slot>, again: seq<seq<nat>>, k: nat)
    requires First(g, f, dir, walks, f1, dir1) && AllWalks(g, f1, dir1, again) && k < |dir| && !Contests(walks, k)
    ensures again[k] == KeptOf(g, f, dir[k], walks[k])
  {
    assert Dealt(g, f, dir, walks, f1, dir1, k) && WalkOf(g, f1, dir1[k], again[k]);
    SoundIsWalk(g, f1, dir1[k], KeptOf(g, f, dir[k], walks[k]));
    WalkOfUnique(g, f1, dir1[k], again[k], KeptOf(g, f, dir[k], walks[k]));
  }

  /** A record left alone is walked to where it enters an earlier walk, as before. */
  lemma OwnAgain(g: Shape, f: Table, dir: seq<Slot>, walks: seq<seq<nat>>, f1: Table, dir1: seq<Slot>, again: seq<seq<nat>>, k: nat, p: nat)
    requires First(g, f, dir, walks, f1, dir1) && AllWalks(g, f1, dir1, again) && EntersAt(walks, k, p)
    ensures dir[k].Used? && dir1[k] == dir[k] && dir[k].first == walks[k][0] != 0
    ensures Walks(g, f1, dir[k].first, again[k]) && p < |again[k]| && again[k][..p + 1] == walks[k][..p + 1]
    ensures Linked(g, f1, walks[k][..p + 1]) && walks[k][p] < |f1|
  {
    EntersIsContested(walks, k, p);
    assert Dealt(g, f, dir, walks, f1, dir1, k) && WalkOf(g, f, dir[k], walks[k]) && WalkOf(g, f1, dir1[k], again[k]);
    var part := walks[k][..p + 1];
    forall q | 0 <= q < p
      ensures f1[part[q]] == part[q + 1]
    {
      assert walks[k][..p][q] == walks[k][q];
      assert OwnPart(walks, k, walks[k][q]);
      OwnStep(g, f, dir, walks, f1, dir1, k, q);
    }
    WalkIsLongest(g, f1, dir[k].first, again[k], part);
  }

  lemma OwnStep(g: Shape, f: Table, dir: seq<Slot>, walks: seq<seq<nat>>, f1: Table, dir1: seq<Slot>, k: nat, q: nat)
    requires First(g, f, dir, walks, f1, dir1) && k < |walks| && q < |walks[k]| && OwnPart(walks, k, walks[k][q])
    ensures q + 1 < |walks[k]| && walks[k][q] < |f1| && f1[walks[k][q]] == walks[k][q + 1]
  {
    var i := OwnLink(g, f, dir, walks, f1, dir1, k, walks[k][q]);
    assert WalkOf(g, f, dir[k], walks[k]);
  }

  /** With none led astray, every cluster of the new walks is sure. */
  lemma {:induction false} AgainSure(g: Shape, f: Table, dir: seq<Slot>, walks: seq<seq<nat>>, f1: Table, dir1: seq<Slot>, again: seq<seq<nat>>, k: nat, q: nat)
    requires First(g, f, dir, walks, f1, dir1) && AllWalks(g, f1, dir1, again) && k < |dir| && q < |again[k]|
    requires NoneAstray(g, f, dir, walks, k + 1)
    ensures Sure(g, f, dir, walks, k + 1, again[k][q])
    decreases q
  {
    if !Contests(walks, k) {
      KeptAgain(g, f, dir, walks, f1, dir1, again, k);
      assert Has(g, f, dir, walks, k, again[k][q]);
    } else if q == 0 {
      EntrySureAgain(g, f, dir, walks, f1, dir1, again, k);
    } else {
      AgainSure(g, f, dir, walks, f1, dir1, again, k, q - 1);
      assert WalkOf(g, f1, dir1[k], again[k]);
      LinkedNext(g, f1, again[k], q - 1);
      SureOnward(g, f, dir, walks, f1, dir1, k + 1, again[k][q - 1]);
    }
  }

  lemma EntrySureAgain(g: Shape, f: Table, dir: seq<Slot>, walks: seq<seq<nat>>, f1: Table, dir1: seq<Slot>, again: seq<seq<nat>>, k: nat)
    requires First(g, f, dir, walks, f1, dir1) && AllWalks(g, f1, dir1, again) && k < |dir| && Contests(walks, k)
    requires !LedAstray(g, f, dir, walks, k)
    ensures again[k] != [] && Sure(g, f, dir, walks, k + 1, again[k][0])
  {
    var p := ContestedEnters(walks, k);
    OwnAgain(g, f, dir, walks, f1, dir1, again, k, p);
    assert again[k][..p + 1][0] == walks[k][..p + 1][0];
    if p == 0 {
      EntrySure(g, f, dir, walks, f1, dir1, k, 0);
      SureMore(g, f, dir, walks, k, k + 1, again[k][0]);
    } else {
      assert walks[k][..p][0] == walks[k][0];
      assert Has(g, f, dir, walks, k, again[k][0]);
    }
  }

  /** What a record has, its new walk comes to. */
  lemma HasAgain(g: Shape, f: Table, dir: seq<Slot>, walks: seq<seq<nat>>, f1: Table, dir1: seq<Slot>, again: seq<seq<nat>>, j: nat, c: nat)
    requires First(g, f, dir, walks, f1, dir1) && AllWalks(g, f1, dir1, again) && Has(g, f, dir, walks, j, c)
    ensures c in again[j]
  {
    if Contests(walks, j) {
      var p: nat :| EntersAt(walks, j, p) && c in walks[j][..p];
      OwnAgain(g, f, dir, walks, f1, dir1, again, j, p);
      var q :| 0 <= q < p && walks[j][..p][q] == c;
      assert again[j][..p + 1][q] == walks[j][..p + 1][q];
    } else {
      KeptAgain(g, f, dir, walks, f1, dir1, again, j);
    }
  }

  /** A sure cluster is met again. */
  lemma SureMetAgain(g: Shape, f: Table, dir: seq<Slot>, walks: seq<seq<nat>>, f1: Table, dir1: seq<Slot>, again: seq<seq<nat>>, n: nat, c: nat)
    requires First(g, f, dir, walks, f1, dir1) && AllWalks(g, f1, dir1, again) && Sure(g, f, dir, walks, n, c)
    ensures Met(again, n, c)
  {
    var j: nat :| j < n && Has(g, f, dir, walks, j, c);
    HasAgain(g, f, dir, walks, f1, dir1, again, j, c);
  }

  // ------------------------------------------------------------------
  // What the second check finds
  // ------------------------------------------------------------------

  /** No cluster is lost after the first check, whatever crossed. */
  lemma NoneLostAgain(g: Shape, f: Table, dir: seq<Slot>, walks: seq<seq<nat>>, f1: Table, dir1: seq<Slot>, again: seq<seq<nat>>)
    requires First(g, f, dir, walks, f1, dir1) && AllWalks(g, f1, dir1, again)
    ensures NoneLost(g, f1, again)
  {
    forall c: nat | c < |f1| && ValidCluster(g, c) && f1[c] != FREE && f1[c] != BAD
      ensures Met(again, |again|, c)
    {
      assert Met(walks, |walks|, c);
      var j := FirstOwner(walks, |walks|, c);
      if Contests(walks, j) { OwnerHasIt(g, f, dir, walks, j, c); } else { assert Dealt(g, f, dir, walks, f1, dir1, j); }
      assert Has(g, f, dir, walks, j, c);
      HasAgain(g, f, dir, walks, f1, dir1, again, j, c);
    }
  }

  /** A contested record that is not led astray is contested again. */
  lemma ContestedAgain(g: Shape, f: Table, dir: seq<Slot>, walks: seq<seq<nat>>, f1: Table, dir1: seq<Slot>, again: seq<seq<nat>>, k: nat)
    requires First(g, f, dir, walks, f1, dir1) && AllWalks(g, f1, dir1, again) && Contests(walks, k) && !LedAstray(g, f, dir, walks, k)
    ensures Contests(again, k)
  {
    var p := ContestedEnters(walks, k);
    EntrySure(g, f, dir, walks, f1, dir1, k, p);
    OwnAgain(g, f, dir, walks, f1, dir1, again, k, p);
    SureMetAgain(g, f, dir, walks, f1, dir1, again, k, walks[k][p]);
    assert again[k][..p + 1][p] == walks[k][..p + 1][p];
  }

  lemma FaultlessAgain(g: Shape, f: Table, dir: seq<Slot>, walks: seq<seq<nat>>, f1: Table, dir1: seq<Slot>, again: seq<seq<nat>>)
    requires First(g, f, dir, walks, f1, dir1) && AllWalks(g, f1, dir1, again) && NoneAstray(g, f, dir, walks, |dir|)
    ensures Faultless(g, f1, dir1, again, |again|)
  {
    forall k | 0 <= k < |dir1| && dir1[k].Used? && !Contests(again, k)
      ensures AnswerOf(g, f1, dir1[k], again[k]) == Agree
    {
      assert !LedAstray(g, f, dir, walks, k);
      if Contests(walks, k) { ContestedAgain(g, f, dir, walks, f1, dir1, again, k); }
      KeptAgain(g, f, dir, walks, f1, dir1, again, k);
      assert Dealt(g, f, dir, walks, f1, dir1, k);
      AnswerSound(g, f1, dir1[k], again[k]);
    }
  }

  /** A record led astray breaks off at the cluster given back. */
  lemma AstrayAgain(g: Shape, f: Table, dir: seq<Slot>, walks: seq<seq<nat>>, f1: Table, dir1: seq<Slot>, again: seq<seq<nat>>, k: nat, p: nat)
    requires First(g, f, dir, walks, f1, dir1) && AllWalks(g, f1, dir1, again)
    requires EntersAt(walks, k, p) && Spent(g, f, dir, walks, k, walks[k][p])
    ensures again[k] == walks[k][..p + 1] && walks[k][p] < |f1| && f1[walks[k][p]] == FREE
    ensures dir1[k].Used? && AnswerOf(g, f1, dir1[k], again[k]) != Agree
  {
    var c := walks[k][p];
    OwnAgain(g, f, dir, walks, f1, dir1, again, k, p);
    var j :| 0 <= j < k && j < |walks| && j < |dir| && !Contests(walks, j) && c in walks[j] && c !in KeptOf(g, f, dir[j], walks[j]);
    assert Dealt(g, f, dir, walks, f1, dir1, j);
    var part := walks[k][..p + 1];
    assert part[p] == c;
    WalkUnique(g, f1, dir[k].first, again[k], part);
  }

  /** The first record led astray meets nothing in the second check. */
  lemma FirstAstray(g: Shape, f: Table, dir: seq<Slot>, walks: seq<seq<nat>>, f1: Table, dir1: seq<Slot>, again: seq<seq<nat>>, k: nat)
    requires First(g, f, dir, walks, f1, dir1) && AllWalks(g, f1, dir1, again)
    requires LedAstray(g, f, dir, walks, k) && NoneAstray(g, f, dir, walks, k)
    ensures !Faultless(g, f1, dir1, again, |again|)
  {
    var p: nat :| EntersAt(walks, k, p) && Spent(g, f, dir, walks, k, walks[k][p]);
    AstrayAgain(g, f, dir, walks, f1, dir1, again, k, p);
    forall c | c in again[k]
      ensures !Met(again, k, c)
    {
      if Met(again, k, c) {
        var j :| 0 <= j < k && j < |again| && c in again[j];
        var q :| 0 <= q < |again[j]| && again[j][q] == c;
        AgainSure(g, f, dir, walks, f1, dir1, again, j, q);
        SureMore(g, f, dir, walks, j + 1, k, c);
        SureIsUsed(g, f, dir, walks, f1, dir1, k, c);
      }
    }
    assert !Contests(again, k) && again[k] == again[k];
  }

  lemma {:induction false} SomeFirst(g: Shape, f: Table, dir: seq<Slot>, walks: seq<seq<nat>>, n: nat) returns (k: nat)
    requires !NoneAstray(g, f, dir, walks, n)
    ensures k < n && LedAstray(g, f, dir, walks, k) && NoneAstray(g, f, dir, walks, k)
  {
    if NoneAstray(g, f, dir, walks, n - 1) { k := n - 1; } else { k := SomeFirst(g, f, dir, walks, n - 1); }
  }

  /**
   Whatever crossed, a second check has nothing to repair if and only if no
   record runs into an earlier one at a cluster that one gives back.
   */
  lemma CheckedAgain(g: Shape, f: Table, dir: seq<Slot>, walks: seq<seq<nat>>, m: Medium, again: seq<seq<nat>>, found: Findings)
    requires GoodShape(g) && CheckedTo(g, f, dir, walks, m.fat, m.dir) && m.copy == m.fat
    requires AllWalks(g, m.fat, m.dir, again) && CountedTo(g, m, again, found)
    ensures Quiet(Uncrossed(found)) <==> NoneAstray(g, f, dir, walks, |dir|)
  {
    NoneLostAgain(g, f, dir, walks, m.fat, m.dir, again);
    if NoneAstray(g, f, dir, walks, |dir|) {
      FaultlessAgain(g, f, dir, walks, m.fat, m.dir, again);
    } else {
      var k := SomeFirst(g, f, dir, walks, |dir|);
      FirstAstray(g, f, dir, walks, m.fat, m.dir, again, k);
    }
  }

  /** Two checks on end: the second writes nothing if no record was led astray, and only then finds nothing but what crosses. */
  method CheckCrossedTwice(v: Volume) returns (first: Findings, second: Findings, ghost m0: Medium, ghost m1: Medium, ghost walks: seq<seq<nat>>)
    requires v.Valid()
    modifies v`m, v`dirty, v`history, v`cache, v`cacheSector, v`table
    ensures v.Valid() && m0.fat == old(v.table) && m0.dir == old(v.m.dir) && CheckedTo(v.shape, m0.fat, m0.dir, walks, m1.fat, m1.dir)
    ensures Quiet(Uncrossed(second)) <==> NoneAstray(v.shape, m0.fat, m0.dir, walks, |m0.dir|)
    ensures NoneAstray(v.shape, m0.fat, m0.dir, walks, |m0.dir|) ==> v.m == m1
  {
    first, m0, walks := Check(v);
    ghost var m2, again;
    m1 := v.m;
    second, m2, again := Check(v);
    CheckedAgain(v.shape, m0.fat, m0.dir, walks, m1, again, second);
  }
}
