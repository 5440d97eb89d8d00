/**
 What the check of a volume comes to, record by record, told from the volume as
 it was: where each record's walk goes in the table the check began with, which
 walks meet an earlier one, and what becomes of every record and every entry.
 */
module FatCourse {
  import opened FatVolume
  import opened FatTable
  import FatChains
  import opened FatVerdict
  import opened FatFollow
  import opened FatRepair

  // ------------------------------------------------------------------
  // The walks
  // ------------------------------------------------------------------

  /** The clusters a record leads to; none if it names none. */
  ghost predicate WalkOf(g: Shape, f: Table, s: Slot, cs: seq<nat>) {
    match s
    case Vacant => cs == []
    case Used(_, first, _) => if first == 0 then cs == [] else Walks(g, f, first, cs)
  }

  ghost predicate AllWalks(g: Shape, f: Table, dir: seq<Slot>, walks: seq<seq<nat>>) {
    && |walks| == |dir|
    && forall k {:trigger WalkOf(g, f, dir[k], walks[k])} :: 0 <= k < |dir| ==> WalkOf(g, f, dir[k], walks[k])
  }

  /** Every medium has its walks. */
  lemma {:induction false} WalksOf(g: Shape, f: Table, dir: seq<Slot>) returns (walks: seq<seq<nat>>)
    requires GoodShape(g) && |f| == PER_SECTOR * g.tableSectors
    ensures AllWalks(g, f, dir, walks)
  {
    if dir == [] { return []; }
    var last := |dir| - 1;
    var front := WalksOf(g, f, dir[..last]);
    var cs := [];
    if dir[last].Used? && dir[last].first != 0 { cs := WalkExists(g, f, dir[last].first, []); }
    walks := front + [cs];
    forall k | 0 <= k < |dir|
      ensures WalkOf(g, f, dir[k], walks[k])
    {
      if k < last { assert WalkOf(g, f, dir[..last][k], front[k]); }
    }
  }

  lemma WalkOfUnique(g: Shape, f: Table, s: Slot, a: seq<nat>, b: seq<nat>)
    requires WalkOf(g, f, s, a) && WalkOf(g, f, s, b)
    ensures a == b
  {
    if s.Used? && s.first != 0 { WalkUnique(g, f, s.first, a, b); }
  }

  /** One of the first `n` walks comes to this cluster. */
  ghost predicate Met(walks: seq<seq<nat>>, n: nat, c: nat) {
    exists j :: 0 <= j < n && j < |walks| && c in walks[j]
  }

  /** A record whose walk runs into an earlier one's. */
  ghost predicate Contests(walks: seq<seq<nat>>, k: nat) {
    k < |walks| && exists c :: c in walks[k] && Met(walks, k, c)
  }

  // ------------------------------------------------------------------
  // What becomes of a record
  // ------------------------------------------------------------------

  function StoppedBy(g: Shape, f: Table, first: nat, cs: seq<nat>): Outcome {
    var next := NextOf(f, first, cs);
    if cs == [] then Strayed else if next >= END_FROM then Ended else if next in cs then Looped else Strayed
  }

  function WalkedOf(g: Shape, f: Table, s: Slot, cs: seq<nat>): Walked
    requires s.Used? && g.clusterSize > 0
  {
    var needed := ClustersFor(s.size, g.clusterSize);
    Walked(|cs|, if cs == [] then 0 else cs[|cs| - 1], if 1 <= needed <= |cs| then cs[needed - 1] else 0,
           StoppedBy(g, f, s.first, cs))
  }

  /** The verdict on a record whose walk nothing earlier claims. */
  function AnswerOf(g: Shape, f: Table, s: Slot, cs: seq<nat>): Verdict
    requires s.Used? && g.clusterSize > 0
  {
    Decide(s.first, s.size, g.clusterSize, WalkedOf(g, f, s, cs))
  }

  function KeptOf(g: Shape, f: Table, s: Slot, cs: seq<nat>): seq<nat>
    requires g.clusterSize > 0
  {
    if s.Vacant? then [] else KeptAfter(AnswerOf(g, f, s, cs), cs)
  }

  /** The record as the check leaves it. */
  function SlotAfter(g: Shape, f: Table, s: Slot, cs: seq<nat>, contested: bool): Slot
    requires g.clusterSize > 0
  {
    if s.Vacant? || contested then s else RecordAfter(s, AnswerOf(g, f, s, cs), g.clusterSize)
  }

  /** A record dealt with: left alone if its walk runs into an earlier one, and else put right, what it does not keep of its walk free. */
  ghost predicate Dealt(g: Shape, f0: Table, dir0: seq<Slot>, walks: seq<seq<nat>>, f: Table, dir: seq<Slot>, k: nat) {
    k < |dir0| == |dir| && k < |walks| && g.clusterSize > 0 &&
    var contested, kept := Contests(walks, k), KeptOf(g, f0, dir0[k], walks[k]);
    && dir[k] == SlotAfter(g, f0, dir0[k], walks[k], contested)
    && (!contested ==>
          && Exact(g, f, dir[k], kept)
          && forall c :: c in walks[k] && c !in kept && c < |f| ==> f[c] == FREE)
  }

  /** No record that was put right walked to this cluster. */
  ghost predicate LeftAlone(walks: seq<seq<nat>>, n: nat, c: nat) {
    forall j {:trigger walks[j]} :: 0 <= j < n && j < |walks| && c in walks[j] ==> Contests(walks, j)
  }

  /** The check has dealt with the first `n` records. */
  ghost predicate Course(g: Shape, f0: Table, dir0: seq<Slot>, walks: seq<seq<nat>>, n: nat, f: Table, dir: seq<Slot>, reached: set<nat>) {
    && GoodShape(g) && |f| == |f0| == PER_SECTOR * g.tableSectors && AllWalks(g, f0, dir0, walks) && n <= |dir0| == |dir|
    && (forall k {:trigger dir[k]} :: n <= k < |dir| ==> dir[k] == dir0[k])
    && (forall c {:trigger Met(walks, n, c)} :: c in reached <==> Met(walks, n, c))
    && (forall c {:trigger f[c]} :: 0 <= c < |f| && c !in reached ==> f[c] == f0[c])
    && (forall k {:trigger Dealt(g, f0, dir0, walks, f, dir, k)} :: 0 <= k < n ==> Dealt(g, f0, dir0, walks, f, dir, k))
    && (forall c {:trigger LeftAlone(walks, n, c)} :: 0 <= c < |f| && LeftAlone(walks, n, c) ==> f[c] == f0[c])
  }

  // ------------------------------------------------------------------
  // One record more
  // ------------------------------------------------------------------

  /** A link from a cluster of a walk stays in the walk. */
  lemma WalkClosed(g: Shape, f: Table, first: nat, cs: seq<nat>, c: nat)
    requires Walks(g, f, first, cs) && c in cs
    ensures c < |f| && (ValidCluster(g, f[c]) ==> f[c] in cs)
  {
    var i :| 0 <= i < |cs| && cs[i] == c;
    if i + 1 < |cs| { LinkedNext(g, f, cs, i); }
  }

  /** From a cluster that was met, everything behind it on a walk was met too. */
  lemma {:induction false} MetOnward(g: Shape, f: Table, dir: seq<Slot>, walks: seq<seq<nat>>, n: nat, cs: seq<nat>, i: nat, k: nat)
    requires AllWalks(g, f, dir, walks) && n <= |dir| && Linked(g, f, cs) && i <= k < |cs| && Met(walks, n, cs[i])
    ensures Met(walks, n, cs[k])
    decreases k
  {
    if k > i {
      MetOnward(g, f, dir, walks, n, cs, i, k - 1);
      var j :| 0 <= j < n && j < |walks| && cs[k - 1] in walks[j];
      assert WalkOf(g, f, dir[j], walks[j]);
      WalkClosed(g, f, dir[j].first, walks[j], cs[k - 1]);
      LinkedNext(g, f, cs, k - 1);
    }
  }

  /** Clusters nobody changed are linked as they were. */
  lemma LinkedFrame(g: Shape, f: Table, f0: Table, cs: seq<nat>)
    requires Linked(g, f, cs) && |f| == |f0| && forall c :: c in cs && c < |f| ==> f[c] == f0[c]
    ensures Linked(g, f0, cs)
  {
  }

  /** What following a record finds: its walk in the first table, up to where an earlier walk has been. */
  lemma FollowedWalk(g: Shape, f0: Table, f: Table, first: nat, needed: nat, reached: set<nat>, walk: seq<nat>, seen: seq<nat>, w: Walked)
    requires GoodShape(g) && |f| == |f0| && Walks(g, f0, first, walk) && Follows(g, f, first, needed, reached, seen, w)
    requires forall c :: 0 <= c < |f| && c !in reached ==> f[c] == f0[c]
    ensures |seen| <= |walk| && seen == walk[..|seen|] && NextOf(f, first, seen) == NextOf(f0, first, seen)
    ensures w.outcome == Crossed <==> exists c :: c in walk && c in reached
    ensures w.outcome == Crossed ==> |seen| < |walk| && walk[|seen|] in reached
    ensures w.outcome != Crossed ==> seen == walk && w.outcome == StoppedBy(g, f0, first, walk)
  {
    LinkedFrame(g, f, f0, seen);
    WalkIsLongest(g, f0, first, walk, seen);
    var n := |seen|;
    assert forall c :: c in seen ==> c !in reached;
    if n < |walk| {
      if n > 0 { LinkedNext(g, f0, walk, n - 1); }
      assert NextOf(f, first, seen) == walk[n];
      assert walk[n] in walk && walk[n] !in walk[..n];
      assert ValidCluster(g, walk[n]);
    } else {
      assert seen == walk;
    }
  }

  lemma MetMore(walks: seq<seq<nat>>, n: nat, c: nat)
    requires n < |walks|
    ensures Met(walks, n + 1, c) <==> Met(walks, n, c) || c in walks[n]
  {
    if c in walks[n] { assert 0 <= n < n + 1 && c in walks[n]; }
    if Met(walks, n, c) {
      var j :| 0 <= j < n && j < |walks| && c in walks[j];
      assert j < n + 1;
    }
  }

  lemma ContestsMet(walks: seq<seq<nat>>, n: nat, reached: set<nat>)
    requires n < |walks| && forall c {:trigger Met(walks, n, c)} :: c in reached <==> Met(walks, n, c)
    ensures Contests(walks, n) <==> exists c :: c in walks[n] && c in reached
  {
    if c :| c in walks[n] && c in reached { assert Met(walks, n, c); }
    if c :| c in walks[n] && Met(walks, n, c) { assert c in reached; }
  }

  /** The verdict on the next record, whatever became of the table before it. */
  lemma CourseAnswer(g: Shape, f0: Table, dir0: seq<Slot>, walks: seq<seq<nat>>, n: nat, f: Table, dir: seq<Slot>, reached: set<nat>,
                     seen: seq<nat>, w: Walked)
    requires Course(g, f0, dir0, walks, n, f, dir, reached) && n < |dir| && Inspected(g, f, dir[n], reached, seen, w)
    ensures dir[n] == dir0[n] && n < |walks| && |seen| <= |walks[n]| && seen == walks[n][..|seen|]
    ensures var answer := Decide(dir[n].first, dir[n].size, g.clusterSize, w);
      && (answer.Contested? <==> Contests(walks, n))
      && (if answer.Contested? then |seen| < |walks[n]| && walks[n][|seen|] in reached
          else seen == walks[n] && answer == AnswerOf(g, f0, dir0[n], walks[n]))
  {
    assert WalkOf(g, f0, dir0[n], walks[n]);
    ContestsMet(walks, n, reached);
    if dir[n].first != 0 {
      FollowedWalk(g, f0, f, dir[n].first, ClustersFor(dir[n].size, g.clusterSize), reached, walks[n], seen, w);
    }
  }

  lemma ReachedMore(g: Shape, f0: Table, dir0: seq<Slot>, walks: seq<seq<nat>>, n: nat, reached: set<nat>, seen: seq<nat>)
    requires AllWalks(g, f0, dir0, walks) && n < |dir0| && |seen| <= |walks[n]| && seen == walks[n][..|seen|]
    requires forall c {:trigger Met(walks, n, c)} :: c in reached <==> Met(walks, n, c)
    requires seen == walks[n] || (|seen| < |walks[n]| && walks[n][|seen|] in reached)
    ensures forall c {:trigger Met(walks, n + 1, c)} :: c in reached + Members(seen) <==> Met(walks, n + 1, c)
  {
    assert WalkOf(g, f0, dir0[n], walks[n]);
    forall c
      ensures c in reached + Members(seen) <==> Met(walks, n + 1, c)
    {
      MetMore(walks, n, c);
      assert c in reached <==> Met(walks, n, c);
      if c in walks[n] && c !in seen {
        var rest := walks[n][|seen|..];
        assert walks[n] == seen + rest;
        var k :| 0 <= k < |rest| && rest[k] == c;
        MetOnward(g, f0, dir0, walks, n, walks[n], |seen|, |seen| + k);
      }
    }
  }

  /** Records dealt with stay so while later ones are repaired. */
  lemma DealtFrame(g: Shape, f0: Table, dir0: seq<Slot>, walks: seq<seq<nat>>, f: Table, dir: seq<Slot>, f1: Table, dir1: seq<Slot>, k: nat)
    requires Dealt(g, f0, dir0, walks, f, dir, k) && |f1| == |f| && |dir1| == |dir| && dir1[k] == dir[k]
    requires forall c :: c in walks[k] && c < |f| ==> f1[c] == f[c]
    ensures Dealt(g, f0, dir0, walks, f1, dir1, k)
  {
    if !Contests(walks, k) {
      var kept := KeptOf(g, f0, dir0[k], walks[k]);
      assert Exact(g, f, dir[k], kept);
      if dir[k].Used? { FatChains.ChainFrame(g, f, f1, kept); }
    }
  }

  lemma LeftAloneMore(walks: seq<seq<nat>>, n: nat, c: nat)
    requires n < |walks| && LeftAlone(walks, n + 1, c)
    ensures LeftAlone(walks, n, c) && (c in walks[n] ==> Contests(walks, n))
  {
  }

  /** The next record left alone. */
  lemma CourseContested(g: Shape, f0: Table, dir0: seq<Slot>, walks: seq<seq<nat>>, n: nat, f: Table, dir: seq<Slot>, reached: set<nat>,
                        reached1: set<nat>)
    requires Course(g, f0, dir0, walks, n, f, dir, reached) && n < |dir| && (dir[n].Vacant? || Contests(walks, n))
    requires reached <= reached1
    requires forall c {:trigger Met(walks, n + 1, c)} :: c in reached1 <==> Met(walks, n + 1, c)
    ensures Course(g, f0, dir0, walks, n + 1, f, dir, reached1)
  {
    assert WalkOf(g, f0, dir0[n], walks[n]) && dir[n] == dir0[n];
    assert Dealt(g, f0, dir0, walks, f, dir, n);
    forall c | 0 <= c < |f| && LeftAlone(walks, n + 1, c)
      ensures f[c] == f0[c]
    {
      LeftAloneMore(walks, n, c);
    }
  }

  /** The next record put right. */
  lemma CourseRepaired(g: Shape, f0: Table, dir0: seq<Slot>, walks: seq<seq<nat>>, n: nat, f: Table, dir: seq<Slot>, reached: set<nat>,
                       f1: Table, s1: Slot, reached1: set<nat>)
    requires Course(g, f0, dir0, walks, n, f, dir, reached) && n < |dir| && dir[n].Used? && !Contests(walks, n)
    requires s1 == RecordAfter(dir[n], AnswerOf(g, f0, dir0[n], walks[n]), g.clusterSize)
    requires Repaired(g, f, f1, dir[n], s1, walks[n], KeptOf(g, f0, dir0[n], walks[n]))
    requires reached1 == reached + Members(walks[n])
    requires forall c {:trigger Met(walks, n + 1, c)} :: c in reached1 <==> Met(walks, n + 1, c)
    ensures Course(g, f0, dir0, walks, n + 1, f1, dir[n := s1], reached1)
  {
    var dir1 := dir[n := s1];
    assert dir[n] == dir0[n];
    ContestsMet(walks, n, reached);
    forall k | 0 <= k < n + 1
      ensures Dealt(g, f0, dir0, walks, f1, dir1, k)
    {
      if k < n {
        assert Dealt(g, f0, dir0, walks, f, dir, k);
        forall c | c in walks[k] && c < |f|
          ensures f1[c] == f[c]
        {
          assert Met(walks, n, c);
        }
        DealtFrame(g, f0, dir0, walks, f, dir, f1, dir1, k);
      }
    }
    forall c | 0 <= c < |f| && LeftAlone(walks, n + 1, c)
      ensures f1[c] == f0[c]
    {
      LeftAloneMore(walks, n, c);
    }
  }

  // ------------------------------------------------------------------
  // What is wrong with a record
  // ------------------------------------------------------------------

  /** The last of these clusters is marked as the end of a chain. */
  predicate EndsWell(f: Table, cs: seq<nat>) {
    cs != [] && cs[|cs| - 1] < |f| && f[cs[|cs| - 1]] >= END_FROM
  }

  /** The record names a cluster and no end mark is come to from it. */
  predicate Breaks(f: Table, s: Slot, cs: seq<nat>) {
    s.Used? && s.first != 0 && !EndsWell(f, cs)
  }

  /** It claims more bytes than a whole chain, or none, holds. */
  predicate Overclaims(g: Shape, f: Table, s: Slot, cs: seq<nat>) {
    s.Used? && (s.first == 0 || EndsWell(f, cs)) && g.clusterSize * |cs| < s.size
  }

  /** Its whole chain has a cluster it claims no byte of. */
  predicate Underclaims(g: Shape, f: Table, s: Slot, cs: seq<nat>) {
    s.Used? && s.first != 0 && EndsWell(f, cs) && s.size <= g.clusterSize * (|cs| - 1)
  }

  /** The verdict is that the record has just the fault it has. */
  lemma FaultAnswered(g: Shape, f: Table, s: Slot, cs: seq<nat>)
    requires GoodShape(g) && s.Used? && WalkOf(g, f, s, cs)
    ensures var answer := AnswerOf(g, f, s, cs);
      && !answer.Contested?
      && (answer.BeginsNowhere? || answer.BreaksAt? <==> Breaks(f, s, cs))
      && (answer.ClaimsNothing? || answer.RunsShort? <==> Overclaims(g, f, s, cs))
      && (answer.HoldsUnclaimed? || answer.RunsLong? <==> Underclaims(g, f, s, cs))
  {
    var n := g.clusterSize;
    ClustersForBounds(s.size, n);
    NeededAgainst(s.size, n, |cs|);
  }

  /** Clusters held against clusters needed. */
  lemma NeededAgainst(size: nat, n: nat, held: nat)
    requires n > 0
    ensures held < ClustersFor(size, n) <==> n * held < size
    ensures held > ClustersFor(size, n) <==> held > 0 && size <= n * (held - 1)
  {
    ClustersForBounds(size, n);
    var q := ClustersFor(size, n);
    if held < q { TimesGrows(n, held, q - 1); } else { TimesGrows(n, q, held); }
    if held > q { TimesGrows(n, q, held - 1); } else if held > 0 { TimesGrows(n, held - 1, q - 1); }
  }

  // ------------------------------------------------------------------
  // What is counted
  // ------------------------------------------------------------------

  /** How many of the first `n` records run into an earlier one. */
  ghost function Crossings(walks: seq<seq<nat>>, n: nat): nat {
    if n == 0 then 0 else Crossings(walks, n - 1) + if Contests(walks, n - 1) then 1 else 0
  }

  datatype Fault = Breaking | Overclaiming | Underclaiming

  /** A record nothing earlier runs into, with this wrong with it. */
  ghost predicate Faulty(g: Shape, f: Table, dir: seq<Slot>, walks: seq<seq<nat>>, k: nat, fault: Fault) {
    k < |dir| && k < |walks| && !Contests(walks, k) && match fault
    case Breaking => Breaks(f, dir[k], walks[k])
    case Overclaiming => Overclaims(g, f, dir[k], walks[k])
    case Underclaiming => Underclaims(g, f, dir[k], walks[k])
  }

  /** How many of the first `n` records have it. */
  ghost function Faults(g: Shape, f: Table, dir: seq<Slot>, walks: seq<seq<nat>>, n: nat, fault: Fault): nat {
    if n == 0 then 0 else Faults(g, f, dir, walks, n - 1, fault) + if Faulty(g, f, dir, walks, n - 1, fault) then 1 else 0
  }

  /** Nothing is wrong with the first `n` records but that they may run into each other. */
  ghost predicate Faultless(g: Shape, f: Table, dir: seq<Slot>, walks: seq<seq<nat>>, n: nat) {
    g.clusterSize > 0 &&
    forall k {:trigger walks[k]} :: 0 <= k < n && k < |dir| && k < |walks| && dir[k].Used? && !Contests(walks, k) ==>
      AnswerOf(g, f, dir[k], walks[k]) == Agree
  }

  predicate Quiet(found: Findings) { found == Findings(0, 0, 0, 0, 0, 0, 0) }

  /** All that was found but crossed chains. */
  function Uncrossed(found: Findings): Findings { found.(crossed := 0) }

  function Counted(found: Findings, answer: Verdict): Findings {
    match answer
    case Agree => found
    case Contested => found.(crossed := found.crossed + 1)
    case ClaimsNothing => found.(resized := found.resized + 1)
    case RunsShort(_) => found.(resized := found.resized + 1)
    case BeginsNowhere => found.(broken := found.broken + 1, trimmed := found.trimmed + 1)
    case BreaksAt(_, _) => found.(broken := found.broken + 1, trimmed := found.trimmed + 1)
    case RunsLong(_, _) => found.(trimmed := found.trimmed + 1)
    case HoldsUnclaimed => found.(trimmed := found.trimmed + 1)
  }

  /** No count fell. */
  predicate Below(a: Findings, b: Findings) {
    && a.mirrored <= b.mirrored && a.crossed <= b.crossed && a.resized <= b.resized && a.broken <= b.broken
    && a.trimmed <= b.trimmed && a.lost <= b.lost && a.reclaimed <= b.reclaimed
  }

  /** The counts after `n` records, by what is wrong with each. */
  ghost predicate CountedAll(g: Shape, f: Table, dir: seq<Slot>, walks: seq<seq<nat>>, n: nat, start: Findings, found: Findings) {
    true == (
      && found.crossed == start.crossed + Crossings(walks, n)
      && found.resized == start.resized + Faults(g, f, dir, walks, n, Overclaiming)
      && found.broken == start.broken + Faults(g, f, dir, walks, n, Breaking)
      && found.trimmed == start.trimmed + Faults(g, f, dir, walks, n, Breaking) + Faults(g, f, dir, walks, n, Underclaiming)
      && found.mirrored == start.mirrored && found.lost == start.lost && found.reclaimed == start.reclaimed)
  }

  /** The counts after `n` records; nothing but crossings exactly if no record had a fault, and then nothing was written. */
  ghost predicate Tallied(g: Shape, f0: Table, dir0: seq<Slot>, walks: seq<seq<nat>>, n: nat, f: Table, dir: seq<Slot>,
                          start: Findings, found: Findings) {
    && CountedAll(g, f0, dir0, walks, n, start, found) && Below(start, found)
    && (Uncrossed(found) == Uncrossed(start) <==> Faultless(g, f0, dir0, walks, n))
    && (Faultless(g, f0, dir0, walks, n) ==> f == f0 && dir == dir0)
  }

  lemma FaultlessMore(g: Shape, f: Table, dir: seq<Slot>, walks: seq<seq<nat>>, n: nat)
    requires n < |dir| == |walks| && g.clusterSize > 0
    ensures Faultless(g, f, dir, walks, n + 1) <==>
      Faultless(g, f, dir, walks, n) && (dir[n].Used? && !Contests(walks, n) ==> AnswerOf(g, f, dir[n], walks[n]) == Agree)
  {
    assert walks[n] == walks[n];
  }

  lemma CountedBelow(found: Findings, answer: Verdict)
    ensures Below(found, Counted(found, answer))
    ensures Uncrossed(Counted(found, answer)) == Uncrossed(found) <==> answer.Agree? || answer.Contested?
    ensures Counted(found, answer).crossed == found.crossed + if answer.Contested? then 1 else 0
  {
  }

  /** One record more is one fault of its kind more, or one crossing, or none. */
  lemma CountedMore(g: Shape, f: Table, dir: seq<Slot>, walks: seq<seq<nat>>, n: nat, start: Findings, found: Findings, answer: Verdict)
    requires GoodShape(g) && n < |dir| == |walks| && CountedAll(g, f, dir, walks, n, start, found) && dir[n].Used?
    requires WalkOf(g, f, dir[n], walks[n]) && (answer.Contested? <==> Contests(walks, n))
    requires !answer.Contested? ==> answer == AnswerOf(g, f, dir[n], walks[n])
    ensures CountedAll(g, f, dir, walks, n + 1, start, Counted(found, answer))
  {
    FaultAnswered(g, f, dir[n], walks[n]);
  }

  lemma TalliedMore(g: Shape, f0: Table, dir0: seq<Slot>, walks: seq<seq<nat>>, n: nat, f: Table, dir: seq<Slot>, start: Findings, found: Findings,
                    answer: Verdict, f1: Table, dir1: seq<Slot>)
    requires n < |dir0| == |walks| && g.clusterSize > 0 && Tallied(g, f0, dir0, walks, n, f, dir, start, found) && dir0[n].Used?
    requires answer.Contested? <==> Contests(walks, n)
    requires !answer.Contested? ==> answer == AnswerOf(g, f0, dir0[n], walks[n])
    requires answer.Agree? || answer.Contested? ==> f1 == f && dir1 == dir
    requires GoodShape(g) && WalkOf(g, f0, dir0[n], walks[n])
    ensures Tallied(g, f0, dir0, walks, n + 1, f1, dir1, start, Counted(found, answer))
  {
    CountedMore(g, f0, dir0, walks, n, start, found, answer);
    FaultlessMore(g, f0, dir0, walks, n);
    CountedBelow(found, answer);
  }

  lemma TalliedVacant(g: Shape, f0: Table, dir0: seq<Slot>, walks: seq<seq<nat>>, n: nat, f: Table, dir: seq<Slot>, start: Findings, found: Findings)
    requires n < |dir0| && AllWalks(g, f0, dir0, walks) && g.clusterSize > 0 && dir0[n].Vacant?
    requires Tallied(g, f0, dir0, walks, n, f, dir, start, found)
    ensures Tallied(g, f0, dir0, walks, n + 1, f, dir, start, found)
  {
    assert WalkOf(g, f0, dir0[n], walks[n]);
    FaultlessMore(g, f0, dir0, walks, n);
  }
}
