/**
 The volume check's reading half and one record's repair: a chain followed and
 its clusters marked, the verdict, and the repair it calls for.
 */
module FatFollow {
  import opened FatVolume
  import opened FatTable
  import opened FatVerdict

  datatype Findings = Findings(mirrored: nat, crossed: nat, resized: nat, broken: nat, trimmed: nat, lost: nat, reclaimed: nat)

  /** One check's progress: the clusters walked, and what was found. */
  class Walk {
    var reached: set<nat>
    var found: Findings

    constructor ()
      ensures reached == {} && found == Findings(0, 0, 0, 0, 0, 0, 0)
    {
      reached, found := {}, Findings(0, 0, 0, 0, 0, 0, 0);
    }
  }

  function Any(): Table -> bool { f => true }

  function Members(cs: seq<nat>): (r: set<nat>)
    ensures forall c :: c in r <==> c in cs
  {
    set c | c in cs
  }

  /** Whether `target` is among the clusters of a chain walked so far. */
  method InChain(v: Volume, first: nat, target: nat, steps: nat, ghost cs: seq<nat>) returns (found: bool)
    requires v.Valid() && Linked(v.shape, v.table, cs) && |cs| == steps && (cs != [] ==> cs[0] == first)
    modifies v`m, v`dirty, v`history, v`cache, v`cacheSector
    ensures v.Valid() && TableOnly(v, Any())
    ensures found <==> target in cs
  {
    var cluster, walked := first, 0;
    while walked < steps
      invariant v.Valid() && TableOnly(v, Any())
      invariant walked <= steps && target !in cs[..walked] && (walked < steps ==> cluster == cs[walked])
    {
      if cluster == target { return true; }
      assert cs[..walked + 1] == cs[..walked] + [cs[walked]];
      var value := Get(v, cluster, Any());
      LinkedNext(v.shape, v.table, cs, walked);
      if value >= END_FROM {
        assert cs[..walked + 1] == cs;
        return false;
      }
      cluster, walked := value, walked + 1;
    }
    found := false;
    assert cs[..walked] == cs;
  }

  lemma TroddenMore(g: Shape, f: Table, first: nat, needed: nat, reached: set<nat>, cs: seq<nat>, w: Walked, c: nat, w1: Walked)
    requires Trodden(g, f, first, needed, reached, cs, w) && c == NextOf(f, first, cs)
    requires ValidCluster(g, c) && c !in cs && c !in reached
    requires w1.length == w.length + 1 && w1.last == c && w1.cutAfter == if w1.length == needed then c else w.cutAfter
    ensures Trodden(g, f, first, needed, reached, cs + [c], w1)
  {
    assert Linked(g, f, cs + [c]);
    ChainFits(g, f, cs + [c]);
  }

  /** On the way, about to look at `cluster`. */
  ghost predicate Treading(g: Shape, f: Table, first: nat, needed: nat, reached: set<nat>, cs: seq<nat>, w: Walked, cluster: nat) {
    true == (
      && Trodden(g, f, first, needed, reached, cs, w) && w.outcome == Ended
      && cluster == NextOf(f, first, cs) && (cs != [] ==> cluster < END_FROM))
  }

  /** One more cluster trodden: the chain ends there, or goes on. */
  lemma TreadOn(g: Shape, f: Table, first: nat, needed: nat, reached: set<nat>, cs: seq<nat>, w: Walked, c: nat, w1: Walked)
    requires Treading(g, f, first, needed, reached, cs, w, c) && ValidCluster(g, c) && c !in cs && c !in reached
    requires w1 == w.(length := w.length + 1, last := c, cutAfter := if w.length + 1 == needed then c else w.cutAfter)
    ensures Trodden(g, f, first, needed, reached, cs + [c], w1) && w1.length <= g.clusters && c < |f|
    ensures if f[c] >= END_FROM then Follows(g, f, first, needed, reached, cs + [c], w1)
            else Treading(g, f, first, needed, reached, cs + [c], w1, f[c])
  {
    TroddenMore(g, f, first, needed, reached, cs, w, c, w1);
  }

  lemma MembersMore(reached: set<nat>, cs: seq<nat>, c: nat)
    ensures reached + Members(cs) + {c} == reached + Members(cs + [c])
  {
  }

  /** A chain followed from `first`, every cluster of it marked. */
  method Follow(v: Volume, walk: Walk, first: nat, needed: nat) returns (w: Walked, ghost cs: seq<nat>)
    requires v.Valid()
    modifies v`m, v`dirty, v`history, v`cache, v`cacheSector, walk`reached
    ensures v.Valid() && TableOnly(v, Any())
    ensures Follows(v.shape, v.table, first, needed, old(walk.reached), cs, w)
    ensures walk.reached == old(walk.reached) + Members(cs)
  {
    w, cs := Walked(0, 0, 0, Ended), [];
    var cluster: nat := first;
    while true
      invariant v.Valid() && TableOnly(v, Any())
      invariant Treading(v.shape, v.table, first, needed, old(walk.reached), cs, w, cluster)
      invariant walk.reached == old(walk.reached) + Members(cs)
      decreases v.shape.clusters - |cs|
    {
      if !ValidCluster(v.shape, cluster) {
        w := w.(outcome := Strayed);
        return;
      }
      if cluster in walk.reached {
        var mine := InChain(v, first, cluster, w.length, cs);
        w := w.(outcome := if mine then Looped else Crossed);
        return;
      }
      ghost var w0, cs0 := w, cs;
      MembersMore(old(walk.reached), cs, cluster);
      walk.reached := walk.reached + {cluster};
      cs := cs + [cluster];
      w := w.(length := w.length + 1, last := cluster);
      if w.length == needed { w := w.(cutAfter := cluster); }
      TreadOn(v.shape, v.table, first, needed, old(walk.reached), cs0, w0, cluster, w);
      if w.length > v.shape.clusters {
        w := w.(outcome := Looped);
        return;
      }
      var value := Get(v, cluster, Any());
      if value >= END_FROM { return; }
      cluster := value;
    }
  }
}
