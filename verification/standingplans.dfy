/** Destroy plans on a drive that changes: a plan that is run is itself a history of the
    drive, and one made earlier is still accepted after a branch or an archived lineage. */
module StandingPlans {
  import opened Replication
  import opened Dependents
  import opened Lineages
  import opened Branching
  import opened Rollbacks

  // ---- one destroy, seen as names and as snapshots ------------------------------------

  /** What ZFS refuses by the clone graph is what it refuses by the snapshots. */
  lemma DestroyAgrees(d: Tree, g: Graph, top: Name)
    requires Valid(d) && IsGraph(d, g)
    ensures CanDestroy(d, top) <==> top in d && !Refused(g, top)
  {
    if top in d && !CanDestroy(d, top) {
      var x, h :| x in d && h in d && !Under(x, top) && Under(h, top)
                  && d[x].origin.Some? && Holds(d[h], d[x].origin.value);
      assert h == g[x].value.ds;
      assert ClonedFrom(g, x, top);
    }
  }

  lemma DestroyedGraph(d: Tree, g: Graph, top: Name)
    requires Valid(d) && IsGraph(d, g) && CanDestroy(d, top)
    ensures IsGraph(Destroyed(d, top), WithoutTree(g, top)) && Valid(Destroyed(d, top))
  {
    var r := Destroyed(d, top);
    forall y | y in r
      ensures |y| > 1 ==> Parent(y) in r
      ensures g[y].Some? ==> g[y].value.ds in r
    {
      assert |y| > 1 ==> !Under(Parent(y), top);
    }
  }

  // ---- an offered plan, run -------------------------------------------------------------

  /** The drive after the first destroys of an order. */
  function After(d: Tree, order: seq<Name>): Tree
    decreases |order|
  {
    if order == [] then d else Destroyed(After(d, order[..|order| - 1]), order[|order| - 1])
  }

  lemma {:induction false} AfterGraph(d: Tree, g: Graph, order: seq<Name>, k: nat)
    requires Valid(d) && IsGraph(d, g) && k <= |order| && AllThere(g, order) && AllAccepted(g, order)
    ensures Valid(After(d, order[..k])) && IsGraph(After(d, order[..k]), Left(g, order[..k]))
    ensures k < |order| ==> CanDestroy(After(d, order[..k]), order[k])
  {
    if k > 0 {
      AfterGraph(d, g, order, k - 1);
      assert order[..k][..k - 1] == order[..k - 1];
      DestroyedGraph(After(d, order[..k - 1]), Left(g, order[..k - 1]), order[k - 1]);
    } else {
      assert order[..0] == [];
    }
    if k < |order| {
      assert ThereAt(g, order, k) && AcceptedAt(g, order, k);
      DestroyAgrees(After(d, order[..k]), Left(g, order[..k]), order[k]);
    }
  }

  ghost function RunOf(d: Tree, order: seq<Name>): (run: seq<Tree>)
    ensures |run| == |order| + 1 && forall k :: 0 <= k <= |order| ==> run[k] == After(d, order[..k])
  {
    seq(|order| + 1, k requires 0 <= k <= |order| => After(d, order[..k]))
  }

  ghost function DestroysOf(order: seq<Name>): (changes: seq<Change>)
    ensures |changes| == |order| && forall k :: 0 <= k < |order| ==> changes[k] == Destroy(order[k])
  {
    seq(|order|, k requires 0 <= k < |order| => Destroy(order[k]))
  }

  lemma AfterNext(d: Tree, order: seq<Name>, k: nat)
    requires k < |order|
    ensures After(d, order[..k + 1]) == Destroyed(After(d, order[..k]), order[k])
  {
    assert order[..k + 1][..k] == order[..k];
  }

  lemma OrderIsHistory(d: Tree, g: Graph, order: seq<Name>)
    requires Valid(d) && IsGraph(d, g) && AllThere(g, order) && AllAccepted(g, order)
    ensures IsHistory(RunOf(d, order), DestroysOf(order))
  {
    var run, changes := RunOf(d, order), DestroysOf(order);
    forall k: nat | k < |order|
      ensures HappensAt(run, changes, k)
    {
      AfterGraph(d, g, order, k);
      AfterNext(d, order, k);
    }
  }

  /** What is known of a tree that an offered plan takes. */
  ghost predicate GoesFirst(g: Graph, top: Name, t: Name) {
    t in g && IsLineageOf(t, top) && !Under(t, top) && !Under(top, t)
  }

  lemma OfferedOrder(g: Graph, top: Name, plan: DestroyPlan, trees: map<Name, Dependent>,
                     edges: map<Name, set<Edge>>, stuck: set<Name>)
    requires IsPlan(g, top, plan, trees, edges, stuck) && plan.Ok() && top in g
    ensures AllThere(g, Rels(plan.order) + [top]) && AllAccepted(g, Rels(plan.order) + [top])
    ensures forall t :: t in Rels(plan.order) ==> GoesFirst(g, top, t)
  {
    PlannerSound(g, top, plan, trees, edges, stuck, Covered(g, top, trees.Keys));
    OkMeans(g, top, plan, trees, edges, stuck);
    ArchivedLeavesTop(g, top, trees);
    AllThereInOrder(g, top, trees, edges, plan.order);
    forall t | t in Rels(plan.order)
      ensures GoesFirst(g, top, t)
    {
      var i :| 0 <= i < |plan.order| && Rels(plan.order)[i] == t;
      assert plan.order[i] in plan.order;
      assert IsEntry(g, top, t, trees[t]);
    }
  }

  /** So what every history of a drive keeps, running an offered plan keeps. */
  lemma PlanIsHistory(d: Tree, g: Graph, top: Name, plan: DestroyPlan, trees: map<Name, Dependent>,
                      edges: map<Name, set<Edge>>, stuck: set<Name>)
    requires Valid(d) && IsGraph(d, g) && top in d && IsPlan(g, top, plan, trees, edges, stuck) && plan.Ok()
    ensures IsHistory(RunOf(d, Rels(plan.order) + [top]), DestroysOf(Rels(plan.order) + [top]))
  {
    OfferedOrder(g, top, plan, trees, edges, stuck);
    OrderIsHistory(d, g, Rels(plan.order) + [top]);
  }

  // ---- a plan made before a branch --------------------------------------------------------

  /** Whose snapshots a dataset is a clone of after a branch: as before, or of the archive
      if it was of the dataset. */
  lemma OriginStill(d: Tree, g: Graph, rel: Name, kept: Name, k: nat, g': Graph, x: Name)
    requires Valid(d) && IsGraph(d, g) && CanRename(d, rel, kept) && k < |d[rel].snaps| && Related(kept, rel)
    requires IsGraph(Continued(d, rel, kept, k), g') && x in d && g[x].Some?
    ensures x in g' && g'[x].Some?
    ensures g'[x].value.ds == g[x].value.ds || (g[x].value.ds == rel && g'[x].value.ds == kept)
  {
    ContinuedValid(d, rel, kept, k);
    var h := HolderAfter(d, rel, kept, k, g[x].value.ds, d[x].origin.value);
    assert g'[x].value.ds == h;
  }

  lemma OriginAfter(d: Tree, g: Graph, rel: Name, kept: Name, k: nat, g': Graph, x: Name)
    requires Valid(d) && IsGraph(d, g) && CanRename(d, rel, kept) && k < |d[rel].snaps| && Related(kept, rel)
    requires IsGraph(Continued(d, rel, kept, k), g')
    ensures x in d && g[x].Some? ==>
      && x in g' && g'[x].Some?
      && (g'[x].value.ds == g[x].value.ds || (g[x].value.ds == rel && g'[x].value.ds == kept))
    ensures kept in g' && g'[kept].Some? && g'[kept].value.ds == rel
    ensures x in d && g[x].None? ==> x in g' && g'[x].None?
  {
    if x in d && g[x].Some? {
      OriginStill(d, g, rel, kept, k, g', x);
    }
    ContinuedValid(d, rel, kept, k);
    var c, id := Continued(d, rel, kept, k), d[rel].snaps[k].id;
    assert c[rel].snaps[k].id == id && c[rel].snaps[k] in c[rel].snaps && Holds(c[rel], id);
  }

  /** The archive is in a tree exactly when the dataset is strictly inside it. */
  lemma BesideInTree(d: Tree, rel: Name, kept: Name, t: Name)
    requires rel in d && kept !in d && Related(kept, rel) && t in d
    ensures Under(kept, t) <==> Under(rel, t) && rel != t
  {
    if Under(kept, t) {
      RelatedSym(kept, rel);
      RelatedBelow(kept, rel, t);
      BelowIsLonger(kept, t);
    }
    if Under(rel, t) && rel != t {
      RelatedBelow(rel, kept, t);
    }
  }

  /** A clone of a tree after the branch, outside it, was one before. */
  lemma ClonesAsBefore(d: Tree, g: Graph, rel: Name, kept: Name, k: nat, g': Graph, t: Name, x: Name)
    requires Valid(d) && IsGraph(d, g) && CanRename(d, rel, kept) && k < |d[rel].snaps| && Related(kept, rel)
    requires IsGraph(Continued(d, rel, kept, k), g') && t in d && rel != t
    requires x in g' && !Under(x, t) && ClonedFrom(g', x, t)
    ensures x in g && ClonedFrom(g, x, t)
  {
    OriginAfter(d, g, rel, kept, k, g', x);
    BesideInTree(d, rel, kept, t);
  }

  lemma StillStep(d: Tree, g: Graph, rel: Name, kept: Name, k: nat, g': Graph, order: seq<Name>, i: nat)
    requires Valid(d) && IsGraph(d, g) && CanRename(d, rel, kept) && k < |d[rel].snaps| && Related(kept, rel)
    requires IsGraph(Continued(d, rel, kept, k), g') && i < |order| && order[i] in d && rel != order[i]
    requires AcceptedAt(g, order, i)
    ensures AcceptedAt(g', order, i)
  {
    var t, before := order[i], order[..i];
    LeftIs(g, before);
    LeftIs(g', before);
    forall x | x in Left(g', before) && !Under(x, t)
      ensures !ClonedFrom(Left(g', before), x, t)
    {
      if ClonedFrom(g', x, t) {
        ClonesAsBefore(d, g, rel, kept, k, g', t, x);
      }
    }
  }

  /** A plan that was offered is still accepted after a live dataset was branched, exactly
      when that is not the one to be destroyed. */
  lemma PlanOutlivesBranch(d: Tree, g: Graph, top: Name, plan: DestroyPlan, trees: map<Name, Dependent>,
                           edges: map<Name, set<Edge>>, stuck: set<Name>, rel: Name, kept: Name, k: nat, g': Graph)
    requires Valid(d) && IsGraph(d, g) && top in d && IsPlan(g, top, plan, trees, edges, stuck) && plan.Ok()
    requires CanRename(d, rel, kept) && k < |d[rel].snaps| && Related(kept, rel) && !IsArchived(rel)
    requires IsGraph(Continued(d, rel, kept, k), g')
    ensures AllAccepted(g', Rels(plan.order) + [top]) <==> rel != top
  {
    var names := Rels(plan.order);
    OfferedOrder(g, top, plan, trees, edges, stuck);
    if rel != top {
      StillAccepted(d, g, top, rel, kept, k, g', names);
    } else {
      StaleTop(d, g, top, kept, k, g', names);
    }
  }

  lemma StillAccepted(d: Tree, g: Graph, top: Name, rel: Name, kept: Name, k: nat, g': Graph, names: seq<Name>)
    requires Valid(d) && IsGraph(d, g) && CanRename(d, rel, kept) && k < |d[rel].snaps| && Related(kept, rel)
    requires !IsArchived(rel) && IsGraph(Continued(d, rel, kept, k), g') && top in d && rel != top
    requires AllAccepted(g, names + [top]) && forall t :: t in names ==> GoesFirst(g, top, t)
    ensures AllAccepted(g', names + [top])
  {
    var order := names + [top];
    forall i: nat | i < |order|
      ensures AcceptedAt(g', order, i)
    {
      assert i < |names| ==> names[i] in names;
      assert AcceptedAt(g, order, i);
      StillStep(d, g, rel, kept, k, g', order, i);
    }
  }

  lemma StaleTop(d: Tree, g: Graph, top: Name, kept: Name, k: nat, g': Graph, names: seq<Name>)
    requires Valid(d) && IsGraph(d, g) && CanRename(d, top, kept) && k < |d[top].snaps| && Related(kept, top)
    requires IsGraph(Continued(d, top, kept, k), g') && forall t :: t in names ==> GoesFirst(g, top, t)
    ensures !AllAccepted(g', names + [top])
  {
    var order, n := names + [top], |names|;
    OriginAfter(d, g, top, kept, k, g', top);
    BesideInTree(d, top, kept, top);
    assert order[..n] == names;
    forall t | t in names
      ensures !Under(kept, t)
    {
      assert GoesFirst(g, top, t);
      BesideInTree(d, top, kept, t);
    }
    StillLeft(g', names, kept);
    assert ClonedFrom(Left(g', names), kept, top);
    assert !AcceptedAt(g', order, n);
  }

  // ---- a plan made before a lineage was archived --------------------------------------------

  ghost predicate IsArchive(d: Tree, rel: Name, kept: Name) {
    Valid(d) && CanRename(d, rel, kept) && Related(kept, rel) && !IsArchived(rel)
  }

  /** `y` is the name that `x` has then. */
  predicate NowAt(rel: Name, kept: Name, x: Name, y: Name) {
    if Under(x, rel) then y == Rebase(x, rel, kept) else y == x
  }

  /** A tree outside the lineage holds what it held. */
  lemma InTreeStill(d: Tree, rel: Name, kept: Name, t: Name, x: Name, y: Name)
    requires IsArchive(d, rel, kept) && t in d && !Under(t, rel) && NowAt(rel, kept, x, y)
    ensures Under(y, t) <==> Under(x, t)
  {
    if Under(x, rel) {
      BesideInTree(d, rel, kept, t);
      if Under(x, t) {
        AboveSame(x, t, rel);
        UnderBoth(y, kept, t);
      }
      if Under(y, t) {
        AboveSame(y, t, kept);
        if Under(t, kept) {
          NothingBelow(d, kept, t);
        }
        UnderBoth(x, rel, t);
      }
    }
  }

  /** A clone then was one before, of what its origin was called. */
  lemma CloneBefore(d: Tree, g: Graph, rel: Name, kept: Name, g': Graph, y: Name) returns (x: Name)
    requires IsArchive(d, rel, kept) && IsGraph(d, g) && IsGraph(Moved(d, rel, kept), g') && y in g'
    ensures x in d && NowAt(rel, kept, x, y)
    ensures g'[y].Some? ==> g[x].Some? && NowAt(rel, kept, g[x].value.ds, g'[y].value.ds)
  {
    x := MovedFrom(d, rel, kept, y);
    if g'[y].Some? {
      var h := MovedFrom(d, rel, kept, g'[y].value.ds);
      assert h == g[x].value.ds;
    }
  }

  /** What would refuse a destroy then refused it before. */
  lemma RefusedBefore(d: Tree, g: Graph, rel: Name, kept: Name, g': Graph, gone: seq<Name>, t: Name)
    requires IsArchive(d, rel, kept) && IsGraph(d, g) && IsGraph(Moved(d, rel, kept), g')
    requires AllOutside(d, rel, gone) && t in d && !Under(t, rel) && Refused(Left(g', gone), t)
    ensures Refused(Left(g, gone), t)
  {
    LeftIs(g, gone);
    LeftIs(g', gone);
    var y :| y in Left(g', gone) && !Under(y, t) && ClonedFrom(Left(g', gone), y, t);
    var x := CloneBefore(d, g, rel, kept, g', y);
    InTreeStill(d, rel, kept, t, x, y);
    StillOutside(d, rel, kept, gone, x, y);
    InTreeStill(d, rel, kept, t, g[x].value.ds, g'[y].value.ds);
    assert ClonedFrom(Left(g, gone), x, t);
  }

  predicate AllOutside(d: Tree, rel: Name, order: seq<Name>) {
    forall k: nat :: k < |order| ==> order[k] in d && !Under(order[k], rel)
  }

  lemma StillOutside(d: Tree, rel: Name, kept: Name, trees: seq<Name>, x: Name, y: Name)
    requires IsArchive(d, rel, kept) && NowAt(rel, kept, x, y)
    requires AllOutside(d, rel, trees)
    ensures InTrees(y, trees) <==> InTrees(x, trees)
  {
    forall k: nat | k < |trees|
      ensures Under(y, trees[k]) <==> Under(x, trees[k])
    {
      InTreeStill(d, rel, kept, trees[k], x, y);
    }
  }

  /** An archived lineage of a dataset outside the renamed one is outside it too. */
  lemma LineageOutside(t: Name, top: Name, rel: Name)
    requires IsLineageOf(t, top) && !IsArchived(rel) && !Under(t, top) && !Under(top, rel)
    ensures !Under(t, rel)
  {
    PlainOfLive(rel);
    assert Under(t, rel) ==> Under(Plain(t), Plain(rel));
    if Under(t, rel) {
      AboveSame(Plain(t), top, rel);
      UnderBoth(t, rel, top);
    }
  }

  /** A plan that was offered still finds each tree and is accepted after a live lineage was
      renamed aside, exactly when that is not the dataset to be destroyed or one it is in. */
  lemma PlanOutlivesArchive(d: Tree, g: Graph, top: Name, plan: DestroyPlan, trees: map<Name, Dependent>,
                            edges: map<Name, set<Edge>>, stuck: set<Name>, rel: Name, kept: Name, g': Graph)
    requires IsGraph(d, g) && top in d && IsPlan(g, top, plan, trees, edges, stuck) && plan.Ok()
    requires IsArchive(d, rel, kept) && IsGraph(Moved(d, rel, kept), g')
    ensures var order := Rels(plan.order) + [top]; AllThere(g', order) && AllAccepted(g', order) <==> !Under(top, rel)
  {
    var names := Rels(plan.order);
    OfferedOrder(g, top, plan, trees, edges, stuck);
    if Under(top, rel) {
      TopIsAway(d, rel, kept, top, g', names + [top], |names|);
    } else {
      forall i: nat | i < |names|
        ensures names[i] in d && !Under(names[i], rel)
      {
        assert GoesFirst(g, top, names[i]);
        LineageOutside(names[i], top, rel);
      }
      ArchiveAccepted(d, g, rel, kept, g', names + [top]);
    }
  }

  lemma ArchiveAccepted(d: Tree, g: Graph, rel: Name, kept: Name, g': Graph, order: seq<Name>)
    requires IsArchive(d, rel, kept) && IsGraph(d, g) && IsGraph(Moved(d, rel, kept), g')
    requires AllOutside(d, rel, order) && AllThere(g, order) && AllAccepted(g, order)
    ensures AllThere(g', order) && AllAccepted(g', order)
  {
    forall i: nat | i < |order|
      ensures ThereAt(g', order, i) && AcceptedAt(g', order, i)
    {
      assert ThereAt(g, order, i) && AcceptedAt(g, order, i);
      assert AllOutside(d, rel, order[..i]);
      if Refused(Left(g', order[..i]), order[i]) {
        RefusedBefore(d, g, rel, kept, g', order[..i], order[i]);
      }
      LeftIs(g, order[..i]);
      LeftIs(g', order[..i]);
      var y := MovedTo(d, rel, kept, order[i]);
    }
  }

  lemma TopIsAway(d: Tree, rel: Name, kept: Name, top: Name, g': Graph, order: seq<Name>, n: nat)
    requires IsArchive(d, rel, kept) && IsGraph(Moved(d, rel, kept), g') && Under(top, rel)
    requires n < |order| && order[n] == top && top in d
    ensures !AllThere(g', order)
  {
    MovedAt(d, rel, kept, top);
    if Under(top, kept) {
      NothingBelow(d, kept, top);
    }
    LeftIs(g', order[..n]);
    assert !ThereAt(g', order, n);
  }
}
