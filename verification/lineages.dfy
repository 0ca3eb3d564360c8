/** The clones zark itself makes on a drive: archived lineages beside the live
    dataset. While they are all of that kind, every destroy zark offers works. */
module Lineages {
  import opened Replication
  import opened Dependents

  /** A snapshot; a later one has a larger id. */
  datatype Snap = Snap(id: nat, name: string)

  /** A dataset's snapshots, oldest first, and the snapshot it is a clone of. */
  datatype Fs = Fs(snaps: seq<Snap>, origin: Option<nat>)

  type Tree = map<Name, Fs>

  predicate Holds(fs: Fs, id: nat) {
    exists s :: s in fs.snaps && s.id == id
  }

  predicate Increasing(snaps: seq<Snap>) {
    forall i, j :: 0 <= i < j < |snaps| ==> snaps[i].id < snaps[j].id
  }

  predicate ParentsThere(d: Tree) {
    forall x :: x in d ==> |x| >= 1 && (|x| > 1 ==> Parent(x) in d)
  }

  /** A snapshot is in one dataset only. */
  ghost predicate OneHolder(d: Tree) {
    forall x, y, id :: x in d && y in d && Holds(d[x], id) && Holds(d[y], id) ==> x == y
  }

  /** A clone's own snapshots are later than the one it was made from. */
  predicate FsOk(fs: Fs) {
    Increasing(fs.snaps) && (fs.origin.Some? ==> forall s :: s in fs.snaps ==> fs.origin.value < s.id)
  }

  /** What ZFS always keeps. */
  ghost predicate Valid(d: Tree) {
    ParentsThere(d) && OneHolder(d) && forall x :: x in d ==> FsOk(d[x])
  }

  function Last(rel: Name): string
    requires |rel| >= 1
  {
    rel[|rel| - 1]
  }

  /** Side by side, one an archived lineage of what the other is, or of the same. */
  predicate Related(x: Name, y: Name) {
    |x| == |y| >= 1 && Parent(x) == Parent(y) && StripMark(Last(x)) == StripMark(Last(y))
  }

  /** A clone is one of a snapshot that a related dataset holds. */
  ghost predicate CloneAt(d: Tree, x: Name)
    requires x in d
  {
    d[x].origin.Some? ==> exists h :: h in d && Holds(d[h], d[x].origin.value) && Related(h, x)
  }

  /** Every clone on the drive is one zark makes. */
  ghost predicate OwnClones(d: Tree) {
    forall x {:trigger CloneAt(d, x)} :: x in d ==> CloneAt(d, x)
  }

  /** The clones as a survey reads them. */
  ghost predicate IsGraph(d: Tree, g: Graph) {
    && g.Keys == d.Keys
    && forall x :: x in d ==>
      && (g[x].Some? <==> d[x].origin.Some?)
      && (g[x].Some? ==> g[x].value.ds in d && Holds(d[g[x].value.ds], d[x].origin.value))
  }

  lemma OriginIsRelated(d: Tree, g: Graph, x: Name)
    requires Valid(d) && OwnClones(d) && IsGraph(d, g) && x in d && g[x].Some?
    ensures Related(g[x].value.ds, x) && g[x].value.ds in d && Holds(d[g[x].value.ds], d[x].origin.value)
  {
    assert CloneAt(d, x);
    var id := d[x].origin.value;
    var h :| h in d && Holds(d[h], id) && Related(h, x);
    assert h == g[x].value.ds;
  }

  /** A clone strictly below a dataset is a clone of something below it. */
  lemma RelatedBelow(x: Name, h: Name, top: Name)
    requires Related(h, x) && Under(x, top) && x != top
    ensures Under(h, top)
  {
    BelowIsLonger(x, top);
    assert Under(Parent(x), top);
    assert h == Parent(h) + [Last(h)];
  }

  /** A related dataset of a dataset at the top of a tree is not in the tree. */
  lemma RelatedBeside(x: Name, h: Name, top: Name)
    requires Related(h, x) && Under(h, top) && !Under(x, top)
    ensures h == top
  {
    if h != top {
      RelatedSym(h, x);
      RelatedBelow(h, x, top);
    }
  }

  lemma RelatedSym(x: Name, y: Name)
    requires Related(x, y)
    ensures Related(y, x)
  {
  }

  // ---- what a destroy of a live dataset finds -----------------------------------

  /** A name with no mark stays as it is without one. */
  lemma {:induction false} Unmarked(part: string)
    requires !HasMark(part)
    ensures StripMark(part) == part
  {
    if part != "" {
      Unmarked(part[1..]);
    }
  }

  lemma PlainOfLive(rel: Name)
    requires !IsArchived(rel)
    ensures Plain(rel) == rel
  {
    forall i | 0 <= i < |rel| { Unmarked(rel[i]); }
  }

  lemma RelatedPlain(x: Name, y: Name)
    requires Related(x, y)
    ensures Plain(x) == Plain(y)
  {
    assert x == Parent(x) + [Last(x)] && y == Parent(y) + [Last(y)];
  }

  lemma MarkedBeside(rel: Name, kept: Name)
    requires !IsArchived(rel) && Related(kept, rel) && kept != rel
    ensures HasMark(Last(kept)) && IsArchived(kept)
  {
    assert rel == Parent(rel) + [Last(rel)] && kept == Parent(kept) + [Last(kept)];
    assert !HasMark(rel[|rel| - 1]);
    Unmarked(Last(rel));
    if !HasMark(Last(kept)) {
      Unmarked(Last(kept));
    }
    assert kept[|kept| - 1] == Last(kept);
  }

  /** No live dataset is in an archive. */
  lemma LiveOutside(x: Name, s: Name)
    requires !IsArchived(x) && |s| >= 1 && HasMark(Last(s))
    ensures !Under(x, s)
  {
  }

  /** Another name that is `top`'s once its marks are set aside. */
  predicate Cousin(s: Name, top: Name) {
    Plain(s) == top && s != top
  }

  lemma CousinIsLineage(top: Name, s: Name)
    requires Cousin(s, top)
    ensures IsLineageOf(s, top) && |s| == |top|
  {
    if !IsArchived(s) {
      PlainOfLive(s);
    }
  }

  /** An archived lineage of `top` that goes with it: a clone made after `top` was
      one itself, if it was. */
  ghost predicate Archive(d: Tree, top: Name, s: Name)
    requires top in d
  {
    && s in d && Cousin(s, top) && d[s].origin.Some?
    && (d[top].origin.Some? ==> d[s].origin.value > d[top].origin.value)
  }

  /** The dependents of `top` that lie in such an archive, itself a dependent. */
  ghost function InArchives(d: Tree, top: Name, c: set<Name>): set<Name>
    requires top in d
  {
    set x | x in c && exists s :: s in c && Archive(d, top, s) && Under(x, s)
  }

  /** Every clone among these is beside what it was cloned from. */
  ghost predicate OwnIn(g: Graph, c: set<Name>) {
    forall y :: y in c && y in g && g[y].Some? ==> Related(g[y].value.ds, y)
  }

  /** A dataset cloned from `top` itself that is one of its lineages. */
  predicate LineageOfTop(g: Graph, top: Name, s: Name) {
    s in g && Cousin(s, top) && g[s].Some? && g[s].value.ds == top
  }

  /** A dependent is a clone of the very root of `top`, or lies in a lineage cloned from it;
      or of the very root of a lineage, or inside the same one. */
  ghost predicate Steady(g: Graph, top: Name, c: set<Name>, y: Name)
    requires y in g && g[y].Some?
  {
    var h := g[y].value.ds;
    && (Under(h, top) ==> (h == top && Cousin(y, top)) || exists s :: s in c && LineageOfTop(g, top, s) && Under(y, s))
    && (forall s :: s in c && Cousin(s, top) && Under(h, s) && !Under(y, s) ==> h == s && Cousin(y, top))
  }

  ghost predicate SteadyIn(g: Graph, top: Name, c: set<Name>) {
    forall y {:trigger Steady(g, top, c, y)} :: y in c && y in g && g[y].Some? ==> Steady(g, top, c, y)
  }

  lemma OwnIsSteady(g: Graph, top: Name, c: set<Name>)
    requires OwnIn(g, c) && !IsArchived(top) && forall y :: y in c ==> !Under(y, top)
    ensures SteadyIn(g, top, c)
  {
    PlainOfLive(top);
    assert Under(top, top);
    forall y | y in c && y in g && g[y].Some?
      ensures Steady(g, top, c, y)
    {
      var h := g[y].value.ds;
      RelatedPlain(h, y);
      if Under(h, top) {
        RelatedBeside(y, h, top);
      }
      forall s | s in c && Cousin(s, top) && Under(h, s) && !Under(y, s)
        ensures h == s
      {
        RelatedBeside(y, h, s);
      }
    }
  }

  lemma OwnEverywhere(d: Tree, g: Graph, c: set<Name>)
    requires Valid(d) && OwnClones(d) && IsGraph(d, g)
    ensures OwnIn(g, c)
  {
    forall y | y in c && y in g && g[y].Some? { OriginIsRelated(d, g, y); }
  }

  /** A clone of what lies in `top` lies in such an archive. */
  lemma CloneOfTop(d: Tree, g: Graph, top: Name, c: set<Name>, y: Name) returns (s: Name)
    requires Valid(d) && IsGraph(d, g) && top in d && y in c && y in g && ClonedFrom(g, y, top) && Steady(g, top, c, y)
    ensures s in c && Archive(d, top, s) && Under(y, s)
  {
    assert FsOk(d[top]);
    s := y;
    if !(g[y].value.ds == top && Cousin(y, top)) {
      s :| s in c && LineageOfTop(g, top, s) && Under(y, s);
    }
  }

  /** A clone of what lies in such an archive lies in it or is one. */
  lemma CloneOfArchive(d: Tree, g: Graph, top: Name, c: set<Name>, s: Name, y: Name)
    requires Valid(d) && IsGraph(d, g) && top in d && s in c && Archive(d, top, s)
    requires y in c && y in g && ClonedFrom(g, y, s) && !Under(y, s) && Steady(g, top, c, y)
    ensures Archive(d, top, y) && g[y].value.ds == s
  {
    assert FsOk(d[s]);
  }

  lemma ArchivesClosed(d: Tree, g: Graph, top: Name, c: set<Name>)
    requires Valid(d) && IsGraph(d, g) && top in d && Closed(g, top, c) && SteadyIn(g, top, c)
    ensures Closed(g, top, InArchives(d, top, c))
  {
    var a := InArchives(d, top, c);
    forall x, y | x in a && y in g && Under(y, x) && !Under(y, top)
      ensures y in a
    {
      var s :| s in c && Archive(d, top, s) && Under(x, s);
      UnderBoth(y, x, s);
    }
    forall y | y in g && !Under(y, top) && ClonedFrom(g, y, top)
      ensures y in a
    {
      assert Steady(g, top, c, y);
      var s := CloneOfTop(d, g, top, c, y);
    }
    forall x, y | x in a && y in g && !Under(y, top) && ClonedFrom(g, y, x)
      ensures y in a
    {
      InOneArchive(d, g, top, c, x, y);
    }
  }

  lemma InOneArchive(d: Tree, g: Graph, top: Name, c: set<Name>, x: Name, y: Name)
    requires Valid(d) && IsGraph(d, g) && top in d && Closed(g, top, c) && SteadyIn(g, top, c)
    requires x in InArchives(d, top, c) && y in g && !Under(y, top) && ClonedFrom(g, y, x)
    ensures y in InArchives(d, top, c)
  {
    var s :| s in c && Archive(d, top, s) && Under(x, s);
    UnderBoth(g[y].value.ds, x, s);
    if !Under(y, s) {
      assert Steady(g, top, c, y);
      CloneOfArchive(d, g, top, c, s, y);
      assert Under(y, y);
    }
  }

  lemma TreeIsDependent(g: Graph, top: Name, trees: map<Name, Dependent>, t: Name, c: set<Name>)
    requires AreTrees(g, top, trees) && t in trees && Closed(g, top, c)
    ensures t in Covered(g, top, trees.Keys) && t in c
  {
    assert IsEntry(g, top, t, trees[t]);
    assert Under(t, t);
  }

  lemma NoneAbove(trees: set<Name>, t: Name, s: Name)
    requires Antichain(trees) && t in trees && Under(t, s) && UnderAny(s, trees)
    ensures s == t
  {
    var u :| u in trees && Under(s, u);
    UnderBoth(t, s, u);
    SameLength(t, s);
  }

  /** Every dependent tree is such an archive, nothing above or below one. */
  lemma TreesAreArchives(d: Tree, g: Graph, top: Name, trees: map<Name, Dependent>, t: Name)
    requires Valid(d) && IsGraph(d, g) && top in d && AreTrees(g, top, trees) && t in trees
    requires SteadyIn(g, top, Covered(g, top, trees.Keys))
    ensures Archive(d, top, t)
  {
    var s := TreeInArchive(d, g, top, trees, t, Covered(g, top, trees.Keys));
    NoneAbove(trees.Keys, t, s);
  }

  lemma TreeInArchive(d: Tree, g: Graph, top: Name, trees: map<Name, Dependent>, t: Name, c: set<Name>)
    returns (s: Name)
    requires Valid(d) && IsGraph(d, g) && top in d && AreTrees(g, top, trees) && t in trees
    requires c == Covered(g, top, trees.Keys) && SteadyIn(g, top, c)
    ensures Archive(d, top, s) && Under(t, s) && UnderAny(s, trees.Keys)
  {
    CoverIsClosed(g, top, trees);
    ArchivesClosed(d, g, top, c);
    TreeIsDependent(g, top, trees, t, InArchives(d, top, c));
    s := ArchiveOf(d, top, c, t);
  }

  lemma CoverIsClosed(g: Graph, top: Name, trees: map<Name, Dependent>)
    requires AreTrees(g, top, trees)
    ensures Closed(g, top, Covered(g, top, trees.Keys))
  {
  }

  lemma ArchiveOf(d: Tree, top: Name, c: set<Name>, t: Name) returns (s: Name)
    requires top in d && t in InArchives(d, top, c)
    ensures s in c && Archive(d, top, s) && Under(t, s)
  {
    s :| s in c && Archive(d, top, s) && Under(t, s);
  }

  // ---- no reason not to offer it ------------------------------------------------

  /** No dataset inside `top` is cloned from one of its archives. */
  lemma NoneFromArchive(d: Tree, g: Graph, top: Name, t: Name, y: Name)
    requires Valid(d) && IsGraph(d, g) && top in d && Archive(d, top, t)
    requires y in d && Under(y, top) && (g[y].Some? ==> Related(g[y].value.ds, y))
    ensures !ClonedFrom(g, y, t)
  {
    CousinIsLineage(top, t);
    if g[y].Some? {
      var h := g[y].value.ds;
      if y != top {
        RelatedBelow(y, h, top);
        SameLength(top, t);
        assert Under(h, t) ==> Under(t, top) || Under(top, t);
        assert !Under(h, t);
      } else {
        assert FsOk(d[t]) && FsOk(d[top]);
        SameLength(h, t);
        assert Under(h, t) ==> h == t;
      }
    }
  }

  ghost predicate AreArchives(d: Tree, top: Name, trees: set<Name>)
    requires top in d
  {
    forall t {:trigger Archive(d, top, t)} :: t in trees ==> Archive(d, top, t)
  }

  /** An archive waits only for one cloned later. */
  lemma LaterClone(d: Tree, g: Graph, top: Name, c: set<Name>, s: Name, t: Name, x: Name)
    requires Valid(d) && IsGraph(d, g) && top in d && Archive(d, top, s) && Archive(d, top, t) && s != t && t in c
    requires x in c && x in d && Under(x, s) && ClonedFrom(g, x, t) && Steady(g, top, c, x)
    ensures d[t].origin.value < d[s].origin.value
  {
    CousinIsLineage(top, s);
    CousinIsLineage(top, t);
    if Under(x, t) {
      ApartArchives(d, top, x, s, t);
    }
    CloneOfArchive(d, g, top, c, t, x);
    CousinIsLineage(top, x);
    SameLength(x, s);
    assert FsOk(d[t]);
  }

  /** The archive cloned last. */
  lemma {:induction false} ClonedLast(d: Tree, top: Name, trees: set<Name>) returns (last: Name)
    requires top in d && trees != {} && AreArchives(d, top, trees)
    ensures last in trees && Archive(d, top, last)
    ensures forall t :: t in trees ==> Archive(d, top, t) && d[t].origin.value <= d[last].origin.value
  {
    var first :| first in trees;
    assert Archive(d, top, first);
    var rest := trees - {first};
    last := first;
    if rest != {} {
      var other := ClonedLast(d, top, rest);
      last := if d[other].origin.value > d[first].origin.value then other else first;
    }
    forall t | t in trees
      ensures Archive(d, top, t) && d[t].origin.value <= d[last].origin.value
    {
      assert t == first || t in rest;
    }
  }

  lemma NoneStuck(d: Tree, g: Graph, top: Name, trees: set<Name>, edges: map<Name, set<Edge>>, stuck: set<Name>)
    requires Valid(d) && IsGraph(d, g) && top in d && AreArchives(d, top, trees)
    requires SteadyIn(g, top, Covered(g, top, trees)) && forall t :: t in trees ==> t in Covered(g, top, trees)
    requires AreEdges(g, top, trees, edges) && stuck <= trees && IsStuck(edges, stuck)
    ensures stuck == {}
  {
    if stuck != {} {
      var t := ClonedLast(d, top, stuck);
      var s, e := StuckEdge(g, top, trees, edges, stuck, t);
      StuckIsLater(d, g, top, trees, s, t, e);
    }
  }

  lemma StuckIsLater(d: Tree, g: Graph, top: Name, trees: set<Name>, s: Name, t: Name, e: Edge)
    requires Valid(d) && IsGraph(d, g) && top in d && AreArchives(d, top, trees) && s in trees && t in trees
    requires SteadyIn(g, top, Covered(g, top, trees)) && t in Covered(g, top, trees)
    requires IsEdge(g, top, trees, s, e) && Under(e.origin.ds, t)
    ensures Archive(d, top, s) && Archive(d, top, t) && d[t].origin.value < d[s].origin.value
  {
    var c := Covered(g, top, trees);
    var u :| u in trees && u != s && Under(e.origin.ds, u);
    assert Archive(d, top, s) && Archive(d, top, t) && Archive(d, top, u);
    ApartArchives(d, top, e.origin.ds, t, u);
    assert e.rel in c && Steady(g, top, c, e.rel);
    LaterClone(d, g, top, c, s, t, e.rel);
  }

  /** No dataset lies in two archives. */
  lemma ApartArchives(d: Tree, top: Name, x: Name, t: Name, u: Name)
    requires top in d && Archive(d, top, t) && Archive(d, top, u) && Under(x, t) && Under(x, u)
    ensures t == u
  {
    CousinIsLineage(top, t);
    CousinIsLineage(top, u);
    AboveSame(x, t, u);
    SameLength(t, u);
    SameLength(u, t);
  }

  lemma NoneIsInside(d: Tree, g: Graph, top: Name, trees: set<Name>, b: Blocker)
    requires Valid(d) && OwnClones(d) && IsGraph(d, g) && top in d && AreArchives(d, top, trees)
    ensures !IsInside(g, top, trees, b)
  {
    if b.rel in g && Under(b.rel, top) {
      forall t | t in trees
        ensures !ClonedFrom(g, b.rel, t)
      {
        assert Archive(d, top, t);
        if g[b.rel].Some? {
          OriginIsRelated(d, g, b.rel);
        }
        NoneFromArchive(d, g, top, t, b.rel);
      }
    }
  }

  lemma ArchivesOnly(d: Tree, g: Graph, top: Name, trees: map<Name, Dependent>)
    requires Valid(d) && IsGraph(d, g) && top in d && AreTrees(g, top, trees)
    requires SteadyIn(g, top, Covered(g, top, trees.Keys))
    ensures AreArchives(d, top, trees.Keys) && forall t :: t in trees ==> trees[t].archived
    ensures forall t :: t in trees ==> t in Covered(g, top, trees.Keys)
  {
    forall t | t in trees
      ensures Archive(d, top, t) && trees[t].archived && t in Covered(g, top, trees.Keys)
    {
      TreesAreArchives(d, g, top, trees, t);
      CousinIsLineage(top, t);
      assert IsEntry(g, top, t, trees[t]);
      assert Under(t, t);
    }
  }

  lemma NoBlockers(d: Tree, g: Graph, top: Name, plan: DestroyPlan, trees: map<Name, Dependent>,
                   edges: map<Name, set<Edge>>, stuck: set<Name>)
    requires Valid(d) && IsGraph(d, g) && top in d && SteadyIn(g, top, Covered(g, top, trees.Keys))
    requires AreArchives(d, top, trees.Keys) && forall t :: t in trees ==> trees[t].archived
    requires forall t :: t in trees ==> t in Covered(g, top, trees.Keys)
    requires NoneInside(g, top, trees.Keys) && IsPlan(g, top, plan, trees, edges, stuck)
    ensures plan.Ok()
  {
    assert plan.blockers != [] ==> plan.blockers[0] in plan.blockers;
    NoneStuck(d, g, top, trees.Keys, edges, stuck);
    forall b: Blocker
      ensures b !in plan.blockers
    {
      assert !IsInside(g, top, trees.Keys, b);
      assert !IsBlocker(g, top, trees, stuck, b);
    }
  }

  /** What must go is cloned from the roots of `top` and of its lineages, and nothing inside
      is cloned from it: the destroy has no blocker. */
  lemma SteadyIsOffered(d: Tree, g: Graph, top: Name, plan: DestroyPlan, trees: map<Name, Dependent>,
                        edges: map<Name, set<Edge>>, stuck: set<Name>)
    requires Valid(d) && IsGraph(d, g) && top in d && IsPlan(g, top, plan, trees, edges, stuck)
    requires SteadyIn(g, top, Covered(g, top, trees.Keys)) && NoneInside(g, top, trees.Keys)
    ensures plan.Ok()
  {
    ArchivesOnly(d, g, top, trees);
    NoBlockers(d, g, top, plan, trees, edges, stuck);
  }

  /** Where every clone is one zark makes, the destroy of a live dataset has no
      blocker: it is offered, and accepted as planned. */
  lemma LiveIsOffered(d: Tree, g: Graph, top: Name, plan: DestroyPlan, trees: map<Name, Dependent>,
                      edges: map<Name, set<Edge>>, stuck: set<Name>)
    requires Valid(d) && OwnClones(d) && IsGraph(d, g) && top in d && !IsArchived(top)
    requires IsPlan(g, top, plan, trees, edges, stuck)
    ensures plan.Ok() && AllAccepted(g, Rels(plan.order) + [top])
  {
    var c := Covered(g, top, trees.Keys);
    OwnEverywhere(d, g, c);
    OwnIsSteady(g, top, c);
    ArchivesOnly(d, g, top, trees);
    forall b { NoneIsInside(d, g, top, trees.Keys, b); }
    SteadyIsOffered(d, g, top, plan, trees, edges, stuck);
    PlannerSound(g, top, plan, trees, edges, stuck, c);
  }
}
