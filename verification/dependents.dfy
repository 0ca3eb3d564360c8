/** What a destroy on a drive must take first, and in which order, judged against
    `zfs destroy -r`: refused exactly when a dataset outside the tree is a clone
    of a snapshot in it. */
module Dependents {
  import opened Replication

  datatype SnapRef = SnapRef(ds: Name, snap: string)

  /** A drive's datasets and what each is a clone of. */
  type Graph = map<Name, Option<SnapRef>>

  /** A clone of a snapshot in the tree of `of`. */
  predicate ClonedFrom(g: Graph, rel: Name, of: Name) {
    rel in g && g[rel].Some? && Under(g[rel].value.ds, of)
  }

  // ---- zfs destroy -r -------------------------------------------------------

  predicate Refused(g: Graph, tree: Name) {
    exists x :: x in g && !Under(x, tree) && ClonedFrom(g, x, tree)
  }

  function WithoutTree(g: Graph, tree: Name): Graph {
    map x | x in g && !Under(x, tree) :: g[x]
  }

  /** What is left once each tree of `gone` went. */
  function Left(g: Graph, gone: seq<Name>): Graph
    decreases |gone|
  {
    if gone == [] then g else WithoutTree(Left(g, gone[..|gone| - 1]), gone[|gone| - 1])
  }

  predicate InTrees(x: Name, trees: seq<Name>) {
    exists i :: 0 <= i < |trees| && Under(x, trees[i])
  }

  lemma {:induction false} LeftIs(g: Graph, gone: seq<Name>)
    ensures forall x :: x in Left(g, gone) <==> x in g && !InTrees(x, gone)
    ensures forall x :: x in Left(g, gone) ==> Left(g, gone)[x] == g[x]
    decreases |gone|
  {
    if gone != [] {
      var n := |gone| - 1;
      LeftIs(g, gone[..n]);
      forall x
        ensures InTrees(x, gone) <==> InTrees(x, gone[..n]) || Under(x, gone[n])
      {
        if InTrees(x, gone) {
          var i :| 0 <= i < |gone| && Under(x, gone[i]);
          if i < n {
            assert gone[..n][i] == gone[i];
          }
        }
        if i :| 0 <= i < n && Under(x, gone[..n][i]) {
          assert Under(x, gone[i]);
        }
      }
    }
  }

  predicate AcceptedAt(g: Graph, order: seq<Name>, k: nat)
    requires k < |order|
  {
    !Refused(Left(g, order[..k]), order[k])
  }

  /** ZFS accepts the destroys in this order. */
  predicate AllAccepted(g: Graph, order: seq<Name>) {
    forall k: nat :: k < |order| ==> AcceptedAt(g, order, k)
  }

  // ---- the planner ----------------------------------------------------------

  datatype Dependent = Dependent(rel: Name, origin: SnapRef, archived: bool, depth: nat)

  datatype Why = Live | Inside | Cycle

  datatype Blocker = Blocker(rel: Name, origin: SnapRef, why: Why)

  datatype DestroyPlan = DestroyPlan(top: Name, order: seq<Dependent>, blockers: seq<Blocker>) {
    predicate Ok() { blockers == [] }
  }

  function Plain(rel: Name): (p: Name)
    ensures |p| == |rel|
  {
    seq(|rel|, i requires 0 <= i < |rel| => StripMark(rel[i]))
  }

  predicate IsLineageOf(rel: Name, top: Name) {
    IsArchived(rel) && Under(Plain(rel), top)
  }

  /** The datasets a destroy of `top` has to take outside it are closed: with one
      goes all below it, and with a snapshot its clones. */
  ghost predicate Closed(g: Graph, top: Name, c: set<Name>) {
    && (forall x :: x in c ==> x in g && !Under(x, top))
    && (forall x, y :: x in c && y in g && Under(y, x) && !Under(y, top) ==> y in c)
    && (forall y :: y in g && !Under(y, top) && ClonedFrom(g, y, top) ==> y in c)
    && (forall x, y :: x in c && y in g && !Under(y, top) && ClonedFrom(g, y, x) ==> y in c)
  }

  ghost predicate IsLeastClosed(g: Graph, top: Name, c: set<Name>) {
    Closed(g, top, c) && forall other: set<Name> :: Closed(g, top, other) ==> c <= other
  }

  ghost predicate Antichain(trees: set<Name>) {
    forall s, t :: s in trees && t in trees && Under(s, t) ==> s == t
  }

  /** The datasets of the dependent trees, outside `top`. */
  ghost function Covered(g: Graph, top: Name, trees: set<Name>): set<Name> {
    set x | x in g && !Under(x, top) && UnderAny(x, trees)
  }

  ghost predicate IsEntry(g: Graph, top: Name, t: Name, d: Dependent) {
    && t in g && !Under(t, top) && g[t].Some?
    && d.rel == t && d.origin == g[t].value && d.archived == IsLineageOf(t, top)
    && d.depth >= 1 && t in NewlyFound(g, Reach(g, top, d.depth - 1))
  }

  /** What goes within `k` steps from snapshot to clone. */
  ghost function Reach(g: Graph, top: Name, k: nat): set<Name> {
    if k == 0 then {top} else Reach(g, top, k - 1) + NewlyFound(g, Reach(g, top, k - 1))
  }

  /** What a correct set of dependent trees is: one entry per maximal subtree of
      the least closed set. */
  ghost predicate AreTrees(g: Graph, top: Name, trees: map<Name, Dependent>) {
    && (forall t {:trigger IsEntry(g, top, t, trees[t])} :: t in trees ==> IsEntry(g, top, t, trees[t]))
    && Antichain(trees.Keys)
    && IsLeastClosed(g, top, Covered(g, top, trees.Keys))
  }

  /** Found so far: each a clone of what goes, in every closed set. */
  ghost predicate FoundOk(g: Graph, top: Name, found: map<Name, Dependent>) {
    && (forall t {:trigger IsEntry(g, top, t, found[t])} :: t in found ==> IsEntry(g, top, t, found[t]))
    && (forall c: set<Name> :: Closed(g, top, c) ==> found.Keys <= c)
  }

  function NewlyFound(g: Graph, gone: set<Name>): set<Name> {
    set rel | rel in g && g[rel].Some? && !UnderAny(rel, gone) && UnderAny(g[rel].value.ds, gone)
  }

  lemma NewInClosed(g: Graph, top: Name, found: map<Name, Dependent>, rel: Name, c: set<Name>)
    requires FoundOk(g, top, found) && rel in NewlyFound(g, {top} + found.Keys) && Closed(g, top, c)
    ensures rel in c && !Under(rel, top)
  {
    assert top in {top} + found.Keys;
    var t :| t in {top} + found.Keys && Under(g[rel].value.ds, t);
    if t == top {
      assert ClonedFrom(g, rel, top);
    } else {
      assert t in c && ClonedFrom(g, rel, t);
    }
  }

  function Roots(found: map<Name, Dependent>): map<Name, Dependent> {
    map t | t in found && !UnderAny(t, found.Keys - {t}) :: found[t]
  }

  /** Every found dataset lies in the tree of one no other contains. */
  lemma {:induction false} RootOf(found: map<Name, Dependent>, t: Name)
    requires t in found
    ensures exists r :: r in Roots(found) && Under(t, r)
    decreases |t|
  {
    if t !in Roots(found) {
      var s :| s in found.Keys - {t} && Under(t, s);
      BelowIsLonger(t, s);
      RootOf(found, s);
      var r :| r in Roots(found) && Under(s, r);
      assert Under(t, r);
    }
  }

  lemma RootsCover(found: map<Name, Dependent>, x: Name)
    ensures UnderAny(x, found.Keys) <==> UnderAny(x, Roots(found).Keys)
  {
    if t :| t in found.Keys && Under(x, t) {
      RootOf(found, t);
      var r :| r in Roots(found) && Under(t, r);
      assert Under(x, r);
    }
  }

  lemma CoveredIsClosed(g: Graph, top: Name, found: map<Name, Dependent>)
    requires NewlyFound(g, {top} + found.Keys) == {}
    ensures Closed(g, top, Covered(g, top, found.Keys))
  {
    var cov := Covered(g, top, found.Keys);
    forall y | y in g && !Under(y, top) && IsCloneOf(g, y, top, cov)
      ensures y in cov
    {
      ClonesFound(g, top, found, y, cov);
    }
    forall x, y | x in cov && y in g && Under(y, x) && !Under(y, top)
      ensures y in cov
    {
      var t :| t in found.Keys && Under(x, t);
      assert Under(y, t);
    }
  }

  lemma CoveredIsLeast(g: Graph, top: Name, found: map<Name, Dependent>, c: set<Name>)
    requires FoundOk(g, top, found) && Closed(g, top, c)
    ensures Covered(g, top, found.Keys) <= c
  {
    forall x | x in Covered(g, top, found.Keys)
      ensures x in c
    {
      var t :| t in found.Keys && Under(x, t);
      assert t in c;
    }
  }

  lemma RootsApart(found: map<Name, Dependent>)
    ensures Antichain(Roots(found).Keys)
  {
  }

  lemma SameCover(g: Graph, top: Name, found: map<Name, Dependent>)
    ensures Covered(g, top, Roots(found).Keys) == Covered(g, top, found.Keys)
  {
    forall x { RootsCover(found, x); }
  }

  lemma RootsAreTrees(g: Graph, top: Name, found: map<Name, Dependent>)
    requires FoundOk(g, top, found) && NewlyFound(g, {top} + found.Keys) == {}
    ensures AreTrees(g, top, Roots(found))
  {
    RootsApart(found);
    SameCover(g, top, found);
    FoundIsLeast(g, top, found);
    RootEntries(g, top, found, Roots(found));
  }

  lemma RootEntries(g: Graph, top: Name, found: map<Name, Dependent>, trees: map<Name, Dependent>)
    requires FoundOk(g, top, found) && trees == Roots(found)
    ensures forall t {:trigger IsEntry(g, top, t, trees[t])} :: t in trees ==> IsEntry(g, top, t, trees[t])
  {
    forall t | t in trees
      ensures IsEntry(g, top, t, trees[t])
    {
      assert IsEntry(g, top, t, found[t]);
    }
  }

  lemma FoundIsLeast(g: Graph, top: Name, found: map<Name, Dependent>)
    requires FoundOk(g, top, found) && NewlyFound(g, {top} + found.Keys) == {}
    ensures IsLeastClosed(g, top, Covered(g, top, found.Keys))
  {
    CoveredIsClosed(g, top, found);
    forall c: set<Name> | Closed(g, top, c)
      ensures Covered(g, top, found.Keys) <= c
    {
      CoveredIsLeast(g, top, found, c);
    }
  }

  /** Cloned from the tree, or from one of `c`. */
  ghost predicate IsCloneOf(g: Graph, y: Name, top: Name, c: set<Name>) {
    ClonedFrom(g, y, top) || exists x :: x in c && ClonedFrom(g, y, x)
  }

  lemma ClonesFound(g: Graph, top: Name, found: map<Name, Dependent>, y: Name, c: set<Name>)
    requires NewlyFound(g, {top} + found.Keys) == {} && y in g && !Under(y, top) && IsCloneOf(g, y, top, c)
    requires forall x :: x in c ==> UnderAny(x, found.Keys)
    ensures UnderAny(y, found.Keys)
  {
    var gone := {top} + found.Keys;
    if ClonedFrom(g, y, top) {
      assert top in gone;
    } else {
      var x :| x in c && ClonedFrom(g, y, x);
      var t :| t in found.Keys && Under(x, t);
      assert t in gone && Under(g[y].value.ds, t);
    }
    assert UnderAny(g[y].value.ds, gone);
    assert !UnderAny(y, gone) ==> y in NewlyFound(g, gone);
    var t :| t in gone && Under(y, t);
  }

  function Extend(g: Graph, top: Name, found: map<Name, Dependent>, more: set<Name>, depth: nat): map<Name, Dependent>
    requires forall rel :: rel in more ==> rel in g && g[rel].Some?
  {
    found + map rel | rel in more :: Dependent(rel, g[rel].value, IsLineageOf(rel, top), depth)
  }

  lemma MoreIsNew(g: Graph, top: Name, found: map<Name, Dependent>, rel: Name)
    requires rel in NewlyFound(g, {top} + found.Keys)
    ensures rel !in found && !Under(rel, top) && rel in g
  {
    assert Under(rel, rel);
    assert rel in found ==> rel in {top} + found.Keys;
    assert top in {top} + found.Keys;
  }

  ghost predicate Reached(g: Graph, top: Name, found: map<Name, Dependent>, depth: nat) {
    Reach(g, top, depth) == {top} + found.Keys
  }

  lemma ReachMore(g: Graph, top: Name, found: map<Name, Dependent>, more: set<Name>, depth: nat)
    requires more == NewlyFound(g, {top} + found.Keys) && depth >= 1 && Reached(g, top, found, depth - 1)
    ensures Reached(g, top, Extend(g, top, found, more, depth), depth)
  {
  }

  lemma NewEntry(g: Graph, top: Name, rel: Name, d: Dependent)
    requires d.depth >= 1 && rel in NewlyFound(g, Reach(g, top, d.depth - 1)) && !Under(rel, top)
    requires d == Dependent(rel, g[rel].value, IsLineageOf(rel, top), d.depth)
    ensures IsEntry(g, top, rel, d)
  {
  }

  lemma MoreEntries(g: Graph, top: Name, found: map<Name, Dependent>, more: set<Name>, depth: nat,
                    found': map<Name, Dependent>)
    requires forall t {:trigger IsEntry(g, top, t, found[t])} :: t in found ==> IsEntry(g, top, t, found[t])
    requires more == NewlyFound(g, {top} + found.Keys) && found' == Extend(g, top, found, more, depth)
    requires depth >= 1 && Reached(g, top, found, depth - 1)
    ensures forall t {:trigger IsEntry(g, top, t, found'[t])} :: t in found' ==> IsEntry(g, top, t, found'[t])
  {
    forall rel | rel in found'
      ensures IsEntry(g, top, rel, found'[rel])
    {
      if rel in more {
        MoreIsNew(g, top, found, rel);
        NewEntry(g, top, rel, found'[rel]);
      } else {
        assert IsEntry(g, top, rel, found[rel]);
      }
    }
  }

  lemma FoundMore(g: Graph, top: Name, found: map<Name, Dependent>, more: set<Name>, depth: nat)
    requires FoundOk(g, top, found) && more == NewlyFound(g, {top} + found.Keys)
    requires depth >= 1 && Reached(g, top, found, depth - 1)
    ensures FoundOk(g, top, Extend(g, top, found, more, depth))
  {
    var found' := Extend(g, top, found, more, depth);
    MoreEntries(g, top, found, more, depth, found');
    forall c: set<Name>, rel | Closed(g, top, c) && rel in more
      ensures rel in c
    {
      NewInClosed(g, top, found, rel, c);
    }
  }

  lemma FoundGrows(g: Graph, top: Name, found: map<Name, Dependent>, more: set<Name>, depth: nat)
    requires more == NewlyFound(g, {top} + found.Keys) && more != {}
    ensures |g.Keys - Extend(g, top, found, more, depth).Keys| < |g.Keys - found.Keys|
  {
    var left, left' := g.Keys - found.Keys, g.Keys - Extend(g, top, found, more, depth).Keys;
    var rel :| rel in more;
    MoreIsNew(g, top, found, rel);
    assert rel in left && rel !in left' && left' <= left;
    SmallerSet(left', left);
  }

  /** What a destroy of `top` refuses for, as libzfs walks it, one per tree. */
  method Trees(g: Graph, top: Name) returns (trees: map<Name, Dependent>)
    ensures AreTrees(g, top, trees)
  {
    var found: map<Name, Dependent> := map[];
    var depth := 0;
    while true
      invariant FoundOk(g, top, found) && Reached(g, top, found, depth)
      decreases |g.Keys - found.Keys|
    {
      depth := depth + 1;
      var more := NewlyFound(g, {top} + found.Keys);
      if more == {} {
        RootsAreTrees(g, top, found);
        return Roots(found);
      }
      FoundMore(g, top, found, more, depth);
      ReachMore(g, top, found, more, depth);
      FoundGrows(g, top, found, more, depth);
      found := Extend(g, top, found, more, depth);
    }
  }

  lemma SmallerSet(a: set<Name>, b: set<Name>)
    requires a < b
    ensures |a| < |b|
  {
    var x :| x in b && x !in a;
    assert a <= b - {x};
    SubsetSize(a, b - {x});
  }

  // ---- which tree must go before which --------------------------------------

  datatype Edge = Edge(rel: Name, origin: SnapRef)

  /** A dataset of tree `s` cloned from another of the trees. */
  predicate IsEdge(g: Graph, top: Name, trees: set<Name>, s: Name, e: Edge) {
    && e.rel in g && g[e.rel] == Some(e.origin) && Under(e.rel, s) && !Under(e.rel, top)
    && exists t :: t in trees && t != s && Under(e.origin.ds, t)
  }

  /** A dataset of the tree itself cloned from a dependent. */
  predicate IsInside(g: Graph, top: Name, trees: set<Name>, b: Blocker) {
    && b.why == Inside && b.rel in g && Under(b.rel, top) && g[b.rel] == Some(b.origin)
    && UnderAny(b.origin.ds, trees)
  }

  lemma OneTree(trees: set<Name>, rel: Name, s: Name, t: Name)
    requires Antichain(trees) && s in trees && t in trees && Under(rel, s) && Under(rel, t)
    ensures s == t
  {
    AboveSame(rel, s, t);
  }

  method TreeOf(trees: set<Name>, rel: Name) returns (t: Option<Name>)
    ensures t.Some? ==> t.value in trees && Under(rel, t.value)
    ensures t.None? ==> !UnderAny(rel, trees)
  {
    if x :| x in trees && Under(rel, x) {
      return Some(x);
    }
    return None;
  }

  ghost predicate AreEdges(g: Graph, top: Name, trees: set<Name>, edges: map<Name, set<Edge>>) {
    && edges.Keys == trees
    && forall s, e :: s in trees ==> (e in edges[s] <==> IsEdge(g, top, trees, s, e))
  }

  /** What a look at some of the datasets found so far. */
  ghost predicate EdgesUpTo(g: Graph, top: Name, trees: set<Name>, edges: map<Name, set<Edge>>, inside: seq<Blocker>,
                            seen: set<Name>) {
    && edges.Keys == trees
    && (forall s, e :: s in trees ==> (e in edges[s] <==> e.rel in seen && IsEdge(g, top, trees, s, e)))
    && (forall b :: b in inside <==> b.rel in seen && IsInside(g, top, trees, b))
  }

  /** One more dataset looked at. */
  method LookAt(g: Graph, top: Name, trees: set<Name>, rel: Name, edges0: map<Name, set<Edge>>, inside0: seq<Blocker>,
                ghost seen: set<Name>) returns (edges: map<Name, set<Edge>>, inside: seq<Blocker>)
    requires Antichain(trees) && rel in g && EdgesUpTo(g, top, trees, edges0, inside0, seen)
    ensures EdgesUpTo(g, top, trees, edges, inside, seen + {rel})
  {
    edges, inside := edges0, inside0;
    if g[rel].Some? {
      var of := TreeOf(trees, g[rel].value.ds);
      if of.Some? {
        if Under(rel, top) {
          inside := inside + [Blocker(rel, g[rel].value, Inside)];
        } else {
          var mine := TreeOf(trees, rel);
          if mine.Some? && mine.value != of.value {
            edges := edges[mine.value := edges[mine.value] + {Edge(rel, g[rel].value)}];
          }
          EdgeOf(g, top, trees, rel, of.value, mine);
        }
      }
    }
  }

  method FindEdges(g: Graph, top: Name, trees: set<Name>) returns (edges: map<Name, set<Edge>>, inside: seq<Blocker>)
    requires Antichain(trees)
    ensures AreEdges(g, top, trees, edges)
    ensures forall b :: b in inside <==> IsInside(g, top, trees, b)
  {
    edges := map t | t in trees :: {};
    inside := [];
    var left := g.Keys;
    while left != {}
      invariant left <= g.Keys && EdgesUpTo(g, top, trees, edges, inside, g.Keys - left)
    {
      var rel :| rel in left;
      edges, inside := LookAt(g, top, trees, rel, edges, inside, g.Keys - left);
      assert g.Keys - left + {rel} == g.Keys - (left - {rel});
      left := left - {rel};
    }
  }

  /** The edges a dataset gives: one, from the tree it is in to the one it is
      cloned from, when they differ. */
  lemma EdgeOf(g: Graph, top: Name, trees: set<Name>, rel: Name, of: Name, mine: Option<Name>)
    requires Antichain(trees) && rel in g && g[rel].Some? && of in trees && Under(g[rel].value.ds, of)
    requires !Under(rel, top)
    requires mine.Some? ==> mine.value in trees && Under(rel, mine.value)
    requires mine.None? ==> !UnderAny(rel, trees)
    ensures forall s :: s in trees ==>
      (IsEdge(g, top, trees, s, Edge(rel, g[rel].value)) <==> mine == Some(s) && s != of)
  {
    forall s | s in trees
      ensures IsEdge(g, top, trees, s, Edge(rel, g[rel].value)) <==> mine == Some(s) && s != of
    {
      if Under(rel, s) {
        OneTree(trees, rel, s, mine.value);
      }
      if t :| t in trees && t != s && Under(g[rel].value.ds, t) {
        OneTree(trees, g[rel].value.ds, t, of);
      }
    }
  }

  // ---- the order ------------------------------------------------------------

  /** Tree `s` holds a clone of a snapshot in tree `t`: it must go first. */
  predicate Before(edges: map<Name, set<Edge>>, s: Name, t: Name) {
    s in edges && exists e :: e in edges[s] && Under(e.origin.ds, t)
  }

  ghost predicate Distinct(order: seq<Dependent>) {
    forall i, j :: 0 <= i < j < |order| ==> order[i].rel != order[j].rel
  }

  predicate InOrder(order: seq<Dependent>, t: Name) {
    exists i :: 0 <= i < |order| && order[i].rel == t
  }

  /** `order` and `left` share out the trees, and nothing placed is needed by
      anything that comes after it. */
  ghost predicate Placed(trees: map<Name, Dependent>, edges: map<Name, set<Edge>>, order: seq<Dependent>,
                         left: set<Name>) {
    && left <= trees.Keys && Distinct(order)
    && (forall d :: d in order ==> d.rel in trees && d == trees[d.rel] && d.rel !in left)
    && (forall t :: t in trees ==> t in left || InOrder(order, t))
    && (forall k, t :: 0 <= k < |order| && t in left ==> !Before(edges, t, order[k].rel))
    && (forall k, j :: 0 <= k < j < |order| ==> !Before(edges, order[j].rel, order[k].rel))
  }

  /** Why a tree was not taken at step `k`: it was no deeper, or not ready. */
  ghost predicate CouldWait(trees: map<Name, Dependent>, edges: map<Name, set<Edge>>, order: seq<Dependent>,
                            left: set<Name>,
                            k: int, t: Name)
    requires 0 <= k < |order| && t in trees
  {
    || trees[t].depth <= order[k].depth
    || (exists i :: k <= i < |order| && Before(edges, order[i].rel, t))
    || (exists s :: s in left && Before(edges, s, t))
  }

  /** Among the ready trees the deepest goes first. */
  ghost predicate DeepestFirst(edges: map<Name, set<Edge>>, order: seq<Dependent>) {
    forall k, j :: 0 <= k < j < |order| ==>
      order[j].depth <= order[k].depth || exists i :: k <= i < j && Before(edges, order[i].rel, order[j].rel)
  }

  method Deepest(trees: map<Name, Dependent>, ready: set<Name>) returns (x: Name)
    requires ready != {} && ready <= trees.Keys
    ensures x in ready && forall t :: t in ready ==> trees[t].depth <= trees[x].depth
  {
    x :| x in ready;
    var rest := ready - {x};
    while rest != {}
      invariant rest <= ready && x in ready
      invariant forall t :: t in ready - rest ==> trees[t].depth <= trees[x].depth
    {
      var t :| t in rest;
      rest := rest - {t};
      if trees[t].depth > trees[x].depth {
        x := t;
      }
    }
  }

  /** Trees that wait for each other: each needed by another of them. */
  ghost predicate IsStuck(edges: map<Name, set<Edge>>, stuck: set<Name>) {
    forall t {:trigger Needed(edges, stuck, t)} :: t in stuck ==> Needed(edges, stuck, t)
  }

  predicate Needed(edges: map<Name, set<Edge>>, left: set<Name>, t: Name) {
    exists s :: s in left && Before(edges, s, t)
  }

  lemma PlaceOne(trees: map<Name, Dependent>, edges: map<Name, set<Edge>>, order: seq<Dependent>, left: set<Name>,
                 x: Name)
    requires Placed(trees, edges, order, left) && x in left && trees[x].rel == x
    requires forall s :: s in left ==> !Before(edges, s, x)
    ensures Placed(trees, edges, order + [trees[x]], left - {x})
  {
    var order' := order + [trees[x]];
    forall t | t in trees && t !in left - {x}
      ensures InOrder(order', t)
    {
      if t == x {
        assert order'[|order|].rel == x;
      } else {
        var i :| 0 <= i < |order| && order[i].rel == t;
        assert order'[i].rel == t;
      }
    }
  }

  /** What a step of the ordering keeps about waiting: nobody placed earlier was
      passed over for something shallower that was ready. */
  ghost predicate Waited(trees: map<Name, Dependent>, edges: map<Name, set<Edge>>, order: seq<Dependent>,
                         left: set<Name>) {
    && left <= trees.Keys
    && (forall k, t :: 0 <= k < |order| && t in left ==> CouldWait(trees, edges, order, left, k, t))
    && DeepestFirst(edges, order)
  }

  lemma WaitOne(trees: map<Name, Dependent>, edges: map<Name, set<Edge>>, order: seq<Dependent>, left: set<Name>,
                x: Name)
    requires Waited(trees, edges, order, left) && x in left && trees[x].rel == x
    requires forall s :: s in left ==> !Before(edges, s, x)
    requires forall t :: t in left ==> trees[t].depth <= trees[x].depth || exists s :: s in left && Before(edges, s, t)
    ensures Waited(trees, edges, order + [trees[x]], left - {x})
  {
    var order', n := order + [trees[x]], |order|;
    forall k, t | 0 <= k < |order'| && t in left - {x}
      ensures CouldWait(trees, edges, order', left - {x}, k, t)
    {
      WaitStays(trees, edges, order, left, x, k, t);
    }
    forall k, j | 0 <= k < j < |order'|
      ensures || order'[j].depth <= order'[k].depth
              || exists i :: k <= i < j && Before(edges, order'[i].rel, order'[j].rel)
    {
      if j < n {
        if order[j].depth > order[k].depth {
          var i :| k <= i < j && Before(edges, order[i].rel, order[j].rel);
          assert Before(edges, order'[i].rel, order'[j].rel);
        }
      } else {
        assert CouldWait(trees, edges, order, left, k, x);
        if i :| k <= i < n && Before(edges, order[i].rel, x) {
          assert Before(edges, order'[i].rel, order'[j].rel);
        }
      }
    }
  }

  lemma WaitStays(trees: map<Name, Dependent>, edges: map<Name, set<Edge>>, order: seq<Dependent>, left: set<Name>,
                  x: Name,
                  k: int, t: Name)
    requires x in left && left <= trees.Keys && trees[x].rel == x && t in left && t != x && 0 <= k <= |order|
    requires k < |order| ==> CouldWait(trees, edges, order, left, k, t)
    requires trees[t].depth <= trees[x].depth || exists s :: s in left && Before(edges, s, t)
    ensures CouldWait(trees, edges, order + [trees[x]], left - {x}, k, t)
  {
    var order', n := order + [trees[x]], |order|;
    assert order'[n].rel == x;
    if k < n {
      if i :| k <= i < n && Before(edges, order[i].rel, t) {
        assert Before(edges, order'[i].rel, t);
      }
    }
    if s :| s in left && Before(edges, s, t) {
      if s == x {
        assert Before(edges, order'[n].rel, t);
      } else {
        assert s in left - {x};
      }
    }
  }

  /** The trees in an order `zfs destroy -r` accepts, and those that wait for each
      other. */
  method Topological(trees: map<Name, Dependent>, edges: map<Name, set<Edge>>)
    returns (order: seq<Dependent>, stuck: set<Name>)
    requires edges.Keys == trees.Keys && forall t :: t in trees ==> trees[t].rel == t
    ensures Placed(trees, edges, order, stuck) && IsStuck(edges, stuck) && DeepestFirst(edges, order)
  {
    order := [];
    var left := trees.Keys;
    while left != {}
      invariant Placed(trees, edges, order, left) && Waited(trees, edges, order, left)
    {
      var ready := set t | t in left && !Needed(edges, left, t);
      if ready == {} {
        assert forall t :: t in left ==> t !in ready;
        return order, left;
      }
      var x := Deepest(trees, ready);
      assert forall t :: t in left ==> t in ready || exists s :: s in left && Before(edges, s, t);
      PlaceOne(trees, edges, order, left, x);
      WaitOne(trees, edges, order, left, x);
      order, left := order + [trees[x]], left - {x};
    }
    return order, {};
  }

  // ---- the plan ---------------------------------------------------------------

  ghost predicate IsBlocker(g: Graph, top: Name, trees: map<Name, Dependent>, stuck: set<Name>, b: Blocker) {
    match b.why
    case Live => b.rel in trees && !trees[b.rel].archived && b.origin == trees[b.rel].origin
    case Inside => IsInside(g, top, trees.Keys, b)
    case Cycle => exists s :: s in stuck && IsEdge(g, top, trees.Keys, s, Edge(b.rel, b.origin))
  }

  /** What a plan says, besides the trees and the order: exactly the reasons that
      nothing can be offered. */
  ghost predicate IsPlan(g: Graph, top: Name, plan: DestroyPlan, trees: map<Name, Dependent>,
                         edges: map<Name, set<Edge>>, stuck: set<Name>) {
    && plan.top == top && AreTrees(g, top, trees) && AreEdges(g, top, trees.Keys, edges)
    && Placed(trees, edges, plan.order, stuck) && IsStuck(edges, stuck)
    && DeepestFirst(edges, plan.order)
    && forall b: Blocker :: b in plan.blockers <==> IsBlocker(g, top, trees, stuck, b)
  }

  /** What the planner promises of a plan, on its own. */
  ghost predicate IsPlanOf(g: Graph, top: Name, plan: DestroyPlan) {
    exists trees, edges, stuck :: IsPlan(g, top, plan, trees, edges, stuck)
  }

  method LiveBlockers(trees: map<Name, Dependent>) returns (bs: seq<Blocker>)
    ensures forall b: Blocker :: b in bs <==>
      b.why == Live && b.rel in trees && !trees[b.rel].archived && b.origin == trees[b.rel].origin
  {
    bs := [];
    var left := trees.Keys;
    while left != {}
      invariant left <= trees.Keys
      invariant forall b: Blocker :: b in bs <==>
        b.why == Live && b.rel in trees.Keys - left && !trees[b.rel].archived && b.origin == trees[b.rel].origin
    {
      var t :| t in left;
      if !trees[t].archived {
        bs := bs + [Blocker(t, trees[t].origin, Live)];
      }
      left := left - {t};
    }
  }

  method CycleBlockers(edges: map<Name, set<Edge>>, stuck: set<Name>) returns (bs: seq<Blocker>)
    requires stuck <= edges.Keys
    ensures forall b: Blocker :: b in bs <==>
      b.why == Cycle && exists s :: s in stuck && Edge(b.rel, b.origin) in edges[s]
  {
    var all := set s, e | s in stuck && e in edges[s] :: Blocker(e.rel, e.origin, Cycle);
    bs := Listing(all);
    forall b: Blocker | b.why == Cycle && exists s :: s in stuck && Edge(b.rel, b.origin) in edges[s]
      ensures b in bs
    {
      var s :| s in stuck && Edge(b.rel, b.origin) in edges[s];
      var e := Edge(b.rel, b.origin);
      assert b == Blocker(e.rel, e.origin, Cycle) && b in all;
    }
  }

  lemma BlockersAre(g: Graph, top: Name, trees: map<Name, Dependent>, edges: map<Name, set<Edge>>, stuck: set<Name>,
                    live: seq<Blocker>, inside: seq<Blocker>, cycle: seq<Blocker>, b: Blocker)
    requires stuck <= trees.Keys && AreEdges(g, top, trees.Keys, edges)
    requires b in live <==> b.why == Live && b.rel in trees && !trees[b.rel].archived && b.origin == trees[b.rel].origin
    requires b in inside <==> IsInside(g, top, trees.Keys, b)
    requires b in cycle <==> b.why == Cycle && exists s :: s in stuck && Edge(b.rel, b.origin) in edges[s]
    ensures b in live + inside + cycle <==> IsBlocker(g, top, trees, stuck, b)
  {
  }

  lemma RelsAreKeys(g: Graph, top: Name, trees: map<Name, Dependent>)
    requires AreTrees(g, top, trees)
    ensures forall t :: t in trees ==> trees[t].rel == t
  {
    forall t | t in trees
      ensures trees[t].rel == t
    {
      assert IsEntry(g, top, t, trees[t]);
    }
  }

  /** The dependents of `top`'s tree, in an order ZFS accepts, or why not. */
  method PlanDestroy(g: Graph, top: Name)
    returns (plan: DestroyPlan, ghost trees: map<Name, Dependent>, ghost edges: map<Name, set<Edge>>,
             ghost stuck: set<Name>)
    ensures IsPlan(g, top, plan, trees, edges, stuck) && IsPlanOf(g, top, plan)
  {
    var ts := Trees(g, top);
    RelsAreKeys(g, top, ts);
    var live := LiveBlockers(ts);
    var es, inside := FindEdges(g, top, ts.Keys);
    var order, left := Topological(ts, es);
    var cycle := CycleBlockers(es, left);
    plan := DestroyPlan(top, order, live + inside + cycle);
    trees, edges, stuck := ts, es, left;
    forall b: Blocker
      ensures b in plan.blockers <==> IsBlocker(g, top, trees, stuck, b)
    {
      BlockersAre(g, top, trees, edges, stuck, live, inside, cycle, b);
    }
    assert IsPlan(g, top, plan, trees, edges, stuck);
  }

  // ---- soundness: what is offered is accepted ---------------------------------

  function Rels(order: seq<Dependent>): (names: seq<Name>)
    ensures |names| == |order| && forall i :: 0 <= i < |order| ==> names[i] == order[i].rel
  {
    seq(|order|, i requires 0 <= i < |order| => order[i].rel)
  }

  /** No tree that would have to go first holds the tree itself. */
  ghost predicate TopStands(top: Name, trees: set<Name>) {
    forall t :: t in trees ==> !Under(top, t)
  }

  /** An archived lineage of the tree never contains it. */
  lemma ArchivedLeavesTop(g: Graph, top: Name, trees: map<Name, Dependent>)
    requires AreTrees(g, top, trees) && forall t :: t in trees ==> trees[t].archived
    ensures TopStands(top, trees.Keys)
  {
    forall t | t in trees
      ensures !Under(top, t)
    {
      assert IsEntry(g, top, t, trees[t]);
      assert |top| <= |Plain(t)|;
      SameLength(top, t);
    }
  }

  lemma SameLength(rel: Name, top: Name)
    requires |rel| <= |top|
    ensures Under(rel, top) ==> rel == top
  {
  }

  lemma ClonesAreCovered(g: Graph, top: Name, trees: map<Name, Dependent>, x: Name, of: Name)
    requires AreTrees(g, top, trees) && x in g && !Under(x, top)
    requires (of == top || of in trees) && ClonedFrom(g, x, of)
    ensures UnderAny(x, trees.Keys)
  {
    var cov := Covered(g, top, trees.Keys);
    assert Closed(g, top, cov);
    if of != top {
      assert IsEntry(g, top, of, trees[of]);
      assert Under(of, of) && of in cov;
    }
    assert x in cov;
  }

  /** Some tree of the clone graph waits for another, or for nothing of the order. */
  lemma CloneMakesEdge(g: Graph, top: Name, trees: set<Name>, edges: map<Name, set<Edge>>, x: Name, s: Name, t: Name)
    requires AreEdges(g, top, trees, edges) && s in trees && t in trees && s != t
    requires x in g && !Under(x, top) && Under(x, s) && ClonedFrom(g, x, t)
    ensures Before(edges, s, t)
  {
    var e := Edge(x, g[x].value);
    assert IsEdge(g, top, trees, s, e);
    assert e in edges[s];
  }

  lemma InTreesUpTo(x: Name, names: seq<Name>, j: nat, k: nat)
    requires j < k <= |names| && Under(x, names[j])
    ensures InTrees(x, names[..k])
  {
    assert names[..k][j] == names[j];
  }

  /** The clones of a tree in the order went before its turn comes. */
  lemma ClonesWent(g: Graph, top: Name, trees: map<Name, Dependent>, edges: map<Name, set<Edge>>, order: seq<Dependent>,
                   k: nat, x: Name)
    requires AreEdges(g, top, trees.Keys, edges) && Placed(trees, edges, order, {}) && k < |order|
    requires x in g && !Under(x, order[k].rel) && ClonedFrom(g, x, order[k].rel) && !Under(x, top)
    requires UnderAny(x, trees.Keys)
    ensures InTrees(x, Rels(order)[..k])
  {
    var t := order[k].rel;
    assert order[k] in order;
    var s :| s in trees.Keys && Under(x, s);
    CloneMakesEdge(g, top, trees.Keys, edges, x, s, t);
    var j := WentBefore(trees, edges, order, s, k);
    InTreesUpTo(x, Rels(order), j, k);
  }

  lemma WentBefore(trees: map<Name, Dependent>, edges: map<Name, set<Edge>>, order: seq<Dependent>, s: Name, k: nat)
    returns (j: nat)
    requires Placed(trees, edges, order, {}) && k < |order| && s in trees && s != order[k].rel
    requires Before(edges, s, order[k].rel)
    ensures j < k && order[j].rel == s
  {
    assert InOrder(order, s);
    j :| 0 <= j < |order| && order[j].rel == s;
  }

  ghost predicate NoneInside(g: Graph, top: Name, trees: set<Name>) {
    forall b :: !IsInside(g, top, trees, b)
  }

  lemma NotInside(g: Graph, top: Name, trees: set<Name>, x: Name, t: Name)
    requires NoneInside(g, top, trees) && x in g && t in trees && ClonedFrom(g, x, t)
    ensures !Under(x, top)
  {
    var b := Blocker(x, g[x].value, Inside);
    assert UnderAny(b.origin.ds, trees);
    assert !IsInside(g, top, trees, b);
  }

  /** A tree in the order is accepted when its turn comes. */
  lemma StepAccepted(g: Graph, top: Name, trees: map<Name, Dependent>, edges: map<Name, set<Edge>>,
                     order: seq<Dependent>,
                     k: nat)
    requires AreTrees(g, top, trees) && AreEdges(g, top, trees.Keys, edges) && Placed(trees, edges, order, {})
    requires k < |order|
    requires NoneInside(g, top, trees.Keys)
    ensures !Refused(Left(g, Rels(order)[..k]), order[k].rel)
  {
    var names, t := Rels(order), order[k].rel;
    LeftIs(g, names[..k]);
    assert order[k] in order;
    forall x | x in g && !Under(x, t) && ClonedFrom(g, x, t)
      ensures InTrees(x, names[..k])
    {
      NotInside(g, top, trees.Keys, x, t);
      ClonesAreCovered(g, top, trees, x, t);
      ClonesWent(g, top, trees, edges, order, k, x);
    }
  }

  /** The tree itself is accepted once every dependent went. */
  lemma TopAccepted(g: Graph, top: Name, trees: map<Name, Dependent>, order: seq<Name>)
    requires AreTrees(g, top, trees) && forall t :: t in trees ==> t in order
    ensures !Refused(Left(g, order), top)
  {
    LeftIs(g, order);
    forall x | x in g && !Under(x, top) && ClonedFrom(g, x, top)
      ensures InTrees(x, order)
    {
      ClonesAreCovered(g, top, trees, x, top);
      var s :| s in trees.Keys && Under(x, s);
      var j :| 0 <= j < |order| && order[j] == s;
      assert Under(x, order[j]);
    }
  }

  lemma OrderHolds(trees: map<Name, Dependent>, edges: map<Name, set<Edge>>, order: seq<Dependent>, t: Name)
    requires Placed(trees, edges, order, {})
    ensures t in Rels(order) <==> t in trees
  {
    if t in trees {
      var i :| 0 <= i < |order| && order[i].rel == t;
      assert Rels(order)[i] == t;
    }
    if i :| 0 <= i < |order| && Rels(order)[i] == t {
      assert order[i] in order;
    }
  }

  /** Without a dataset inside cloned from a dependent and without a loop, the
      planner's order is accepted step by step, the tree itself last. */
  lemma OrderAccepted(g: Graph, top: Name, trees: map<Name, Dependent>, edges: map<Name, set<Edge>>,
                      order: seq<Dependent>)
    requires AreTrees(g, top, trees) && AreEdges(g, top, trees.Keys, edges) && Placed(trees, edges, order, {})
    requires NoneInside(g, top, trees.Keys)
    ensures AllAccepted(g, Rels(order) + [top])
  {
    var names := Rels(order);
    var all, n := names + [top], |names|;
    forall t { OrderHolds(trees, edges, order, t); }
    forall k: nat | k < |all|
      ensures AcceptedAt(g, all, k)
    {
      if k < n {
        assert all[..k] == names[..k];
        StepAccepted(g, top, trees, edges, order, k);
      } else {
        assert all[..k] == names;
        TopAccepted(g, top, trees, names);
      }
    }
  }

  /** Trees that wait for each other hold a clone of one of them. */
  lemma StuckEdge(g: Graph, top: Name, trees: set<Name>, edges: map<Name, set<Edge>>, stuck: set<Name>, t: Name)
    returns (s: Name, e: Edge)
    requires AreEdges(g, top, trees, edges) && stuck <= trees && IsStuck(edges, stuck) && t in stuck
    ensures s in stuck && IsEdge(g, top, trees, s, e) && Under(e.origin.ds, t)
  {
    assert Needed(edges, stuck, t);
    s :| s in stuck && Before(edges, s, t);
    e :| e in edges[s] && Under(e.origin.ds, t);
  }

  /** A loop is reported exactly when trees wait for each other. */
  lemma StuckIsReported(g: Graph, top: Name, plan: DestroyPlan, trees: map<Name, Dependent>,
                        edges: map<Name, set<Edge>>,
                        stuck: set<Name>)
    requires IsPlan(g, top, plan, trees, edges, stuck)
    ensures stuck != {} <==> exists b: Blocker :: b in plan.blockers && b.why == Cycle
  {
    if stuck != {} {
      var t :| t in stuck;
      var s, e := StuckEdge(g, top, trees.Keys, edges, stuck, t);
      assert Edge(e.rel, e.origin) == e;
      var b := Blocker(e.rel, e.origin, Cycle);
      assert IsBlocker(g, top, trees, stuck, b);
      assert b in plan.blockers;
    }
  }

  /** What each blocker of a plan says, of the graph and the least closed set: a dependent tree
      that is no archived lineage, or a dataset inside cloned from what has to go first. */
  lemma BlockersSay(g: Graph, top: Name, plan: DestroyPlan, trees: map<Name, Dependent>, edges: map<Name, set<Edge>>,
                    stuck: set<Name>, b: Blocker)
    requires IsPlan(g, top, plan, trees, edges, stuck) && TopStands(top, trees.Keys)
    ensures var c := Covered(g, top, trees.Keys);
      && (b.why == Live ==> (b in plan.blockers <==>
            b.rel in g && b.rel in trees && !IsLineageOf(b.rel, top) && g[b.rel] == Some(b.origin)))
      && (b.why == Inside && (b.rel in g && g[b.rel] == Some(b.origin) ==> b.origin.ds in g) ==>
            (b in plan.blockers <==> b.rel in g && Under(b.rel, top) && g[b.rel] == Some(b.origin) && b.origin.ds in c))
  {
    assert b in plan.blockers <==> IsBlocker(g, top, trees, stuck, b);
    if b.rel in trees {
      assert IsEntry(g, top, b.rel, trees[b.rel]);
    }
    if Under(b.origin.ds, top) && UnderAny(b.origin.ds, trees.Keys) {
      var t :| t in trees && Under(b.origin.ds, t);
      assert IsEntry(g, top, t, trees[t]);
      AboveSame(b.origin.ds, t, top);
    }
  }

  lemma InsideIsReported(g: Graph, top: Name, plan: DestroyPlan, trees: map<Name, Dependent>,
                         edges: map<Name, set<Edge>>,
                         stuck: set<Name>)
    requires IsPlan(g, top, plan, trees, edges, stuck)
    ensures !NoneInside(g, top, trees.Keys) <==> exists b: Blocker :: b in plan.blockers && b.why == Inside
  {
    if b: Blocker :| IsInside(g, top, trees.Keys, b) {
      assert IsBlocker(g, top, trees, stuck, b);
      assert b in plan.blockers;
    }
  }

  lemma OkMeans(g: Graph, top: Name, plan: DestroyPlan, trees: map<Name, Dependent>, edges: map<Name, set<Edge>>,
                stuck: set<Name>)
    requires IsPlan(g, top, plan, trees, edges, stuck) && plan.Ok()
    ensures stuck == {} && NoneInside(g, top, trees.Keys) && forall t :: t in trees ==> trees[t].archived
  {
    StuckIsReported(g, top, plan, trees, edges, stuck);
    InsideIsReported(g, top, plan, trees, edges, stuck);
    forall t | t in trees
      ensures trees[t].archived
    {
      var b := Blocker(t, trees[t].origin, Live);
      assert b in plan.blockers <==> IsBlocker(g, top, trees, stuck, b);
    }
  }

  /** What a destroy of `top` and all that must go with it leaves. */
  ghost function Rest(g: Graph, top: Name, c: set<Name>): Graph {
    map x | x in g && !Under(x, top) && x !in c :: g[x]
  }

  lemma WhatGoes(g: Graph, top: Name, trees: map<Name, Dependent>, order: seq<Name>)
    requires forall t :: t in order <==> t in trees
    ensures Left(g, order + [top]) == Rest(g, top, Covered(g, top, trees.Keys))
  {
    var all := order + [top];
    LeftIs(g, all);
    forall x | x in g
      ensures InTrees(x, all) <==> Under(x, top) || UnderAny(x, trees.Keys)
    {
      if i :| 0 <= i < |all| && Under(x, all[i]) {
        assert i < |order| ==> order[i] in trees.Keys;
      }
      assert Under(x, top) ==> Under(x, all[|order|]);
      if t :| t in trees.Keys && Under(x, t) {
        var i :| 0 <= i < |order| && order[i] == t;
        assert Under(x, all[i]);
      }
    }
  }

  /** A plan without blockers is accepted at every step; no tree of it holds `top`,
      and what goes is `top` and the least closed set. */
  lemma PlannerSound(g: Graph, top: Name, plan: DestroyPlan, trees: map<Name, Dependent>, edges: map<Name, set<Edge>>,
                     stuck: set<Name>, c: set<Name>)
    requires IsPlan(g, top, plan, trees, edges, stuck) && plan.Ok() && IsLeastClosed(g, top, c)
    ensures AllAccepted(g, Rels(plan.order) + [top])
    ensures Left(g, Rels(plan.order) + [top]) == Rest(g, top, c)
    ensures forall d :: d in plan.order ==> !Under(top, d.rel) && !Under(d.rel, top) && IsLineageOf(d.rel, top)
  {
    OkMeans(g, top, plan, trees, edges, stuck);
    OrderAccepted(g, top, trees, edges, plan.order);
    ArchivedLeavesTop(g, top, trees);
    forall t { OrderHolds(trees, edges, plan.order, t); }
    WhatGoes(g, top, trees, Rels(plan.order));
    assert c == Covered(g, top, trees.Keys);
    forall d | d in plan.order
      ensures !Under(d.rel, top) && IsLineageOf(d.rel, top)
    {
      assert IsEntry(g, top, d.rel, trees[d.rel]);
    }
  }

  // ---- exactness: what is refused cannot be done ------------------------------

  ghost predicate IsPermutation(order: seq<Name>, trees: set<Name>) {
    && (forall t :: t in order <==> t in trees)
    && forall i, j :: 0 <= i < j < |order| ==> order[i] != order[j]
  }

  /** What stands in no tree taken yet still stands. */
  lemma StillLeft(g: Graph, taken: seq<Name>, x: Name)
    requires x in g && forall t :: t in taken ==> !Under(x, t)
    ensures x in Left(g, taken) && Left(g, taken)[x] == g[x]
  {
    LeftIs(g, taken);
    forall i | 0 <= i < |taken|
      ensures !Under(x, taken[i])
    {
      assert taken[i] in taken;
    }
  }

  lemma InsideRefuses(g: Graph, top: Name, trees: map<Name, Dependent>, b: Blocker, order: seq<Name>)
    requires AreTrees(g, top, trees) && TopStands(top, trees.Keys) && IsInside(g, top, trees.Keys, b)
    requires IsPermutation(order, trees.Keys)
    ensures !AllAccepted(g, order + [top])
  {
    var t :| t in trees.Keys && Under(b.origin.ds, t);
    var k :| 0 <= k < |order| && order[k] == t;
    var all := order + [top];
    forall s | s in trees
      ensures !Under(b.rel, s)
    {
      assert IsEntry(g, top, s, trees[s]);
      assert Under(b.rel, s) ==> Under(s, top) || Under(top, s);
    }
    assert all[..k] == order[..k];
    forall s | s in all[..k]
      ensures s in trees
    {
      assert s in order;
    }
    StillLeft(g, all[..k], b.rel);
    assert ClonedFrom(Left(g, all[..k]), b.rel, t);
    assert !AcceptedAt(g, all, k);
  }

  /** The first of some trees in an order. */
  lemma {:induction false} FirstOf(order: seq<Name>, some: set<Name>) returns (k: nat)
    requires exists i :: 0 <= i < |order| && order[i] in some
    ensures k < |order| && order[k] in some && forall i :: 0 <= i < k ==> order[i] !in some
    decreases |order|
  {
    if order[0] in some {
      k := 0;
    } else {
      var i :| 0 <= i < |order| && order[i] in some;
      assert order[1..][i - 1] in some;
      var j := FirstOf(order[1..], some);
      k := j + 1;
      assert forall i :: 1 <= i < k ==> order[i] == order[1..][i - 1];
    }
  }

  lemma CycleRefuses(g: Graph, top: Name, trees: map<Name, Dependent>, edges: map<Name, set<Edge>>, stuck: set<Name>,
                     order: seq<Name>)
    requires AreTrees(g, top, trees) && AreEdges(g, top, trees.Keys, edges)
    requires stuck != {} && stuck <= trees.Keys && IsStuck(edges, stuck) && IsPermutation(order, trees.Keys)
    ensures !AllAccepted(g, order + [top])
  {
    var some :| some in stuck;
    assert some in order;
    var k := FirstOf(order, stuck);
    var t := order[k];
    var s, e := StuckEdge(g, top, trees.Keys, edges, stuck, t);
    var u :| u in trees.Keys && u != s && Under(e.origin.ds, u);
    OneTree(trees.Keys, e.origin.ds, u, t);
    OnlyIn(trees.Keys, e.rel, s);
    var all := order + [top];
    assert all[..k] == order[..k];
    forall r | r in all[..k]
      ensures r in trees && r != s
    {
      var i :| 0 <= i < k && order[i] == r;
      assert r in order;
    }
    StillLeft(g, all[..k], e.rel);
    assert ClonedFrom(Left(g, all[..k]), e.rel, t);
    assert !AcceptedAt(g, all, k);
  }

  lemma OnlyIn(trees: set<Name>, rel: Name, s: Name)
    requires Antichain(trees) && s in trees && Under(rel, s)
    ensures forall r :: r in trees && r != s ==> !Under(rel, r)
  {
    forall r | r in trees && Under(rel, r)
      ensures r == s
    {
      OneTree(trees, rel, r, s);
    }
  }

  lemma OrderPermutes(trees: map<Name, Dependent>, edges: map<Name, set<Edge>>, order: seq<Dependent>)
    requires Placed(trees, edges, order, {})
    ensures IsPermutation(Rels(order), trees.Keys)
  {
    forall t { OrderHolds(trees, edges, order, t); }
  }

  ghost predicate NoWay(plan: DestroyPlan) {
    exists b: Blocker :: b in plan.blockers && b.why != Live
  }

  /** When no dependent tree contains `top`: a dataset inside or a loop is reported
      exactly when no order of the trees followed by `top` would be accepted. */
  lemma PlannerExact(g: Graph, top: Name, plan: DestroyPlan, trees: map<Name, Dependent>, edges: map<Name, set<Edge>>,
                     stuck: set<Name>)
    requires IsPlan(g, top, plan, trees, edges, stuck) && TopStands(top, trees.Keys)
    ensures NoWay(plan) <==> forall order :: IsPermutation(order, trees.Keys) ==> !AllAccepted(g, order + [top])
  {
    StuckIsReported(g, top, plan, trees, edges, stuck);
    InsideIsReported(g, top, plan, trees, edges, stuck);
    if b: Blocker :| b in plan.blockers && b.why != Live {
      assert IsBlocker(g, top, trees, stuck, b);
      forall order | IsPermutation(order, trees.Keys)
        ensures !AllAccepted(g, order + [top])
      {
        if b.why == Inside {
          InsideRefuses(g, top, trees, b, order);
        } else {
          CycleRefuses(g, top, trees, edges, stuck, order);
        }
      }
    } else {
      OrderAccepted(g, top, trees, edges, plan.order);
      OrderPermutes(trees, edges, plan.order);
    }
  }

  // ---- running the plan -------------------------------------------------------

  /** A drive as the destroys change it. A command may also fail for a reason of
      its own, unless the drive is calm. */
  class DriveGraph {
    var g: Graph
    const calm: bool

    constructor (g: Graph, calm: bool)
      ensures this.g == g && this.calm == calm
    {
      this.g, this.calm := g, calm;
    }

    method DestroyTree(tree: Name) returns (ok: bool)
      modifies this
      ensures ok ==> tree in old(g) && !Refused(old(g), tree) && g == WithoutTree(old(g), tree)
      ensures !ok ==> g == old(g)
      ensures calm && tree in old(g) && !Refused(old(g), tree) ==> ok
    {
      var spurious: bool := *;
      ok := tree in g && !Refused(g, tree) && (calm || !spurious);
      if ok {
        g := WithoutTree(g, tree);
      }
    }

    /** Each dependent in the plan's order, the first failure stops there. `gone`
        names exactly what went. */
    method DestroyDependents(plan: DestroyPlan) returns (gone: seq<Name>, all: bool)
      modifies this
      ensures gone <= Rels(plan.order) && g == Left(old(g), gone)
      ensures all <==> plan.Ok() && gone == Rels(plan.order)
      ensures !plan.Ok() ==> gone == [] && g == old(g)
      ensures calm && plan.Ok() && AllThere(old(g), Rels(plan.order)) && AllAccepted(old(g), Rels(plan.order)) ==> all
    {
      if !plan.Ok() {
        return [], false;
      }
      gone := [];
      var k := 0;
      ghost var names := Rels(plan.order);
      while k < |plan.order|
        invariant 0 <= k <= |plan.order| && gone == names[..k] && g == Left(old(g), gone)
      {
        var ok := DestroyTree(plan.order[k].rel);
        if !ok {
          assert AllThere(old(g), names) ==> ThereAt(old(g), names, k);
          assert AllAccepted(old(g), names) ==> AcceptedAt(old(g), names, k);
          return gone, false;
        }
        gone := gone + [plan.order[k].rel];
        assert gone[..|gone| - 1] == names[..k];
        k := k + 1;
        assert gone == names[..k];
      }
      return gone, true;
    }

    /** The destroy of a tree, after what was cloned from it. A failure stops
        before the tree, with exactly `gone` taken. */
    method Destroy(top: Name, deps: Option<DestroyPlan>) returns (ok: bool, gone: seq<Name>)
      modifies this
      ensures gone <= WhatIsRun(top, deps) && g == Left(old(g), gone)
      ensures ok <==> (deps.Some? ==> deps.value.Ok()) && gone == WhatIsRun(top, deps)
      ensures deps.Some? && !deps.value.Ok() ==> gone == []
      ensures calm && (deps.Some? ==> deps.value.Ok()) ==>
        AllThere(old(g), WhatIsRun(top, deps)) && AllAccepted(old(g), WhatIsRun(top, deps)) ==> ok
    {
      gone := [];
      ghost var names := WhatIsRun(top, deps);
      if deps.Some? {
        PrefixRuns(old(g), Rels(deps.value.order), top);
        var all: bool;
        gone, all := DestroyDependents(deps.value);
        if !all {
          return false, gone;
        }
      }
      ghost var n := |names| - 1;
      assert names[..n] == gone && names[n] == top;
      assert AllThere(old(g), names) ==> ThereAt(old(g), names, n);
      assert AllAccepted(old(g), names) ==> AcceptedAt(old(g), names, n);
      ok := DestroyTree(top);
      if ok {
        gone := gone + [top];
        assert gone[..n] == names[..n];
      }
    }

    /** What the drive's owner gets who confirms a destroy that was offered: with no
        fault it succeeds exactly when it was, and takes `top` and the least closed
        set, no more. */
    method PlanAndDestroy(top: Name) returns (ok: bool, plan: DestroyPlan)
      requires top in g
      modifies this
      ensures IsPlanOf(old(g), top, plan) && (ok ==> plan.Ok()) && (calm ==> (ok <==> plan.Ok()))
      ensures ok ==> exists c :: IsLeastClosed(old(g), top, c) && g == Rest(old(g), top, c)
      ensures calm && !ok ==> g == old(g)
    {
      ghost var trees: map<Name, Dependent>, edges: map<Name, set<Edge>>, stuck: set<Name>;
      plan, trees, edges, stuck := PlanDestroy(g, top);
      if plan.Ok() {
        ghost var c := Covered(g, top, trees.Keys);
        PlannerSound(g, top, plan, trees, edges, stuck, c);
        OkMeans(g, top, plan, trees, edges, stuck);
        ArchivedLeavesTop(g, top, trees);
        AllThereInOrder(g, top, trees, edges, plan.order);
        var gone: seq<Name>;
        ok, gone := Destroy(top, Some(plan));
      } else {
        ok := false;
      }
    }
  }

  ghost predicate ThereAt(g: Graph, order: seq<Name>, k: nat)
    requires k < |order|
  {
    order[k] in Left(g, order[..k])
  }

  /** Each tree still stands when its turn comes. */
  ghost predicate AllThere(g: Graph, order: seq<Name>) {
    forall k: nat :: k < |order| ==> ThereAt(g, order, k)
  }

  function WhatIsRun(top: Name, deps: Option<DestroyPlan>): seq<Name> {
    (if deps.Some? then Rels(deps.value.order) else []) + [top]
  }

  lemma PrefixRuns(g: Graph, order: seq<Name>, top: Name)
    ensures AllThere(g, order + [top]) ==> AllThere(g, order)
    ensures AllAccepted(g, order + [top]) ==> AllAccepted(g, order)
  {
    var all := order + [top];
    forall k: nat | k < |order|
      ensures AllThere(g, all) ==> ThereAt(g, order, k)
      ensures AllAccepted(g, all) ==> AcceptedAt(g, order, k)
    {
      assert all[..k] == order[..k];
      assert AllThere(g, all) ==> ThereAt(g, all, k);
      assert AllAccepted(g, all) ==> AcceptedAt(g, all, k);
    }
  }

  lemma AllThereInOrder(g: Graph, top: Name, trees: map<Name, Dependent>, edges: map<Name, set<Edge>>,
                        order: seq<Dependent>)
    requires top in g && AreTrees(g, top, trees) && Placed(trees, edges, order, {}) && TopStands(top, trees.Keys)
    ensures AllThere(g, Rels(order) + [top])
  {
    var all := Rels(order) + [top];
    OrderPermutes(trees, edges, order);
    forall k: nat | k < |all|
      ensures ThereAt(g, all, k)
    {
      var t := all[k];
      forall s | s in all[..k]
        ensures !Under(t, s)
      {
        var i :| 0 <= i < k && all[i] == s;
        assert s in Rels(order);
        assert k < |order| ==> t in Rels(order);
      }
      if k < |order| {
        assert t in Rels(order);
        assert IsEntry(g, top, t, trees[t]);
      }
      StillLeft(g, all[..k], t);
    }
  }
}
