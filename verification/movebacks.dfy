/** A branch that fails while it moves the children back: which destroys are still offered,
    decided by what can be read before the branch. */
module MoveBacks {
  import opened Replication
  import opened Dependents
  import opened Lineages
  import opened Branching
  import opened Ordering
  import opened Rollbacks
  import opened Receipts

  /** A branch of a live dataset, as far as the children `back`. */
  ghost predicate PartWay(d: Tree, rel: Name, kept: Name, k: nat, back: set<Name>, d': Tree) {
    && Valid(d) && OwnClones(d) && Valid(d') && !IsArchived(rel) && CanRename(d, rel, kept) && Related(kept, rel)
    && back <= ChildrenIn(d.Keys, rel) && IsBranched(d, rel, kept, k, back, d')
  }

  /** A child went back whose origin, another child, did not. */
  ghost predicate IsSplit(d: Tree, rel: Name, back: set<Name>) {
    exists x, h :: SplitPair(d, rel, back, x, h)
  }

  ghost predicate SplitPair(d: Tree, rel: Name, back: set<Name>, x: Name, h: Name) {
    IsChild(x, rel) && IsChild(h, rel) && From(d, x, h) && x in back && h !in back
  }

  // ---- where the clones are ---------------------------------------------------------------

  /** Where a dataset of the drive was before the branch. */
  function Home(rel: Name, kept: Name, y: Name): Name {
    if Under(y, kept) then Rebase(y, kept, rel) else y
  }

  lemma PartSides(d: Tree, rel: Name, kept: Name, k: nat, back: set<Name>, d': Tree)
    requires PartWay(d, rel, kept, k, back, d')
    ensures !Under(rel, kept) && !Under(kept, rel) && HasMark(Last(kept)) && IsArchived(kept) && |kept| == |rel| >= 1
    ensures rel in d' && kept in d' && rel in d && k < |d[rel].snaps|
    ensures d'[rel] == Fs(d[rel].snaps[..k + 1], d[rel].origin)
    ensures d'[kept] == Fs(d[rel].snaps[k + 1..], Some(d[rel].snaps[k].id))
  {
    NotUnderEachOther(d, rel, kept);
    MarkedBeside(rel, kept);
    TwoAt(d, rel, kept, k, back, d');
  }

  lemma TwoAt(d: Tree, rel: Name, kept: Name, k: nat, back: set<Name>, d': Tree)
    requires IsBranched(d, rel, kept, k, back, d') && rel != kept
    ensures rel in d' && kept in d'
    ensures d'[rel] == Fs(d[rel].snaps[..k + 1], d[rel].origin)
    ensures d'[kept] == Fs(d[rel].snaps[k + 1..], Some(d[rel].snaps[k].id))
  {
    assert Lookup(d', rel) == Branched(d, rel, kept, k, back, rel);
    assert Lookup(d', kept) == Branched(d, rel, kept, k, back, kept);
  }

  /** A dataset other than the two is as it was, on the side its child is on. */
  lemma PartAt(d: Tree, rel: Name, kept: Name, k: nat, back: set<Name>, d': Tree, y: Name)
    requires PartWay(d, rel, kept, k, back, d') && y in d' && y != rel && y != kept
    ensures var x := Home(rel, kept, y);
      && x in d && d'[y] == d[x] && x != rel
      && (Under(x, rel) ==> (Under(y, kept) <==> !UnderAny(x, back)))
  {
    PartSides(d, rel, kept, k, back, d');
    assert Lookup(d', y) == Branched(d, rel, kept, k, back, y);
    if Under(y, kept) {
      BelowIsLonger(y, kept);
      assert !Under(y, rel) by {
        if Under(y, rel) {
          AboveSame(y, rel, kept);
        }
      }
    }
  }

  lemma PartHolds(d: Tree, rel: Name, kept: Name, k: nat, back: set<Name>, d': Tree, h: Name, id: nat)
    requires PartWay(d, rel, kept, k, back, d') && h in d' && Holds(d'[h], id)
    ensures Home(rel, kept, h) in d && Holds(d[Home(rel, kept, h)], id)
  {
    PartSides(d, rel, kept, k, back, d');
    if h == rel || h == kept {
      var s :| s in d'[h].snaps && s.id == id;
      assert s in d[rel].snaps;
      assert Rebase(kept, kept, rel) == rel;
    } else {
      PartAt(d, rel, kept, k, back, d', h);
    }
  }

  /** Clone and origin were clone and origin, side by side. */
  lemma PartFrom(d: Tree, rel: Name, kept: Name, k: nat, back: set<Name>, d': Tree, y: Name, h: Name)
    requires PartWay(d, rel, kept, k, back, d') && From(d', y, h) && y != kept
    ensures From(d, Home(rel, kept, y), Home(rel, kept, h)) && Related(Home(rel, kept, h), Home(rel, kept, y))
  {
    PartSides(d, rel, kept, k, back, d');
    if y != rel {
      PartAt(d, rel, kept, k, back, d', y);
    }
    var x := Home(rel, kept, y);
    PartHolds(d, rel, kept, k, back, d', h, d'[y].origin.value);
    assert CloneAt(d, x);
    var h0 :| h0 in d && Holds(d[h0], d[x].origin.value) && Related(h0, x);
    OneOrigin(d, x, h0, Home(rel, kept, h));
  }

  /** The archive holds a clone of what is back beside the dataset. */
  predicate Across(rel: Name, kept: Name, y: Name, h: Name) {
    |y| == |h| == |rel| + 1 && Under(y, kept) && Under(h, rel) && Plain(y) == Plain(h)
  }

  /** Two datasets below one child of `rel` are on one side. */
  lemma SameSide(rel: Name, back: set<Name>, x: Name, h: Name)
    requires AreChildren(back, rel) && Related(h, x) && Under(x, rel) && |x| > |rel| + 1
    ensures UnderAny(x, back) <==> UnderAny(h, back)
  {
    var n := |rel| + 1;
    assert Parent(x)[..n] == x[..n] && Parent(h)[..n] == h[..n];
    assert forall c :: c in back ==> (Under(x, c) <==> x[..n] == c) && (Under(h, c) <==> h[..n] == c);
  }

  lemma MovedSame(rel: Name, kept: Name, y: Name, h: Name)
    requires Related(kept, rel) && Related(Home(rel, kept, h), Home(rel, kept, y))
    requires Under(y, kept) && Under(h, kept)
    ensures Related(h, y)
  {
    var x, hx := Home(rel, kept, y), Home(rel, kept, h);
    RebaseBack(y, kept, rel);
    RebaseBack(h, kept, rel);
    MovedRelated(hx, x, rel, kept, h, y);
  }

  lemma RebasePlain(x: Name, rel: Name, kept: Name)
    requires Related(kept, rel) && Under(x, kept)
    ensures Plain(Rebase(x, kept, rel)) == Plain(x) && |Rebase(x, kept, rel)| == |x|
  {
    RelatedPlain(kept, rel);
    assert x == kept + x[|kept|..];
    var y := Rebase(x, kept, rel);
    assert y == rel + x[|kept|..];
    assert forall i :: 0 <= i < |rel| ==> Plain(y)[i] == Plain(rel)[i] && Plain(x)[i] == Plain(kept)[i];
  }

  /** Below `rel`: side by side still, or across with the clone in the archive, unless a child
      went back without its origin. */
  lemma BelowAfter(d: Tree, rel: Name, kept: Name, k: nat, back: set<Name>, d': Tree, y: Name, h: Name)
    requires PartWay(d, rel, kept, k, back, d') && From(d', y, h) && y != kept && y != rel
    requires Under(Home(rel, kept, y), rel) && !IsSplit(d, rel, back)
    ensures Related(h, y) || Across(rel, kept, y, h)
  {
    PartSides(d, rel, kept, k, back, d');
    PartFrom(d, rel, kept, k, back, d', y, h);
    PartAt(d, rel, kept, k, back, d', y);
    var x, hx := Home(rel, kept, y), Home(rel, kept, h);
    BelowIsLonger(x, rel);
    RelatedBelow(x, hx, rel);
    PartAtBelow(d, rel, kept, k, back, d', h);
    if |x| > |rel| + 1 {
      SameSide(rel, back, x, hx);
    } else {
      ChildInBack(rel, back, x);
      ChildInBack(rel, back, hx);
      assert !SplitPair(d, rel, back, x, hx);
    }
    if Under(y, kept) && Under(h, kept) {
      MovedSame(rel, kept, y, h);
    } else if Under(y, kept) {
      RebasePlain(y, rel, kept);
      RelatedPlain(hx, x);
    }
  }

  lemma PartAtBelow(d: Tree, rel: Name, kept: Name, k: nat, back: set<Name>, d': Tree, h: Name)
    requires PartWay(d, rel, kept, k, back, d') && h in d' && Under(Home(rel, kept, h), rel)
    requires |Home(rel, kept, h)| > |rel|
    ensures Under(h, kept) <==> !UnderAny(Home(rel, kept, h), back)
  {
    PartSides(d, rel, kept, k, back, d');
    assert Rebase(kept, kept, rel) == rel;
    PartAt(d, rel, kept, k, back, d', h);
  }

  /** Elsewhere clone and origin are side by side as before. */
  lemma BesideAfter(d: Tree, rel: Name, kept: Name, k: nat, back: set<Name>, d': Tree, y: Name, h: Name)
    requires PartWay(d, rel, kept, k, back, d') && From(d', y, h) && y != kept
    requires y == rel || !Under(Home(rel, kept, y), rel)
    ensures Related(h, y)
  {
    PartSides(d, rel, kept, k, back, d');
    PartFrom(d, rel, kept, k, back, d', y, h);
    var x, hx := Home(rel, kept, y), Home(rel, kept, h);
    assert x == y;
    NotFromItself(d, x);
    if Under(h, kept) {
      if hx != rel {
        RelatedSym(hx, x);
        RelatedBelow(hx, x, rel);
        SameLength(rel, hx);
      } else {
        BelowKeptIs(rel, kept, h);
      }
    }
  }

  lemma BelowKeptIs(rel: Name, kept: Name, h: Name)
    requires Under(h, kept) && |kept| == |rel| && Rebase(h, kept, rel) == rel
    ensures h == kept
  {
    RebaseBack(h, kept, rel);
    assert Rebase(rel, rel, kept) == kept;
  }

  lemma EdgeAfter(d: Tree, rel: Name, kept: Name, k: nat, back: set<Name>, d': Tree, y: Name, h: Name)
    requires PartWay(d, rel, kept, k, back, d') && From(d', y, h) && !IsSplit(d, rel, back)
    ensures Related(h, y) || Across(rel, kept, y, h)
  {
    PartSides(d, rel, kept, k, back, d');
    if y == kept {
      KeptFrom(d, rel, kept, k, back, d');
      OneOrigin(d', kept, rel, h);
      RelatedSym(kept, rel);
    } else if y != rel && Under(Home(rel, kept, y), rel) {
      BelowAfter(d, rel, kept, k, back, d', y, h);
    } else {
      BesideAfter(d, rel, kept, k, back, d', y, h);
    }
  }

  lemma KeptFrom(d: Tree, rel: Name, kept: Name, k: nat, back: set<Name>, d': Tree)
    requires PartWay(d, rel, kept, k, back, d')
    ensures From(d', kept, rel)
  {
    PartSides(d, rel, kept, k, back, d');
    assert d'[rel].snaps[k] in d'[rel].snaps;
  }

  // ---- offered still -------------------------------------------------------------------------

  lemma AcrossIsSteady(g: Graph, top: Name, c: set<Name>, y: Name, rel: Name, kept: Name)
    requires y in c && y in g && g[y].Some? && Across(rel, kept, y, g[y].value.ds)
    requires !IsArchived(top) && !IsArchived(rel) && Related(kept, rel) && IsArchived(kept) && !Under(y, top)
    requires top == rel ==> kept in c && LineageOfTop(g, rel, kept)
    ensures Steady(g, top, c, y)
  {
    var h := g[y].value.ds;
    PlainOfLive(top);
    assert y != top;
    if Under(h, top) {
      if top != h {
        AboveChild(rel, h, top);
        if top != rel {
          RelatedBelow(rel, kept, top);
          UnderBoth(y, kept, top);
        }
      }
    }
    forall s | s in c && Cousin(s, top) && Under(h, s) && !Under(y, s)
      ensures h == s && Cousin(y, top)
    {
      CousinIsLineage(top, s);
      if s != h {
        AboveChild(rel, h, s);
        ArchivedAbove(rel, s);
      }
    }
  }

  lemma AboveChild(rel: Name, h: Name, t: Name)
    requires Under(h, rel) && |h| == |rel| + 1 && Under(h, t) && t != h
    ensures Under(rel, t)
  {
    BelowIsLonger(h, t);
    assert h[..|rel|] == rel;
  }

  lemma ArchivedAbove(x: Name, s: Name)
    requires IsArchived(s) && Under(x, s)
    ensures IsArchived(x)
  {
    var i :| 0 <= i < |s| && HasMark(s[i]);
    assert x[i] == s[i];
  }

  lemma RelatedIsSteady(g: Graph, top: Name, c: set<Name>, y: Name)
    requires y in c && y in g && g[y].Some? && Related(g[y].value.ds, y) && !IsArchived(top) && !Under(y, top)
    ensures Steady(g, top, c, y)
  {
    OwnIsSteady(g, top, {y});
    var h := g[y].value.ds;
    assert Steady(g, top, {y}, y);
    RelatedPlain(h, y);
    assert Under(top, top);
    forall s | s in c && Cousin(s, top) && Under(h, s) && !Under(y, s)
      ensures h == s && Cousin(y, top)
    {
      RelatedBeside(y, h, s);
    }
    if Under(h, top) {
      RelatedBeside(y, h, top);
    }
  }

  lemma KeptIsLineage(d: Tree, rel: Name, kept: Name, k: nat, back: set<Name>, d': Tree, g: Graph)
    requires PartWay(d, rel, kept, k, back, d') && IsGraph(d', g)
    ensures LineageOfTop(g, rel, kept) && !Under(kept, rel) && ClonedFrom(g, kept, rel)
  {
    PartSides(d, rel, kept, k, back, d');
    KeptFrom(d, rel, kept, k, back, d');
    GraphFrom(d', g, kept);
    PlainOfLive(rel);
    RelatedPlain(kept, rel);
    assert Under(rel, rel);
  }

  lemma PartIsSteady(d: Tree, rel: Name, kept: Name, k: nat, back: set<Name>, d': Tree, g: Graph, top: Name,
                     c: set<Name>)
    requires PartWay(d, rel, kept, k, back, d') && !IsSplit(d, rel, back) && IsGraph(d', g)
    requires top in d' && !IsArchived(top) && Closed(g, top, c)
    ensures SteadyIn(g, top, c)
  {
    PartSides(d, rel, kept, k, back, d');
    KeptIsLineage(d, rel, kept, k, back, d', g);
    forall y | y in c && y in g && g[y].Some?
      ensures Steady(g, top, c, y)
    {
      GraphFrom(d', g, y);
      EdgeAfter(d, rel, kept, k, back, d', y, g[y].value.ds);
      if Related(g[y].value.ds, y) {
        RelatedIsSteady(g, top, c, y);
      } else {
        AcrossIsSteady(g, top, c, y, rel, kept);
      }
    }
  }

  /** Nothing inside a live dataset is cloned from one of its archives. */
  lemma PartNoneFrom(d: Tree, rel: Name, kept: Name, k: nat, back: set<Name>, d': Tree, g: Graph, top: Name, t: Name,
                     y: Name)
    requires PartWay(d, rel, kept, k, back, d') && !IsSplit(d, rel, back) && IsGraph(d', g)
    requires top in d' && !IsArchived(top) && Archive(d', top, t) && y in d' && Under(y, top)
    ensures !ClonedFrom(g, y, t)
  {
    if g[y].Some? {
      var h := g[y].value.ds;
      PartSides(d, rel, kept, k, back, d');
      GraphFrom(d', g, y);
      EdgeAfter(d, rel, kept, k, back, d', y, h);
      if Related(h, y) {
        NoneFromArchive(d', g, top, t, y);
      } else {
        AcrossInside(rel, kept, y, h, top, t);
      }
    }
  }

  lemma AcrossInside(rel: Name, kept: Name, y: Name, h: Name, top: Name, t: Name)
    requires Across(rel, kept, y, h) && !IsArchived(top) && IsArchived(kept) && Related(kept, rel) && Under(y, top)
    requires Cousin(t, top)
    ensures !Under(h, t)
  {
    CousinIsLineage(top, t);
    AboveSame(y, kept, top);
    if Under(top, kept) {
      ArchivedAbove(top, kept);
    }
    BelowIsLonger(kept, top);
    RelatedSym(kept, rel);
    RelatedBelow(kept, rel, top);
    UnderBoth(h, rel, top);
    if Under(h, t) {
      AboveSame(h, t, top);
      SameLength(t, top);
      SameLength(top, t);
    }
  }

  /** Unless a child went back without its origin, the destroy of every live dataset is
      still offered, and accepted as planned. */
  lemma PartOffered(d: Tree, rel: Name, kept: Name, k: nat, back: set<Name>, d': Tree, g: Graph, top: Name,
                    plan: DestroyPlan, trees: map<Name, Dependent>, edges: map<Name, set<Edge>>, stuck: set<Name>)
    requires PartWay(d, rel, kept, k, back, d') && !IsSplit(d, rel, back) && IsGraph(d', g)
    requires top in d' && !IsArchived(top) && IsPlan(g, top, plan, trees, edges, stuck)
    ensures plan.Ok() && AllAccepted(g, Rels(plan.order) + [top])
  {
    var c := Covered(g, top, trees.Keys);
    CoverIsClosed(g, top, trees);
    PartIsSteady(d, rel, kept, k, back, d', g, top, c);
    ArchivesOnly(d', g, top, trees);
    forall b
      ensures !IsInside(g, top, trees.Keys, b)
    {
      if b.rel in g && Under(b.rel, top) {
        forall t | t in trees
          ensures !ClonedFrom(g, b.rel, t)
        {
          assert Archive(d', top, t);
          PartNoneFrom(d, rel, kept, k, back, d', g, top, t, b.rel);
        }
      }
    }
    SteadyIsOffered(d', g, top, plan, trees, edges, stuck);
    PlannerSound(g, top, plan, trees, edges, stuck, c);
  }

  // ---- and blocked otherwise -------------------------------------------------------------------

  lemma SplitFrom(d: Tree, rel: Name, kept: Name, k: nat, back: set<Name>, d': Tree, x: Name, h: Name)
    requires PartWay(d, rel, kept, k, back, d') && SplitPair(d, rel, back, x, h)
    ensures From(d', x, Rebase(h, rel, kept)) && Under(Rebase(h, rel, kept), kept)
  {
    PartSides(d, rel, kept, k, back, d');
    ChildInBack(rel, back, x);
    ChildInBack(rel, back, h);
    var away := Rebase(h, rel, kept);
    RebaseBack(h, rel, kept);
    BelowIsLonger(h, rel);
    assert !Under(away, rel) by {
      if Under(away, rel) {
        AboveSame(away, rel, kept);
      }
    }
    assert Lookup(d', x) == Branched(d, rel, kept, k, back, x);
    assert Lookup(d', away) == Branched(d, rel, kept, k, back, away);
  }

  lemma PartBlocked(d: Tree, rel: Name, kept: Name, k: nat, back: set<Name>, d': Tree, g: Graph,
                    plan: DestroyPlan, trees: map<Name, Dependent>, edges: map<Name, set<Edge>>, stuck: set<Name>)
    requires PartWay(d, rel, kept, k, back, d') && IsSplit(d, rel, back) && IsGraph(d', g)
    requires IsPlan(g, rel, plan, trees, edges, stuck)
    ensures !plan.Ok()
  {
    var x, h :| SplitPair(d, rel, back, x, h);
    var away := Rebase(h, rel, kept);
    var c := Covered(g, rel, trees.Keys);
    PartSides(d, rel, kept, k, back, d');
    SplitFrom(d, rel, kept, k, back, d', x, h);
    KeptIsLineage(d, rel, kept, k, back, d', g);
    GraphFrom(d', g, x);
    CoverIsClosed(g, rel, trees);
    AwayInCover(g, rel, kept, away, c);
    if plan.Ok() {
      OkLineages(g, rel, plan, trees, edges, stuck);
      InsideIsBlocked(g, rel, trees);
    }
  }

  lemma AwayInCover(g: Graph, rel: Name, kept: Name, away: Name, c: set<Name>)
    requires Closed(g, rel, c) && kept in g && !Under(kept, rel) && !Under(rel, kept) && ClonedFrom(g, kept, rel)
    requires away in g && Under(away, kept)
    ensures away in c
  {
    if Under(away, rel) {
      AboveSame(away, rel, kept);
    }
  }

  /** After a branch that failed on a child, the destroy of the branched dataset is offered
      exactly when no child went back without its origin; then that of every other live
      dataset is too. */
  lemma PartExactly(d: Tree, rel: Name, kept: Name, k: nat, back: set<Name>, d': Tree, g: Graph,
                    plan: DestroyPlan, trees: map<Name, Dependent>, edges: map<Name, set<Edge>>, stuck: set<Name>)
    requires PartWay(d, rel, kept, k, back, d') && IsGraph(d', g) && IsPlan(g, rel, plan, trees, edges, stuck)
    ensures plan.Ok() <==> !IsSplit(d, rel, back)
  {
    PartSides(d, rel, kept, k, back, d');
    if IsSplit(d, rel, back) {
      PartBlocked(d, rel, kept, k, back, d', g, plan, trees, edges, stuck);
    } else {
      PartOffered(d, rel, kept, k, back, d', g, rel, plan, trees, edges, stuck);
    }
  }

  // ---- before the branch ---------------------------------------------------------------------------

  /** A child is a clone of a child whose name sorts after its own. */
  ghost predicate ClonedFromLater(d: Tree, rel: Name) {
    exists x, h :: IsChild(x, rel) && IsChild(h, rel) && From(d, x, h) && NameLe(x, h)
  }

  /** The children are moved in order, so a failure can split a clone from its origin exactly
      when some child is a clone of one that sorts after it. */
  lemma CanSplitExactly(d: Tree, rel: Name)
    requires Valid(d)
    ensures ClonedFromLater(d, rel) <==>
      exists back :: IsSomeBack(d, ChildrenIn(d.Keys, rel), back) && IsSplit(d, rel, back)
  {
    var all := ChildrenIn(d.Keys, rel);
    if ClonedFromLater(d, rel) {
      var x, h :| IsChild(x, rel) && IsChild(h, rel) && From(d, x, h) && NameLe(x, h);
      NotFromItself(d, x);
      UpTo(d, rel, x, h);
      var back := set y | y in all && NameLe(y, x);
      assert SplitPair(d, rel, back, x, h);
      assert IsSomeBack(d, all, back);
    }
    if back :| IsSomeBack(d, all, back) && IsSplit(d, rel, back) {
      var x, h :| SplitPair(d, rel, back, x, h);
      assert h in all - back;
    }
  }

  /** The children up to one of them come first. */
  lemma UpTo(d: Tree, rel: Name, x: Name, h: Name)
    requires x in d && h in d && IsChild(x, rel) && IsChild(h, rel) && NameLe(x, h) && x != h
    ensures var all := ChildrenIn(d.Keys, rel); var back := set y | y in all && NameLe(y, x);
      x in back && h !in back && IsSomeBack(d, all, back)
  {
    var all := ChildrenIn(d.Keys, rel);
    var back := set y | y in all && NameLe(y, x);
    StringTotal(x[|x| - 1], x[|x| - 1]);
    assert x == rel + [x[|rel|]] && h == rel + [h[|rel|]];
    if NameLe(h, x) {
      StringSame(x[|x| - 1], h[|h| - 1]);
    }
    forall a, b | a in back && b in all - back
      ensures NameLe(a, b)
    {
      StringTotal(x[|x| - 1], b[|b| - 1]);
      StringTransitive(a[|a| - 1], x[|x| - 1], b[|b| - 1]);
    }
  }

  /** And it happens: a child branched twice, the second time further back, leaves its first
      archive a clone of its second. */
  lemma BranchedTwice(d: Tree, rel: Name, c: Name, a1: Name, k1: nat, a2: Name, k2: nat)
    requires Valid(d) && IsChild(c, rel) && c in d && IsChild(a1, rel) && IsChild(a2, rel) && NameLe(a1, a2)
    requires a1 !in d && a2 !in d && a1 != a2 && a1 != c && a2 != c && k2 < k1 < |d[c].snaps|
    ensures ClonedFromLater(Continued(Continued(d, c, a1, k1), c, a2, k2), rel)
  {
    var d1 := Continued(d, c, a1, k1);
    var d2 := Continued(d1, c, a2, k2);
    var s := d[c].snaps[k1];
    assert d1[c].snaps[k1] == s;
    assert d2[a2].snaps == d1[c].snaps[k2 + 1..] && d1[c].snaps[k2 + 1..][k1 - k2 - 1] == s;
    assert s in d2[a2].snaps && d2[a1].origin == Some(s.id);
    assert From(d2, a1, a2);
  }

  lemma NotMovedIsPart(d: Tree, rel: Name, common: string, kept: Name, dest: set<Name>,
                       d': Tree) returns (back: set<Name>)
    requires Valid(d) && OwnClones(d) && Valid(d') && !IsArchived(rel) && Related(kept, rel)
    requires KnowsChildren(d, dest, rel)
    requires Leaves(d, rel, common, kept, ChildrenIn(dest, rel), NotMoved, d')
    ensures PartWay(d, rel, kept, IndexOf(d[rel].snaps, common), back, d')
    ensures ComeFirst(back, ChildrenIn(d.Keys, rel))
  {
    var k := IndexOf(d[rel].snaps, common);
    back :| IsSomeBack(d, ChildrenIn(dest, rel), back) && IsBranched(d, rel, kept, k, back, d');
  }

  lemma NoSplit(d: Tree, rel: Name, back: set<Name>)
    requires ComeFirst(back, ChildrenIn(d.Keys, rel)) && !ClonedFromLater(d, rel)
    ensures !IsSplit(d, rel, back)
  {
    forall x, h | IsChild(x, rel) && IsChild(h, rel) && From(d, x, h) && x in back
      ensures h in back
    {
      assert h !in back ==> h in ChildrenIn(d.Keys, rel) - back;
    }
  }

  /** However a branch ends that knew every child: where no child is a clone of one that sorts
      after it, the destroy of every live dataset is offered afterwards. */
  lemma AnyEndOffers(d: Tree, rel: Name, common: string, kept: Name, dest: set<Name>, end: Ending, d': Tree, g: Graph,
                     top: Name, plan: DestroyPlan, trees: map<Name, Dependent>, edges: map<Name, set<Edge>>,
                     stuck: set<Name>)
    requires Valid(d) && OwnClones(d) && Valid(d') && !IsArchived(rel) && KnowsChildren(d, dest, rel)
    requires Leaves(d, rel, common, kept, ChildrenIn(dest, rel), end, d') && (end != NotRenamed ==> Related(kept, rel))
    requires !ClonedFromLater(d, rel)
    requires IsGraph(d', g) && top in d' && !IsArchived(top) && IsPlan(g, top, plan, trees, edges, stuck)
    ensures plan.Ok() && AllAccepted(g, Rels(plan.order) + [top])
  {
    if end == NotMoved {
      var back := NotMovedIsPart(d, rel, common, kept, dest, d');
      NoSplit(d, rel, back);
      PartOffered(d, rel, kept, IndexOf(d[rel].snaps, common), back, d', g, top, plan, trees, edges, stuck);
    } else {
      LeavesOwn(d, rel, common, kept, dest, end, d');
      LiveIsOffered(d', g, top, plan, trees, edges, stuck);
    }
  }

  lemma AsideTree(d: Tree, rel: Name, kept: Name, k: nat)
    requires Valid(d) && CanRename(d, rel, kept) && Parent(kept) == Parent(rel) && k < |d[rel].snaps|
    ensures Valid(Aside(d, rel, kept, k)) && IsBranched(d, rel, kept, k, {}, Aside(d, rel, kept, k))
  {
    AsideOk(d, rel, kept, k);
    MovedValid(d, rel, kept);
    ClonedValid(Moved(d, rel, kept), kept, k, rel);
    PromotedValid(Cloned(Moved(d, rel, kept), kept, k, rel), rel, kept, k);
    AsideIsBranched(d, rel, kept, k);
  }

  /** Any of the children can be the ones moved back. */
  lemma {:induction false} BackTree(d: Tree, rel: Name, kept: Name, k: nat, back: set<Name>) returns (d': Tree)
    requires Valid(d) && CanRename(d, rel, kept) && Parent(kept) == Parent(rel) && |kept| == |rel| >= 1
    requires k < |d[rel].snaps|
    requires back <= ChildrenIn(d.Keys, rel)
    ensures Valid(d') && IsBranched(d, rel, kept, k, back, d')
    decreases |back|
  {
    NotUnderEachOther(d, rel, kept);
    if back == {} {
      AsideTree(d, rel, kept, k);
      return Aside(d, rel, kept, k);
    }
    var c :| c in back;
    var d1 := BackTree(d, rel, kept, k, back - {c});
    OneMoreBack(d, rel, kept, k, back - {c}, c, d1);
    assert back - {c} + {c} == back;
    return Moved(d1, AwayAt(c, rel, kept), c);
  }

  lemma OneMoreBack(d: Tree, rel: Name, kept: Name, k: nat, back: set<Name>, c: Name, d1: Tree)
    requires !Under(rel, kept) && !Under(kept, rel) && |kept| == |rel| >= 1
    requires Valid(d1) && IsBranched(d, rel, kept, k, back, d1)
    requires back <= ChildrenIn(d.Keys, rel) && c in ChildrenIn(d.Keys, rel) && c !in back
    ensures var d' := Moved(d1, AwayAt(c, rel, kept), c); Valid(d') && IsBranched(d, rel, kept, k, back + {c}, d')
  {
    CanMoveBack(d, rel, kept, k, back, c, d1);
    MoveBack(d, rel, kept, k, back, c, d1);
    MovedValid(d1, AwayAt(c, rel, kept), c);
  }

  /** No plan for the destroy of `rel` is without a blocker. */
  ghost predicate NotOffered(d: Tree, rel: Name) {
    forall g, plan, trees, edges, stuck :: IsGraph(d, g) && IsPlan(g, rel, plan, trees, edges, stuck) ==> !plan.Ok()
  }

  /** And that is needed: where some child is a clone of one that sorts after it, a branch can
      end so that the destroy of the branched dataset is not offered. */
  lemma SomeEndBlocks(d: Tree, rel: Name, common: string, kept: Name, dest: set<Name>) returns (d': Tree)
    requires Valid(d) && OwnClones(d) && !IsArchived(rel) && ClonedFromLater(d, rel)
    requires CanRename(d, rel, kept) && Related(kept, rel) && IndexOf(d[rel].snaps, common) < |d[rel].snaps|
    requires ChildrenIn(dest, rel) == ChildrenIn(d.Keys, rel)
    ensures Valid(d') && Leaves(d, rel, common, kept, ChildrenIn(dest, rel), NotMoved, d') && NotOffered(d', rel)
  {
    var k := IndexOf(d[rel].snaps, common);
    CanSplitExactly(d, rel);
    var back :| IsSomeBack(d, ChildrenIn(d.Keys, rel), back) && IsSplit(d, rel, back);
    AsideOk(d, rel, kept, k);
    d' := BackTree(d, rel, kept, k, back);
    forall g, plan, trees, edges, stuck | IsGraph(d', g) && IsPlan(g, rel, plan, trees, edges, stuck)
      ensures !plan.Ok()
    {
      PartBlocked(d, rel, kept, k, back, d', g, plan, trees, edges, stuck);
    }
  }
}
