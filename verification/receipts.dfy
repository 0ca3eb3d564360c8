/** Clones that a receive makes: a new dataset that is a clone in origin is received as a
    clone of the drive's copy. Which destroys are then offered, exactly. */
module Receipts {
  import opened Replication
  import opened Dependents
  import opened Lineages
  import opened Branching

  /** `x` is a clone of a snapshot that `h` holds. */
  ghost predicate From(d: Tree, x: Name, h: Name) {
    x in d && h in d && d[x].origin.Some? && Holds(d[h], d[x].origin.value)
  }

  /** Beside what it was cloned from: an archived lineage, or the dataset it goes on from. */
  ghost predicate Own(d: Tree, x: Name, h: Name) {
    From(d, x, h) && Related(h, x)
  }

  /** Any other clone on a drive was received as one. */
  ghost predicate IsReceived(d: Tree, x: Name) {
    exists h :: From(d, x, h) && !Related(h, x)
  }

  lemma OneOrigin(d: Tree, x: Name, h: Name, h': Name)
    requires Valid(d) && From(d, x, h) && From(d, x, h')
    ensures h == h'
  {
  }

  /** Following clones to what they were cloned from, own ones only, from one to the other. */
  ghost predicate Reaches(d: Tree, b: Name, a: Name)
    decreases if b in d && d[b].origin.Some? then d[b].origin.value + 1 else 0, 1
  {
    b in d && d[b].origin.Some? && exists h :: Own(d, b, h) && NextReaches(d, b, h, a)
  }

  ghost predicate NextReaches(d: Tree, b: Name, h: Name, a: Name)
    requires b in d && d[b].origin.Some?
    decreases d[b].origin.value + 1, 0
  {
    h == a || (h in d && d[h].origin.Some? && d[h].origin.value < d[b].origin.value && Reaches(d, h, a))
  }

  /** The same, through archives alone. */
  ghost predicate ArchReaches(d: Tree, b: Name, a: Name)
    decreases if b in d && d[b].origin.Some? then d[b].origin.value + 1 else 0, 1
  {
    && b in d && d[b].origin.Some? && |b| >= 1 && HasMark(Last(b))
    && exists h :: Own(d, b, h) && NextArchReaches(d, b, h, a)
  }

  ghost predicate NextArchReaches(d: Tree, b: Name, h: Name, a: Name)
    requires b in d && d[b].origin.Some?
    decreases d[b].origin.value + 1, 0
  {
    h == a || (h in d && d[h].origin.Some? && d[h].origin.value < d[b].origin.value && ArchReaches(d, h, a))
  }

  /** The origin of a clone's origin is older. */
  lemma OlderOrigin(d: Tree, b: Name, h: Name)
    requires Valid(d) && From(d, b, h) && d[h].origin.Some?
    ensures d[h].origin.value < d[b].origin.value
  {
    assert FsOk(d[h]);
  }

  lemma ReachStep(d: Tree, b: Name, h: Name, a: Name)
    requires Valid(d) && Own(d, b, h) && (h == a || Reaches(d, h, a))
    ensures Reaches(d, b, a)
  {
    if h != a {
      OlderOrigin(d, b, h);
    }
    assert NextReaches(d, b, h, a);
  }

  lemma ArchStep(d: Tree, b: Name, h: Name, a: Name)
    requires Valid(d) && Own(d, b, h) && |b| >= 1 && HasMark(Last(b)) && (h == a || ArchReaches(d, h, a))
    ensures ArchReaches(d, b, a)
  {
    if h != a {
      OlderOrigin(d, b, h);
    }
    assert NextArchReaches(d, b, h, a);
  }

  lemma {:induction false} ReachesRelated(d: Tree, b: Name, a: Name)
    requires Reaches(d, b, a)
    ensures Related(a, b) && exists h :: Own(d, b, h)
    decreases if b in d && d[b].origin.Some? then d[b].origin.value + 1 else 0
  {
    var h :| Own(d, b, h) && NextReaches(d, b, h, a);
    if h != a {
      ReachesRelated(d, h, a);
    }
  }

  predicate Childless(d: Tree, s: Name) {
    forall c :: c in d && Under(c, s) ==> c == s
  }

  /** The first `n` components of two names, marks set aside, are the same. */
  predicate SamePlain(y: Name, h: Name, n: nat) {
    0 < n <= |y| && n <= |h| && Plain(y[..n]) == Plain(h[..n])
  }

  /** They are in the same tree there; or `h` is the archive that took the snapshot from
      the one `y` is in. */
  ghost predicate SameTree(d: Tree, y: Name, h: Name, n: nat)
    requires SamePlain(y, h, n)
  {
    y[..n] == h[..n] || (n == |h| && ArchReaches(d, h, y[..n]))
  }

  ghost predicate KeptTogether(d: Tree, y: Name, h: Name) {
    forall n: nat {:trigger SamePlain(y, h, n)} :: SamePlain(y, h, n) ==> SameTree(d, y, h, n)
  }

  ghost predicate HasOrigin(d: Tree, x: Name) {
    x in d && d[x].origin.Some? ==> exists h :: From(d, x, h)
  }

  /** What every history of a drive keeps, received clones included. */
  ghost predicate Kept(d: Tree) {
    && Valid(d)
    && (forall x {:trigger HasOrigin(d, x)} :: HasOrigin(d, x))
    && (forall s, x {:trigger Reaches(d, s, x)} :: x in d && !IsArchived(x) && Reaches(d, s, x) ==> Childless(d, s))
    && (forall y, h {:trigger KeptTogether(d, y, h)} :: From(d, y, h) && !Related(h, y) ==> KeptTogether(d, y, h))
  }

  // ---- offered exactly when -----------------------------------------------------------

  /** A dataset inside `top` is a clone of a snapshot that has to go first. */
  ghost predicate InsideOf(g: Graph, top: Name, c: set<Name>) {
    exists y :: y in g && Under(y, top) && g[y].Some? && g[y].value.ds in c
  }

  ghost predicate SomeReceived(d: Tree, c: set<Name>) {
    exists y :: y in c && IsReceived(d, y)
  }

  lemma GraphFrom(d: Tree, g: Graph, x: Name)
    requires Valid(d) && IsGraph(d, g) && x in d && g[x].Some?
    ensures From(d, x, g[x].value.ds) && forall h :: From(d, x, h) ==> h == g[x].value.ds
  {
  }

  /** Two live names side by side of one lineage are one. */
  lemma LiveRelated(x: Name, y: Name)
    requires Related(x, y) && !IsArchived(x) && !IsArchived(y)
    ensures x == y
  {
    assert x == Parent(x) + [Last(x)] && y == Parent(y) + [Last(y)];
    assert !HasMark(x[|x| - 1]) && !HasMark(y[|y| - 1]);
    Unmarked(Last(x));
    Unmarked(Last(y));
  }

  /** From an archive through archives to `a`, and on to a live dataset: `a` leads there. */
  lemma {:induction false} Follow(d: Tree, x: Name, a: Name, live: Name)
    requires Valid(d) && ArchReaches(d, x, a) && Reaches(d, x, live) && !IsArchived(live)
    ensures a == live || Reaches(d, a, live)
    decreases if x in d && d[x].origin.Some? then d[x].origin.value + 1 else 0
  {
    var h :| Own(d, x, h) && NextArchReaches(d, x, h, a);
    var h' :| Own(d, x, h') && NextReaches(d, x, h', live);
    OneOrigin(d, x, h, h');
    NotThroughLive(d, live, a);
    if h != a {
      Follow(d, h, a, live);
    }
  }

  lemma NotThroughLive(d: Tree, live: Name, a: Name)
    requires !IsArchived(live)
    ensures !ArchReaches(d, live, a)
  {
    assert |live| >= 1 ==> !HasMark(live[|live| - 1]);
  }

  lemma TogetherAt(d: Tree, y: Name, h: Name, n: nat)
    requires Kept(d) && From(d, y, h) && !Related(h, y) && SamePlain(y, h, n)
    ensures SameTree(d, y, h, n)
  {
    assert KeptTogether(d, y, h);
  }

  lemma NotFromItself(d: Tree, x: Name)
    requires Valid(d)
    ensures !From(d, x, x)
  {
    if x in d && d[x].origin.Some? {
      assert FsOk(d[x]);
    }
  }

  lemma LeadingIsAlone(d: Tree, s: Name, top: Name)
    requires Kept(d) && top in d && !IsArchived(top) && Reaches(d, s, top)
    ensures Childless(d, s)
  {
  }

  lemma PlainPrefix(x: Name, n: nat)
    requires n <= |x|
    ensures Plain(x[..n]) == Plain(x)[..n]
  {
  }

  /** A received clone of what lies in `top`, outside it, is no archived lineage of it. */
  lemma NotLineageOfTop(d: Tree, top: Name, y: Name, h: Name)
    requires Kept(d) && top in d && !IsArchived(top) && From(d, y, h) && !Related(h, y) && Under(h, top)
    requires !Under(y, top)
    ensures !IsLineageOf(y, top)
  {
    var n := |top|;
    assert n >= 1 && h[..n] == top;
    PlainOfLive(top);
    NotThroughLive(d, top, y[..if n <= |y| then n else 0]);
    if IsLineageOf(y, top) {
      PlainPrefix(y, n);
      TogetherAt(d, y, h, n);
    }
  }

  /** Nor is one of an archive that leads to it. */
  lemma NotLineageOfArchive(d: Tree, top: Name, x: Name, y: Name)
    requires Kept(d) && top in d && !IsArchived(top) && Reaches(d, x, top) && From(d, y, x) && !Related(x, y)
    requires !Under(y, top)
    ensures !IsLineageOf(y, top)
  {
    var n := |top|;
    assert n >= 1;
    ReachesRelated(d, x, top);
    PlainOfLive(top);
    RelatedPlain(top, x);
    assert x[..n] == x;
    LeadingIsAlone(d, x, top);
    NotFromItself(d, x);
    if IsLineageOf(y, top) {
      PlainPrefix(y, n);
      TogetherAt(d, y, x, n);
      LeadsElsewhere(d, top, x, y, y[..n]);
    }
  }

  /** The archive a received clone lies in is none that leads to `top`. */
  lemma LeadsElsewhere(d: Tree, top: Name, x: Name, y: Name, a: Name)
    requires Kept(d) && top in d && !IsArchived(top) && Reaches(d, x, top) && y in d && Under(y, a) && !Under(y, top)
    requires !Related(x, y)
    ensures !ArchReaches(d, x, a)
  {
    if ArchReaches(d, x, a) {
      Follow(d, x, a, top);
      LeadingIsAlone(d, a, top);
      ReachesRelated(d, a, top);
      ReachesRelated(d, x, top);
    }
  }

  /** The dependents that lead to `top` by own clones. */
  ghost function Leading(d: Tree, top: Name, c: set<Name>): set<Name> {
    set x | x in c && Reaches(d, x, top)
  }

  ghost predicate AllLineages(top: Name, c: set<Name>) {
    forall y :: y in c ==> IsLineageOf(y, top)
  }

  lemma LeadingClosed(d: Tree, g: Graph, top: Name, c: set<Name>)
    requires Kept(d) && IsGraph(d, g) && top in d && !IsArchived(top) && Closed(g, top, c) && AllLineages(top, c)
    ensures Closed(g, top, Leading(d, top, c))
  {
    var a := Leading(d, top, c);
    forall x, y | x in a && y in g && Under(y, x) && !Under(y, top)
      ensures y in a
    {
      assert Childless(d, x);
    }
    forall y | y in g && !Under(y, top) && ClonedFrom(g, y, top)
      ensures y in a
    {
      CloneOfTopLeads(d, g, top, y);
    }
    forall x, y | x in a && y in g && !Under(y, top) && ClonedFrom(g, y, x)
      ensures y in a
    {
      CloneOfLeading(d, g, top, x, y);
    }
  }

  lemma CloneOfTopLeads(d: Tree, g: Graph, top: Name, y: Name)
    requires Kept(d) && IsGraph(d, g) && top in d && !IsArchived(top)
    requires y in g && !Under(y, top) && ClonedFrom(g, y, top) && IsLineageOf(y, top)
    ensures Reaches(d, y, top)
  {
    GraphFrom(d, g, y);
    var h := g[y].value.ds;
    if !Related(h, y) {
      NotLineageOfTop(d, top, y, h);
    } else {
      RelatedBeside(y, h, top);
      ReachStep(d, y, top, top);
    }
  }

  lemma CloneOfLeading(d: Tree, g: Graph, top: Name, x: Name, y: Name)
    requires Kept(d) && IsGraph(d, g) && top in d && !IsArchived(top) && Reaches(d, x, top)
    requires y in g && !Under(y, top) && ClonedFrom(g, y, x) && IsLineageOf(y, top)
    ensures Reaches(d, y, top)
  {
    GraphFrom(d, g, y);
    assert Childless(d, x) && g[y].value.ds == x;
    if !Related(x, y) {
      NotLineageOfArchive(d, top, x, y);
    } else {
      ReachStep(d, y, x, top);
    }
  }

  /** If all that has to go is archived lineages of `top`, none of it was received. */
  lemma NoneReceived(d: Tree, g: Graph, top: Name, c: set<Name>)
    requires Kept(d) && IsGraph(d, g) && top in d && !IsArchived(top) && IsLeastClosed(g, top, c) && AllLineages(top, c)
    ensures !SomeReceived(d, c)
  {
    LeadingClosed(d, g, top, c);
    forall y | y in c
      ensures !IsReceived(d, y)
    {
      assert Reaches(d, y, top);
      ReachesRelated(d, y, top);
      var h :| Own(d, y, h);
      forall h' | From(d, y, h') { OneOrigin(d, y, h, h'); }
    }
  }

  lemma ReceivedOrOwn(d: Tree, g: Graph, c: set<Name>)
    requires Valid(d) && IsGraph(d, g) && c <= g.Keys
    ensures OwnIn(g, c) <==> !SomeReceived(d, c)
  {
    forall y | y in c
      ensures IsReceived(d, y) <==> g[y].Some? && !Related(g[y].value.ds, y)
    {
      if g[y].Some? {
        GraphFrom(d, g, y);
      }
    }
  }

  lemma InsideIsBlocked(g: Graph, top: Name, trees: map<Name, Dependent>)
    requires AreTrees(g, top, trees) && NoneInside(g, top, trees.Keys)
    ensures !InsideOf(g, top, Covered(g, top, trees.Keys))
  {
    forall y | y in g && Under(y, top) && g[y].Some?
      ensures g[y].value.ds !in Covered(g, top, trees.Keys)
    {
      var b := Blocker(y, g[y].value, Inside);
      assert !IsInside(g, top, trees.Keys, b);
    }
  }

  /** Where no dependent tree holds `top`, what a tree holds is outside it. */
  lemma NoneInsideOf(d: Tree, g: Graph, top: Name, trees: map<Name, Dependent>)
    requires IsGraph(d, g) && AreTrees(g, top, trees) && TopStands(top, trees.Keys)
    requires !InsideOf(g, top, Covered(g, top, trees.Keys))
    ensures NoneInside(g, top, trees.Keys)
  {
    forall y, t | y in g && Under(y, top) && g[y].Some? && t in trees
      ensures !Under(g[y].value.ds, t)
    {
      var x := g[y].value.ds;
      assert IsEntry(g, top, t, trees[t]);
      assert Under(x, top) && Under(x, t) ==> Under(t, top) || Under(top, t);
      assert Under(x, t) && !Under(x, top) ==> x in Covered(g, top, trees.Keys);
    }
  }

  /** On every drive: a destroy is offered exactly when all that has to go is archived
      lineages of it, and some order of them would be accepted. */
  lemma OfferedExactly(g: Graph, top: Name, plan: DestroyPlan, trees: map<Name, Dependent>,
                       edges: map<Name, set<Edge>>, stuck: set<Name>)
    requires IsPlan(g, top, plan, trees, edges, stuck)
    ensures plan.Ok() <==>
      && AllLineages(top, Covered(g, top, trees.Keys))
      && exists order :: IsPermutation(order, trees.Keys) && AllAccepted(g, order + [top])
  {
    if plan.Ok() {
      OkLineages(g, top, plan, trees, edges, stuck);
      PlannerSound(g, top, plan, trees, edges, stuck, Covered(g, top, trees.Keys));
      OkMeans(g, top, plan, trees, edges, stuck);
      OrderPermutes(trees, edges, plan.order);
    } else if AllLineages(top, Covered(g, top, trees.Keys)) {
      LineagesNotLive(g, top, trees);
      ArchivedLeavesTop(g, top, trees);
      PlannerExact(g, top, plan, trees, edges, stuck);
      NotOkNoWay(g, top, plan, trees, edges, stuck);
    }
  }

  lemma LineagesNotLive(g: Graph, top: Name, trees: map<Name, Dependent>)
    requires AreTrees(g, top, trees) && AllLineages(top, Covered(g, top, trees.Keys))
    ensures forall t :: t in trees ==> trees[t].archived
  {
    forall t | t in trees
      ensures trees[t].archived
    {
      assert IsEntry(g, top, t, trees[t]);
      assert Under(t, t) && t in Covered(g, top, trees.Keys);
    }
  }

  lemma NotOkNoWay(g: Graph, top: Name, plan: DestroyPlan, trees: map<Name, Dependent>,
                   edges: map<Name, set<Edge>>, stuck: set<Name>)
    requires IsPlan(g, top, plan, trees, edges, stuck) && !plan.Ok() && forall t :: t in trees ==> trees[t].archived
    ensures NoWay(plan)
  {
    var b := plan.blockers[0];
    assert b in plan.blockers;
    assert IsBlocker(g, top, trees, stuck, b);
  }

  lemma OkLineages(g: Graph, top: Name, plan: DestroyPlan, trees: map<Name, Dependent>,
                   edges: map<Name, set<Edge>>, stuck: set<Name>)
    requires IsPlan(g, top, plan, trees, edges, stuck) && plan.Ok()
    ensures AllLineages(top, Covered(g, top, trees.Keys)) && NoneInside(g, top, trees.Keys)
  {
    OkMeans(g, top, plan, trees, edges, stuck);
    forall y | y in Covered(g, top, trees.Keys)
      ensures IsLineageOf(y, top)
    {
      var t :| t in trees.Keys && Under(y, t);
      assert IsEntry(g, top, t, trees[t]);
      LineageBelow(y, t, top);
    }
  }

  lemma LineageBelow(y: Name, t: Name, top: Name)
    requires IsLineageOf(t, top) && Under(y, t)
    ensures IsLineageOf(y, top)
  {
    var i :| 0 <= i < |t| && HasMark(t[i]);
    assert y[i] == t[i];
    PlainPrefix(y, |t|);
    assert y[..|t|] == t;
    assert Plain(t) <= Plain(y);
  }

  /** On a drive with received clones: the destroy of a live dataset is offered exactly when
      none of them has to go with it, and nothing inside it is a clone of what has to. */
  lemma ReceivedExactly(d: Tree, g: Graph, top: Name, plan: DestroyPlan, trees: map<Name, Dependent>,
                        edges: map<Name, set<Edge>>, stuck: set<Name>)
    requires Kept(d) && IsGraph(d, g) && top in d && !IsArchived(top) && IsPlan(g, top, plan, trees, edges, stuck)
    ensures var c := Covered(g, top, trees.Keys); plan.Ok() <==> !SomeReceived(d, c) && !InsideOf(g, top, c)
  {
    var c := Covered(g, top, trees.Keys);
    ReceivedOrOwn(d, g, c);
    if plan.Ok() {
      OkLineages(g, top, plan, trees, edges, stuck);
      NoneReceived(d, g, top, c);
      InsideIsBlocked(g, top, trees);
    } else if !SomeReceived(d, c) && !InsideOf(g, top, c) {
      OwnIsSteady(g, top, c);
      ArchivesOnly(d, g, top, trees);
      ArchivedLeavesTop(g, top, trees);
      NoneInsideOf(d, g, top, trees);
      SteadyIsOffered(d, g, top, plan, trees, edges, stuck);
    }
  }
}
