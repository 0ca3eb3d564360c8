/** A dataset followed to the name its lineage has in origin now: its archives stay behind,
    and keep it from being destroyed. */
module Followings {
  import opened Replication
  import opened Dependents
  import opened Lineages
  import opened Branching
  import opened Rollbacks
  import opened Receipts
  import opened ReceiptHistory
  import opened MoveBacks

  ghost predicate IsFollowed(d: Tree, g: Graph, rel: Name, to: Name, g': Graph) {
    && Valid(d) && IsGraph(d, g) && IsGraph(Moved(d, rel, to), g')
    && !IsArchived(rel) && !IsArchived(to) && CanRename(d, rel, to)
  }

  /** A clone then was one before, inside and outside as it is now. */
  lemma CloneBefore(d: Tree, g: Graph, rel: Name, to: Name, g': Graph, y: Name) returns (x: Name)
    requires IsFollowed(d, g, rel, to, g') && y in g' && !Under(y, to) && ClonedFrom(g', y, to)
    ensures x in g && !Under(x, rel) && ClonedFrom(g, x, rel)
  {
    x := MovedFrom(d, rel, to, y);
    var h := MovedFrom(d, rel, to, g'[y].value.ds);
    assert h == g[x].value.ds;
    assert Under(h, rel) by {
      if !Under(h, rel) {
        NothingBelow(d, to, h);
      }
    }
  }

  /** And one before is one then, where it was if it was outside. */
  lemma CloneAfter(d: Tree, g: Graph, rel: Name, to: Name, g': Graph, x: Name)
    requires IsFollowed(d, g, rel, to, g') && x in g && !Under(x, rel) && ClonedFrom(g, x, rel)
    ensures x in g' && !Under(x, to) && ClonedFrom(g', x, to)
  {
    if Under(x, to) {
      NothingBelow(d, to, x);
    }
    var x' := MovedTo(d, rel, to, x);
    var h := MovedTo(d, rel, to, g[x].value.ds);
    MovedValid(d, rel, to);
    assert g'[x].value.ds == h;
  }

  lemma RefusedAsBefore(d: Tree, g: Graph, rel: Name, to: Name, g': Graph)
    requires IsFollowed(d, g, rel, to, g')
    ensures Refused(g', to) <==> Refused(g, rel)
  {
    if Refused(g', to) {
      var y :| y in g' && !Under(y, to) && ClonedFrom(g', y, to);
      var x := CloneBefore(d, g, rel, to, g', y);
    }
    if Refused(g, rel) {
      var x :| x in g && !Under(x, rel) && ClonedFrom(g, x, rel);
      CloneAfter(d, g, rel, to, g', x);
    }
  }

  /** Nothing has to go first where nothing outside is a clone. */
  lemma NothingFirst(g: Graph, top: Name, plan: DestroyPlan, trees: map<Name, Dependent>,
                     edges: map<Name, set<Edge>>, stuck: set<Name>)
    requires IsPlan(g, top, plan, trees, edges, stuck) && !Refused(g, top)
    ensures plan.Ok()
  {
    assert Closed(g, top, {});
    forall t | t in trees
      ensures false
    {
      TreeIsDependent(g, top, trees, t, {});
    }
    var order: seq<Name> := [];
    assert Left(g, (order + [top])[..0]) == g;
    assert AllAccepted(g, order + [top]);
    assert IsPermutation(order, trees.Keys);
    OfferedExactly(g, top, plan, trees, edges, stuck);
  }

  /** An archive left behind is no archived lineage of the new name. */
  lemma ArchiveLeftBehind(d: Tree, g: Graph, rel: Name, to: Name, x: Name)
    requires Valid(d) && OwnClones(d) && IsGraph(d, g) && !IsArchived(rel) && CanRename(d, rel, to)
    requires x in g && !Under(x, rel) && ClonedFrom(g, x, rel)
    ensures !IsLineageOf(x, to)
  {
    OriginIsRelated(d, g, x);
    RelatedBeside(x, g[x].value.ds, rel);
    RelatedPlain(g[x].value.ds, x);
    PlainOfLive(rel);
    if Under(rel, to) {
      NothingBelow(d, to, rel);
    }
  }

  /** Where every clone was zark's own, the destroy of a dataset that was followed to a new name
      is offered exactly when its destroy needed no other to go first. */
  lemma FollowedExactly(d: Tree, g: Graph, rel: Name, to: Name, g': Graph, plan: DestroyPlan,
                        trees: map<Name, Dependent>, edges: map<Name, set<Edge>>, stuck: set<Name>)
    requires IsFollowed(d, g, rel, to, g') && OwnClones(d) && IsPlan(g', to, plan, trees, edges, stuck)
    ensures plan.Ok() <==> !Refused(g, rel)
  {
    RefusedAsBefore(d, g, rel, to, g');
    if !Refused(g, rel) {
      NothingFirst(g', to, plan, trees, edges, stuck);
    } else if plan.Ok() {
      var x :| x in g && !Under(x, rel) && ClonedFrom(g, x, rel);
      CloneAfter(d, g, rel, to, g', x);
      ArchiveLeftBehind(d, g, rel, to, x);
      OfferedExactly(g', to, plan, trees, edges, stuck);
    }
  }

  /** So once a dataset was branched and then followed, its destroy is not offered. */
  lemma BranchedThenFollowed(d: Tree, rel: Name, kept: Name, k: nat, to: Name, g: Graph, g': Graph, plan: DestroyPlan,
                             trees: map<Name, Dependent>, edges: map<Name, set<Edge>>, stuck: set<Name>)
    requires Valid(d) && OwnClones(d) && CanRename(d, rel, kept) && Related(kept, rel) && k < |d[rel].snaps|
    requires IsFollowed(Continued(d, rel, kept, k), g, rel, to, g') && IsPlan(g', to, plan, trees, edges, stuck)
    ensures !plan.Ok()
  {
    var c, s := Continued(d, rel, kept, k), d[rel].snaps[k];
    ContinuedOwn(d, rel, kept, k);
    NotUnderEachOther(d, rel, kept);
    assert c[rel].snaps[k] == s && s in c[rel].snaps && Holds(c[rel], s.id);
    assert g[kept].value.ds == rel && ClonedFrom(g, kept, rel);
    FollowedExactly(c, g, rel, to, g', plan, trees, edges, stuck);
  }

  // ---- every history at all -----------------------------------------------------------

  /** ZFS keeps the drive, and every clone's origin is on it. */
  ghost predicate Sound(d: Tree) {
    Valid(d) && forall x {:trigger HasOrigin(d, x)} :: HasOrigin(d, x)
  }

  lemma MovedSound(d: Tree, a: Name, b: Name)
    requires Sound(d) && CanRename(d, a, b)
    ensures Sound(Moved(d, a, b))
  {
    var m := Moved(d, a, b);
    MovedValid(d, a, b);
    forall y
      ensures HasOrigin(m, y)
    {
      if y in m && m[y].origin.Some? {
        var x := MovedFrom(d, a, b, y);
        assert HasOrigin(d, x);
        var h :| From(d, x, h);
        var h' := MovedTo(d, a, b, h);
        assert From(m, y, h');
      }
    }
  }

  lemma ContinuedSound(d: Tree, rel: Name, kept: Name, k: nat)
    requires Sound(d) && CanRename(d, rel, kept) && Related(kept, rel) && k < |d[rel].snaps|
    ensures Sound(Continued(d, rel, kept, k))
  {
    var c, s := Continued(d, rel, kept, k), d[rel].snaps[k];
    ContinuedValid(d, rel, kept, k);
    assert c[rel].snaps[k] == s && s in c[rel].snaps && Holds(c[rel], s.id);
    forall y
      ensures HasOrigin(c, y)
    {
      if y == kept {
        assert From(c, kept, rel);
      } else if y in d && d[y].origin.Some? {
        assert HasOrigin(d, y);
        var h :| From(d, y, h);
        var h' := HolderAfter(d, rel, kept, k, h, d[y].origin.value);
        assert From(c, y, h');
      }
    }
  }

  /** Nothing lost, and at most one dataset come, with its origin. */
  lemma MoreSound(d: Tree, d': Tree, rel: Name)
    requires Sound(d) && Valid(d') && d.Keys <= d'.Keys <= d.Keys + {rel} && (rel in d || HasOrigin(d', rel))
    requires forall x :: x in d ==> d'[x].origin == d[x].origin
    requires forall x, id :: x in d && Holds(d[x], id) ==> Holds(d'[x], id)
    ensures Sound(d')
  {
    forall y
      ensures HasOrigin(d', y)
    {
      if y in d && d[y].origin.Some? {
        assert HasOrigin(d, y);
        var h :| From(d, y, h);
        assert From(d', y, h);
      }
    }
  }

  lemma ClonedSound(d: Tree, from: Name, k: nat, live: Name)
    requires Sound(d) && CanClone(d, from, k, live)
    ensures Sound(Cloned(d, from, k, live))
  {
    var c := Cloned(d, from, k, live);
    ClonedValid(d, from, k, live);
    assert c[from].snaps[k] in c[from].snaps;
    assert From(c, live, from);
    MoreSound(d, c, live);
  }

  lemma GrownValid(d: Tree, rel: Name, more: seq<Snap>)
    requires Sound(d) && CanReceive(d, rel) && Later(d, more)
    ensures Valid(Grown(d, rel, more))
  {
    if rel in d && d[rel].origin.Some? {
      assert HasOrigin(d, rel);
      var h :| From(d, rel, h);
      var s :| s in d[h].snaps && s.id == d[rel].origin.value;
      assert s in Snaps(d);
    }
    LaterFsOk(d, rel, more);
    ReceivedHolders(d, rel, more);
  }

  lemma GrownSound(d: Tree, rel: Name, more: seq<Snap>)
    requires Sound(d) && CanReceive(d, rel) && Later(d, more)
    ensures Sound(Grown(d, rel, more))
  {
    var r := Grown(d, rel, more);
    GrownValid(d, rel, more);
    forall x, id | x in d && Holds(d[x], id)
      ensures Holds(r[x], id)
    {
      var s :| s in d[x].snaps && s.id == id;
      assert s in r[x].snaps;
    }
    MoreSound(d, r, rel);
  }

  lemma DestroyedSound(d: Tree, top: Name)
    requires Sound(d) && CanDestroy(d, top)
    ensures Sound(Destroyed(d, top))
  {
    var r := Destroyed(d, top);
    DestroyValid(d, top);
    forall y
      ensures HasOrigin(r, y)
    {
      if y in r && r[y].origin.Some? {
        assert HasOrigin(d, y);
        var h :| From(d, y, h);
        assert From(r, y, h);
      }
    }
  }

  lemma RolledBackSound(d: Tree, rel: Name, k: nat)
    requires Sound(d) && CanRollBack(d, rel, k)
    ensures Sound(RolledBack(d, rel, k))
  {
    var r := RolledBack(d, rel, k);
    RolledBackValid(d, rel, k);
    forall y
      ensures HasOrigin(r, y)
    {
      if y in d && d[y].origin.Some? {
        assert HasOrigin(d, y);
        var h :| From(d, y, h);
        RolledBackHolds(d, rel, k, y, h);
        assert From(r, y, h);
      }
    }
  }

  /** Where a dataset but `rel` is once a branch came as far as the children `back`. */
  lemma PartElsewhere(d: Tree, rel: Name, kept: Name, k: nat, back: set<Name>, d': Tree, h: Name) returns (h': Name)
    requires Valid(d) && CanRename(d, rel, kept) && IsBranched(d, rel, kept, k, back, d') && h in d && h != rel
    ensures h' in d' && d'[h'] == d[h]
  {
    NotUnderEachOther(d, rel, kept);
    if Under(h, kept) {
      NothingBelow(d, kept, h);
    }
    h' := h;
    if Under(h, rel) && !UnderAny(h, back) {
      h' := Rebase(h, rel, kept);
      RebaseBack(h, rel, kept);
      BelowIsLonger(h, rel);
      assert !Under(h', rel) by {
        if Under(h', rel) {
          AboveSame(h', rel, kept);
        }
      }
    }
    assert Lookup(d', h') == Branched(d, rel, kept, k, back, h');
  }

  /** Where a snapshot is then. */
  lemma PartHolder(d: Tree, rel: Name, kept: Name, k: nat, back: set<Name>, d': Tree, h: Name,
                   id: nat) returns (h': Name)
    requires Valid(d) && CanRename(d, rel, kept) && IsBranched(d, rel, kept, k, back, d') && h in d && Holds(d[h], id)
    ensures h' in d' && Holds(d'[h'], id)
  {
    if h == rel {
      NotUnderEachOther(d, rel, kept);
      TwoAt(d, rel, kept, k, back, d');
      var snaps := d[rel].snaps;
      var i :| 0 <= i < |snaps| && snaps[i].id == id;
      h' := if i <= k then rel else kept;
      assert if i <= k then snaps[..k + 1][i] == snaps[i] else snaps[k + 1..][i - k - 1] == snaps[i];
      assert snaps[i] in d'[h'].snaps;
    } else {
      h' := PartElsewhere(d, rel, kept, k, back, d', h);
    }
  }

  lemma SameLookup(d: Tree, d': Tree)
    requires forall y :: Lookup(d, y) == Lookup(d', y)
    ensures d == d'
  {
    forall y
      ensures y in d <==> y in d'
      ensures y in d && y in d' ==> d[y] == d'[y]
    {
      assert Lookup(d, y) == Lookup(d', y);
    }
  }

  lemma PartSound(d: Tree, rel: Name, kept: Name, k: nat, back: set<Name>, d': Tree)
    requires Sound(d) && CanRename(d, rel, kept) && Related(kept, rel) && back <= ChildrenIn(d.Keys, rel)
    requires IsBranched(d, rel, kept, k, back, d')
    ensures Sound(d')
  {
    NotUnderEachOther(d, rel, kept);
    TwoAt(d, rel, kept, k, back, d');
    var same := BackTree(d, rel, kept, k, back);
    SameLookup(same, d');
    forall y
      ensures HasOrigin(d', y)
    {
      if y in d' && d'[y].origin.Some? {
        PartHasOrigin(d, rel, kept, k, back, d', y);
      }
    }
  }

  lemma PartHasOrigin(d: Tree, rel: Name, kept: Name, k: nat, back: set<Name>, d': Tree, y: Name)
    requires Sound(d) && CanRename(d, rel, kept) && IsBranched(d, rel, kept, k, back, d') && y in d'
    requires d'[y].origin.Some?
    ensures HasOrigin(d', y)
  {
    NotUnderEachOther(d, rel, kept);
    TwoAt(d, rel, kept, k, back, d');
    assert Lookup(d', y) == Branched(d, rel, kept, k, back, y);
    var s := d[rel].snaps[k];
    if y == kept {
      assert s in d[rel].snaps && Holds(d[rel], s.id);
      var h' := PartHolder(d, rel, kept, k, back, d', rel, s.id);
      assert From(d', y, h');
    } else {
      var x := if Under(y, kept) && !Under(y, rel) then Rebase(y, kept, rel) else y;
      assert x in d && d[x].origin == d'[y].origin;
      assert HasOrigin(d, x);
      var h :| From(d, x, h);
      var h' := PartHolder(d, rel, kept, k, back, d', h, d[x].origin.value);
      assert From(d', y, h');
    }
  }

  lemma EveryChangeSound(d: Tree, c: Change, d': Tree)
    requires Sound(d) && Happens(d, c, d')
    ensures Sound(d')
  {
    match c
    case Branch(rel, kept, k) => ContinuedSound(d, rel, kept, k);
    case Rename(rel, kept) => MovedSound(d, rel, kept);
    case CloneBack(kept, k, rel) => ClonedSound(d, kept, k, rel);
    case Receive(rel, more) => GrownSound(d, rel, more);
    case ReceiveClone(rel, source, k, more) =>
      ClonedSound(d, source, k, rel);
      LaterStill(d, source, k, rel, more);
      GrownSound(Cloned(d, source, k, rel), rel, more);
    case Destroy(rel) => DestroyedSound(d, rel);
    case RollBack(rel, k) => RolledBackSound(d, rel, k);
    case FollowRename(rel, to) => MovedSound(d, rel, to);
    case PartBranch(rel, kept, k, back) => PartSound(d, rel, kept, k, back, d');
  }

  lemma {:induction false} EveryHistorySound(run: seq<Tree>, changes: seq<Change>, i: nat)
    requires IsHistory(run, changes) && i < |run| && Valid(run[0]) && NoClones(run[0])
    ensures Sound(run[i])
  {
    if i > 0 {
      EveryHistorySound(run, changes, i - 1);
      assert HappensAt(run, changes, i - 1);
      EveryChangeSound(run[i - 1], changes[i - 1], run[i]);
    }
  }

  /** After any history at all, renames followed and branches that failed on a child included,
      the survey can be read, and the destroy of a dataset is offered exactly when all that has
      to go with it is archived lineages of it, by name, and some order of them is accepted. */
  lemma EveryHistoryOffers(run: seq<Tree>, changes: seq<Change>, i: nat, top: Name)
    requires IsHistory(run, changes) && i < |run| && Valid(run[0]) && NoClones(run[0])
    ensures exists g :: IsGraph(run[i], g)
    ensures forall g, plan, trees, edges, stuck :: IsGraph(run[i], g) && IsPlan(g, top, plan, trees, edges, stuck) ==>
      (plan.Ok() <==> AllLineages(top, Covered(g, top, trees.Keys)) &&
                      exists order :: IsPermutation(order, trees.Keys) && AllAccepted(g, order + [top]))
  {
    EveryHistorySound(run, changes, i);
    var d := run[i];
    forall x | x in d && d[x].origin.Some?
      ensures exists h :: From(d, x, h)
    {
      assert HasOrigin(d, x);
    }
    var g: Graph := map x | x in d ::
      if d[x].origin.None? then None else (var h :| From(d, x, h); Some(SnapRef(h, "")));
    assert IsGraph(d, g);
    forall g, plan, trees, edges, stuck | IsGraph(d, g) && IsPlan(g, top, plan, trees, edges, stuck)
      ensures plan.Ok() <==> AllLineages(top, Covered(g, top, trees.Keys)) &&
                             exists order :: IsPermutation(order, trees.Keys) && AllAccepted(g, order + [top])
    {
      OfferedExactly(g, top, plan, trees, edges, stuck);
    }
  }
}
