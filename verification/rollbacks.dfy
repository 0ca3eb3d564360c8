/** A backup drive as the decisions of a run change it: datasets branched one after
    another, each command free to fail, and what every such history keeps. */
module Rollbacks {
  import opened Replication
  import opened Dependents
  import opened Lineages
  import opened Branching
  import opened Ordering

  // ---- the archive's name -------------------------------------------------------

  function Digit(n: nat): char
    requires n < 10
  {
    "0123456789"[n]
  }

  function Decimal(n: nat): string {
    if n < 10 then [Digit(n)] else Decimal(n / 10) + [Digit(n % 10)]
  }

  lemma {:induction false} DecimalDiffers(a: nat, b: nat)
    requires Decimal(a) == Decimal(b)
    ensures a == b
    decreases a
  {
    DecimalLast(a);
    DecimalLast(b);
    if a >= 10 && b >= 10 {
      assert Decimal(a / 10) == Decimal(a)[..|Decimal(a)| - 1] == Decimal(b / 10);
      DecimalDiffers(a / 10, b / 10);
    }
  }

  lemma DecimalLast(n: nat)
    ensures |Decimal(n)| >= 1 && Decimal(n)[|Decimal(n)| - 1] == Digit(n % 10)
    ensures |Decimal(n)| == 1 <==> n < 10
  {
  }

  /** The `n`-th name an archive of `rel` may take on a day. */
  function ArchiveAt(rel: Name, day: string, n: nat): Name
    requires |rel| >= 1
  {
    rel[..|rel| - 1] + [Last(rel) + ARCHIVE_MARK + (day + if n <= 1 then "" else "-" + Decimal(n))]
  }

  lemma ArchiveAtDiffers(rel: Name, day: string, n: nat, m: nat)
    requires |rel| >= 1 && 1 <= n < m
    ensures ArchiveAt(rel, day, n) != ArchiveAt(rel, day, m)
  {
    var head := Last(rel) + ARCHIVE_MARK + day;
    var a, b := Last(ArchiveAt(rel, day, n)), Last(ArchiveAt(rel, day, m));
    assert b == head + ("-" + Decimal(m));
    if n == 1 {
      assert a == head;
    } else {
      assert a == head + ("-" + Decimal(n));
      assert a[|head| + 1..] == Decimal(n) && b[|head| + 1..] == Decimal(m);
      if Decimal(n) == Decimal(m) {
        DecimalDiffers(n, m);
      }
    }
  }

  /** The names tried so far are all different. */
  ghost predicate Tried(rel: Name, day: string, n: nat, tried: set<Name>)
    requires |rel| >= 1
  {
    && |tried| == n - 1
    && forall x :: x in tried <==>
         exists i {:trigger ArchiveAt(rel, day, i)} :: 1 <= i < n && x == ArchiveAt(rel, day, i)
  }

  lemma TriedOne(rel: Name, day: string, n: nat, tried: set<Name>)
    requires |rel| >= 1 && n >= 1 && Tried(rel, day, n, tried)
    ensures Tried(rel, day, n + 1, tried + {ArchiveAt(rel, day, n)})
  {
    forall i | 1 <= i < n
      ensures ArchiveAt(rel, day, i) != ArchiveAt(rel, day, n)
    {
      ArchiveAtDiffers(rel, day, i, n);
    }
    var next := tried + {ArchiveAt(rel, day, n)};
    forall x
      ensures x in next <==> exists i {:trigger ArchiveAt(rel, day, i)} :: 1 <= i < n + 1 && x == ArchiveAt(rel, day, i)
    {
      if i :| 1 <= i < n + 1 && x == ArchiveAt(rel, day, i) {
        assert i < n ==> x in tried;
      }
    }
  }

  predicate IsFirstFree(rel: Name, taken: set<Name>, day: string, n: nat)
    requires |rel| >= 1
  {
    && n >= 1 && ArchiveAt(rel, day, n) !in taken
    && forall i {:trigger ArchiveAt(rel, day, i)} :: 1 <= i < n ==> ArchiveAt(rel, day, i) in taken
  }

  /** The first free name. */
  method ArchiveName(rel: Name, taken: set<Name>, day: string) returns (name: Name, n: nat)
    requires |rel| >= 1
    ensures name == ArchiveAt(rel, day, n) && IsFirstFree(rel, taken, day, n)
  {
    n := 1;
    ghost var tried := {};
    while ArchiveAt(rel, day, n) in taken
      invariant n >= 1 && Tried(rel, day, n, tried) && tried <= taken
      decreases |taken| - |tried|
    {
      TriedOne(rel, day, n, tried);
      tried := tried + {ArchiveAt(rel, day, n)};
      SubsetSize(tried, taken);
      n := n + 1;
    }
    name := ArchiveAt(rel, day, n);
  }

  /** A live component with the mark put after it is that component without it. */
  lemma {:induction false} MarkStripped(part: string, tail: string)
    requires !HasMark(part)
    ensures StripMark(part + ARCHIVE_MARK + tail) == part && HasMark(part + ARCHIVE_MARK + tail)
  {
    var all := part + ARCHIVE_MARK + tail;
    if part == "" {
      assert all == ARCHIVE_MARK + tail;
    } else {
      assert all[|part|] == '.';
      assert |part| >= |ARCHIVE_MARK| ==> all[..|ARCHIVE_MARK|] == part[..|ARCHIVE_MARK|];
      assert !(ARCHIVE_MARK <= all);
      assert all[1..] == part[1..] + ARCHIVE_MARK + tail;
      MarkStripped(part[1..], tail);
    }
  }

  lemma ArchiveRelated(rel: Name, day: string, n: nat)
    requires |rel| >= 1 && !IsArchived(rel)
    ensures Related(ArchiveAt(rel, day, n), rel) && IsArchived(ArchiveAt(rel, day, n))
  {
    assert !HasMark(rel[|rel| - 1]);
    MarkStripped(Last(rel), day + if n <= 1 then "" else "-" + Decimal(n));
    Unmarked(Last(rel));
    var name := ArchiveAt(rel, day, n);
    assert HasMark(name[|rel| - 1]);
  }

  // ---- every history ----------------------------------------------------------------

  /** What happens to a drive: a branch, the steps of one cut short, one that failed on a
      child, an archived lineage, a rename followed, a rollback, a receive, one that makes a
      clone of the drive's copy, a destroy. */
  datatype Change =
    | Branch(rel: Name, kept: Name, k: nat)
    | Rename(rel: Name, kept: Name)
    | CloneBack(kept: Name, k: nat, rel: Name)
    | Receive(rel: Name, more: seq<Snap>)
    | ReceiveClone(rel: Name, source: Name, k: nat, more: seq<Snap>)
    | Destroy(rel: Name)
    | RollBack(rel: Name, k: nat)
    | FollowRename(rel: Name, to: Name)
    | PartBranch(rel: Name, kept: Name, k: nat, back: set<Name>)

  /** A change that leaves every archive beside its dataset, and no child away from it. */
  predicate IsOrderly(c: Change) {
    !c.FollowRename? && !c.PartBranch?
  }

  ghost predicate Happens(d: Tree, c: Change, d': Tree) {
    match c
    case Branch(rel, kept, k) =>
      && !IsArchived(rel) && CanRename(d, rel, kept) && Related(kept, rel) && k < |d[rel].snaps|
      && d' == Continued(d, rel, kept, k)
    case Rename(rel, kept) =>
      !IsArchived(rel) && CanRename(d, rel, kept) && Related(kept, rel) && d' == Moved(d, rel, kept)
    case CloneBack(kept, k, rel) =>
      !IsArchived(rel) && CanClone(d, kept, k, rel) && Related(kept, rel) && d' == Cloned(d, kept, k, rel)
    case Receive(rel, more) =>
      !IsArchived(rel) && CanReceive(d, rel) && Later(d, more) && d' == Grown(d, rel, more)
    case ReceiveClone(rel, source, k, more) =>
      && !IsArchived(rel) && !IsArchived(source) && CanClone(d, source, k, rel) && Later(d, more)
      && d' == Grown(Cloned(d, source, k, rel), rel, more)
    case Destroy(rel) => CanDestroy(d, rel) && d' == Destroyed(d, rel)
    case RollBack(rel, k) => CanRollBack(d, rel, k) && d' == RolledBack(d, rel, k)
    case FollowRename(rel, to) =>
      !IsArchived(rel) && !IsArchived(to) && CanRename(d, rel, to) && d' == Moved(d, rel, to)
    case PartBranch(rel, kept, k, back) =>
      && !IsArchived(rel) && CanRename(d, rel, kept) && Related(kept, rel)
      && back <= ChildrenIn(d.Keys, rel) && IsBranched(d, rel, kept, k, back, d')
  }

  lemma ChangeKeeps(d: Tree, c: Change, d': Tree)
    requires Valid(d) && OwnClones(d) && Happens(d, c, d') && IsOrderly(c) && !c.ReceiveClone?
    ensures Valid(d') && OwnClones(d')
  {
    match c
    case Branch(rel, kept, k) =>
      ContinuedValid(d, rel, kept, k);
      ContinuedOwn(d, rel, kept, k);
    case Rename(rel, kept) =>
      MovedValid(d, rel, kept);
      MovedOwn(d, rel, kept);
    case CloneBack(kept, k, rel) =>
      ClonedValid(d, kept, k, rel);
      ClonedOwn(d, kept, k, rel);
    case Receive(rel, more) =>
      ReceivedKeeps(d, rel, more);
    case Destroy(rel) =>
      DestroyedKeeps(d, rel);
    case RollBack(rel, k) =>
      RolledBackValid(d, rel, k);
      RolledBackOwn(d, rel, k);
  }

  ghost predicate HappensAt(run: seq<Tree>, changes: seq<Change>, i: nat)
    requires |run| == |changes| + 1 && i < |changes|
  {
    Happens(run[i], changes[i], run[i + 1])
  }

  ghost predicate IsHistory(run: seq<Tree>, changes: seq<Change>) {
    |run| == |changes| + 1 && forall i: nat :: i < |changes| ==> HappensAt(run, changes, i)
  }

  predicate NoClones(d: Tree) {
    forall x :: x in d ==> d[x].origin.None?
  }

  lemma {:induction false} HistoryKeeps(run: seq<Tree>, changes: seq<Change>, i: nat)
    requires IsHistory(run, changes) && i < |run| && Valid(run[0]) && NoClones(run[0])
    requires forall c :: c in changes ==> IsOrderly(c) && !c.ReceiveClone?
    ensures Valid(run[i]) && OwnClones(run[i])
  {
    if i > 0 {
      HistoryKeeps(run, changes, i - 1);
      assert HappensAt(run, changes, i - 1) && changes[i - 1] in changes;
      ChangeKeeps(run[i - 1], changes[i - 1], run[i]);
    } else {
      forall x | x in run[0]
        ensures CloneAt(run[0], x)
      {
      }
    }
  }

  /** From a drive without clones, whatever branches, archives, rollbacks, destroys and
      receives that made no clone came since: the destroy of any live dataset is offered,
      and accepted as planned. */
  lemma AlwaysOffered(run: seq<Tree>, changes: seq<Change>, i: nat, g: Graph, top: Name, plan: DestroyPlan,
                      trees: map<Name, Dependent>, edges: map<Name, set<Edge>>, stuck: set<Name>)
    requires IsHistory(run, changes) && i < |run| && Valid(run[0]) && NoClones(run[0])
    requires forall c :: c in changes ==> IsOrderly(c) && !c.ReceiveClone?
    requires IsGraph(run[i], g) && top in run[i] && !IsArchived(top) && IsPlan(g, top, plan, trees, edges, stuck)
    ensures plan.Ok() && AllAccepted(g, Rels(plan.order) + [top])
  {
    HistoryKeeps(run, changes, i);
    LiveIsOffered(run[i], g, top, plan, trees, edges, stuck);
  }

  // ---- the commands -------------------------------------------------------------------

  /** How far a branch got. */
  datatype Ending = NotRenamed | NotCloned | NotPromoted | NotMoved | Continues

  function IndexOf(snaps: seq<Snap>, name: string): (k: nat)
    ensures k <= |snaps| && (k < |snaps| ==> snaps[k].name == name)
    ensures forall i :: 0 <= i < k ==> snaps[i].name != name
  {
    if snaps == [] || snaps[0].name == name then 0 else 1 + IndexOf(snaps[1..], name)
  }

  /** The state a branch of `rel` at its snapshot `common` leaves, by how far it
      got; `listed` are the children it knew of. */
  ghost predicate Leaves(d: Tree, rel: Name, common: string, kept: Name, listed: set<Name>, end: Ending, d': Tree) {
    if end == NotRenamed then d' == d
    else
      && ParentsThere(d) && CanRename(d, rel, kept) && Parent(kept) == Parent(rel)
      && if end == NotCloned then d' == Moved(d, rel, kept)
         else
           var k := IndexOf(d[rel].snaps, common);
           && k < |d[rel].snaps| && AsideFits(d, rel, kept, k)
           && match end
              case NotPromoted => d' == Cloned(Moved(d, rel, kept), kept, k, rel)
              case NotMoved => exists back :: IsSomeBack(d, listed, back) && IsBranched(d, rel, kept, k, back, d')
              case _ => listed <= d.Keys && IsBranched(d, rel, kept, k, listed, d')
  }

  /** The children moved back before one failed: the first of them by name. */
  ghost predicate IsSomeBack(d: Tree, listed: set<Name>, back: set<Name>) {
    back < listed && back <= d.Keys && ComeFirst(back, listed)
  }

  ghost predicate AsideFits(d: Tree, rel: Name, kept: Name, k: nat) {
    var m := Moved(d, rel, kept);
    && rel in d && kept in m && m[kept] == d[rel] && CanClone(m, kept, k, rel)
    && CanPromote(Cloned(m, kept, k, rel), rel, kept, k)
  }

  /** Whether every child on the drive is one the branch knew of. */
  predicate KnowsChildren(d: Tree, dest: set<Name>, rel: Name) {
    ChildrenIn(d.Keys, rel) <= dest
  }

  /** Up to the children, every end leaves a drive with only zark's own clones. */
  lemma LeavesOwn(d: Tree, rel: Name, common: string, kept: Name, dest: set<Name>, end: Ending, d': Tree)
    requires Valid(d) && OwnClones(d) && KnowsChildren(d, dest, rel) && end != NotMoved
    requires Leaves(d, rel, common, kept, ChildrenIn(dest, rel), end, d') && (end != NotRenamed ==> Related(kept, rel))
    ensures OwnClones(d')
  {
    if end != NotRenamed {
      MovedOwn(d, rel, kept);
      if end == NotPromoted {
        ClonedOwn(Moved(d, rel, kept), kept, IndexOf(d[rel].snaps, common), rel);
      } else if end == Continues {
        var k := IndexOf(d[rel].snaps, common);
        assert ChildrenIn(dest, rel) == ChildrenIn(d.Keys, rel);
        AllBack(d, rel, kept, k, d');
        ContinuedOwn(d, rel, kept, k);
      }
    }
  }

  /** A branch without faults is done: the name for the archive is free on the drive too,
      the dataset and the common snapshot are there, and so is every child listed. */
  ghost predicate CanBranch(d: Tree, dest: set<Name>, rel: Name, common: string, day: string)
    requires |rel| >= 1
  {
    && CanArchive(d, dest, rel, day) && CanGoOn(d, rel, common, ChildrenIn(dest, rel))
  }

  ghost predicate CanArchive(d: Tree, dest: set<Name>, rel: Name, day: string)
    requires |rel| >= 1
  {
    exists n {:trigger ArchiveAt(rel, day, n)} ::
      IsFirstFree(rel, dest, day, n) && CanRename(d, rel, ArchiveAt(rel, day, n))
  }

  predicate CanGoOn(d: Tree, rel: Name, common: string, listed: set<Name>) {
    rel in d && IndexOf(d[rel].snaps, common) < |d[rel].snaps| && listed <= d.Keys
  }

  /** A drive as the commands change it. One may also fail for a reason of its own, unless
      the drive is calm. */
  class DriveTree {
    var d: Tree
    /** The names the last survey read, as the run keeps them since. */
    var dest: set<Name>
    const calm: bool

    constructor (d: Tree, calm: bool)
      ensures this.d == d && dest == d.Keys && this.calm == calm
    {
      this.d, dest, this.calm := d, d.Keys, calm;
    }

    method RenameTree(a: Name, b: Name) returns (ok: bool)
      requires Valid(d)
      modifies this`d
      ensures ok ==> CanRename(old(d), a, b) && d == Moved(old(d), a, b)
      ensures !ok ==> d == old(d) && (calm ==> !CanRename(d, a, b))
      ensures Valid(d) && Snaps(d) == Snaps(old(d))
    {
      var spurious: bool := *;
      ok := CanRename(d, a, b) && (calm || !spurious);
      if ok {
        MovedValid(d, a, b);
        d := Moved(d, a, b);
      }
    }

    method MakeClone(from: Name, snap: string, live: Name) returns (ok: bool)
      requires Valid(d) && from in d
      modifies this`d
      ensures var k := IndexOf(old(d)[from].snaps, snap);
        if ok then CanClone(old(d), from, k, live) && d == Cloned(old(d), from, k, live)
        else d == old(d) && (calm ==> !CanClone(d, from, k, live))
      ensures Valid(d) && Snaps(d) == Snaps(old(d))
    {
      var spurious: bool := *;
      var k := IndexOf(d[from].snaps, snap);
      ok := CanClone(d, from, k, live) && (calm || !spurious);
      if ok {
        ClonedValid(d, from, k, live);
        d := Cloned(d, from, k, live);
      }
    }

    method PromoteClone(live: Name) returns (ok: bool, ghost h: Name, ghost k: nat)
      requires Valid(d)
      modifies this`d
      ensures ok ==> CanPromote(old(d), live, h, k) && d == Promoted(old(d), live, h, k)
      ensures !ok ==> d == old(d) && (calm ==> forall x, i: nat :: !CanPromote(d, live, x, i))
      ensures Valid(d) && Snaps(d) == Snaps(old(d))
    {
      var spurious: bool := *;
      ok, h, k := false, live, 0;
      if live in d && d[live].origin.Some? {
        var id := d[live].origin.value;
        var pairs := set x, i | x in d && 0 <= i < |d[x].snaps| && d[x].snaps[i].id == id :: (x, i);
        assert forall x, i: nat :: CanPromote(d, live, x, i) ==> (x, i) in pairs;
        if p :| p in pairs {
          var (x, i) := p;
          OnePair(d, live, x, i);
          if CanPromote(d, live, x, i) && (calm || !spurious) {
            PromotedValid(d, live, x, i);
            d := Promoted(d, live, x, i);
            ok, h, k := true, x, i;
          }
        }
      }
    }

    /** The lineage renamed aside, under the first free name. */
    method ArchiveLineage(rel: Name, day: string) returns (kept: Option<Name>)
      requires Valid(d) && |rel| >= 1
      modifies this
      ensures Valid(d) && Snaps(d) == Snaps(old(d))
      ensures kept.None? ==> d == old(d) && dest == old(dest) && (calm ==> !CanArchive(d, dest, rel, day))
      ensures kept.Some? ==> kept.value !in old(dest) && exists n :: kept.value == ArchiveAt(rel, day, n)
      ensures kept.Some? ==> CanRename(old(d), rel, kept.value) && d == Moved(old(d), rel, kept.value)
      ensures kept.Some? ==> dest == old(dest) - {rel} + {kept.value} && CanArchive(old(d), old(dest), rel, day)
    {
      var name, n := ArchiveName(rel, dest, day);
      var ok := RenameTree(rel, name);
      if !ok {
        return None;
      }
      dest := dest - {rel} + {name};
      return Some(name);
    }

    /** The children, sorted, one after another from the archive back to the live dataset. */
    method MoveChildren(rel: Name, kept: Name, listed: set<Name>, ghost d0: Tree, ghost k: nat) returns (ok: bool)
      requires Valid(d) && ParentsThere(d0) && CanRename(d0, rel, kept) && |kept| == |rel| && AreChildren(listed, rel)
      requires IsBranched(d0, rel, kept, k, {}, d)
      modifies this`d
      ensures Valid(d) && Snaps(d) == Snaps(old(d))
      ensures ok ==> listed <= d0.Keys && IsBranched(d0, rel, kept, k, listed, d)
      ensures !ok ==> exists back :: IsSomeBack(d0, listed, back) && IsBranched(d0, rel, kept, k, back, d)
      ensures calm && !ok ==> !(listed <= d0.Keys)
    {
      NotUnderEachOther(d0, rel, kept);
      var left := listed;
      while left != {}
        invariant left <= listed && listed - left <= d0.Keys && ComeFirst(listed - left, listed)
        invariant Valid(d) && Snaps(d) == Snaps(old(d))
        invariant IsBranched(d0, rel, kept, k, listed - left, d)
      {
        var c := Least(left);
        ok := MoveChild(c, rel, kept, listed, left, d0, k);
        if !ok {
          assert IsSomeBack(d0, listed, listed - left);
          return;
        }
        FirstNext(listed, left, c);
        left := left - {c};
      }
      assert listed - left == listed;
      ok := true;
    }

    method MoveChild(c: Name, rel: Name, kept: Name, ghost listed: set<Name>, ghost left: set<Name>,
                     ghost d0: Tree, ghost k: nat) returns (ok: bool)
      requires Valid(d) && !Under(rel, kept) && !Under(kept, rel) && |kept| == |rel| >= 1
      requires AreChildren(listed, rel) && c in left && left <= listed && IsBranched(d0, rel, kept, k, listed - left, d)
      modifies this`d
      ensures Valid(d) && Snaps(d) == Snaps(old(d))
      ensures ok ==> c in d0 && IsBranched(d0, rel, kept, k, listed - (left - {c}), d)
      ensures !ok ==> d == old(d) && (calm ==> c !in d0)
    {
      ghost var d' := d;
      ok := RenameTree(AwayAt(c, rel, kept), c);
      if ok {
        MoveNext(d0, rel, kept, k, listed, left, c, d');
      } else if c in d0 {
        CanMoveBack(d0, rel, kept, k, listed - left, c, d);
      }
    }

    /** The clone and its promotion, at the archive just made. */
    method Continue(rel: Name, common: string, kept: Name, ghost d0: Tree) returns (end: Ending)
      requires Valid(d0) && CanRename(d0, rel, kept) && Parent(kept) == Parent(rel)
      requires Valid(d) && d == Moved(d0, rel, kept)
      modifies this`d
      ensures Valid(d) && Snaps(d) == Snaps(old(d))
      ensures end in {NotCloned, NotPromoted, Continues} && Leaves(d0, rel, common, kept, {}, end, d)
      ensures calm && end != Continues ==> !CanGoOn(d0, rel, common, {})
    {
      AsideMoved(d0, rel, kept);
      CanAside(d0, rel, common, kept);
      var ok := MakeClone(kept, common, rel);
      if !ok {
        return NotCloned;
      }
      ghost var d1 := d;
      ClonedLeaves(d0, rel, common, kept, d1);
      ghost var h: Name, i: nat;
      ok, h, i := PromoteClone(rel);
      if !ok {
        return NotPromoted;
      }
      PromotedLeaves(d0, rel, common, kept, d1, h, i);
      return Continues;
    }

    /** From the renamed archive on: the clone, its promotion, the children back. */
    method GoOn(rel: Name, common: string, kept: Name, listed: set<Name>, ghost d0: Tree) returns (end: Ending)
      requires Valid(d0) && CanRename(d0, rel, kept) && Parent(kept) == Parent(rel) && |kept| == |rel|
      requires AreChildren(listed, rel) && Valid(d) && d == Moved(d0, rel, kept)
      modifies this`d
      ensures Valid(d) && Snaps(d) == Snaps(old(d))
      ensures end != NotRenamed && Leaves(d0, rel, common, kept, listed, end, d)
      ensures calm && end != Continues ==> !CanGoOn(d0, rel, common, listed)
    {
      end := Continue(rel, common, kept, d0);
      ghost var d1 := d;
      if end == Continues {
        ghost var k := IndexOf(d0[rel].snaps, common);
        var ok := MoveChildren(rel, kept, listed, d0, k);
        end := if ok then Continues else NotMoved;
        LeavesMoved(d0, rel, common, kept, listed, d1, ok, d);
      } else {
        LeavesListed(d0, rel, common, kept, listed, end, d);
      }
    }

    /** The drive's newer snapshots kept in an archive, the dataset going on from the
        common one. Without faults that is done exactly when it can be. */
    method BranchOff(rel: Name, common: string, day: string) returns (end: Ending, ghost kept: Name)
      requires Valid(d) && |rel| >= 1
      modifies this
      ensures Valid(d) && Snaps(d) == Snaps(old(d))
      ensures Leaves(old(d), rel, common, kept, ChildrenIn(old(dest), rel), end, d)
      ensures end == Continues ==> CanBranch(old(d), old(dest), rel, common, day)
      ensures calm && end != Continues ==> !CanBranch(old(d), old(dest), rel, common, day)
      ensures end == NotRenamed ==> dest == old(dest)
      ensures end != NotRenamed ==> dest == old(dest) - {rel} + {kept} && exists n :: kept == ArchiveAt(rel, day, n)
    {
      var listed := ChildrenIn(dest, rel);
      ghost var d0 := d;
      var name := ArchiveLineage(rel, day);
      if name.None? {
        return NotRenamed, rel;
      }
      ArchiveBeside(rel, day, name.value);
      end := GoOn(rel, common, name.value, listed, d0);
      return end, name.value;
    }

    /** The next of the datasets to branch. */
    method BranchNext(targets: seq<Target>, i: nat, day: string, leftBehind: bool) returns (now: bool)
      requires Valid(d) && ParentsFirst(targets) && i < |targets| && (leftBehind || OnTrack(d, dest, targets[..i]))
      modifies this
      ensures Valid(d) && Snaps(d) == Snaps(old(d))
      ensures now || OnTrack(d, dest, targets[..i + 1])
    {
      ghost var d0, dest0 := d, dest;
      ghost var kept: Name;
      assert LiveTarget(targets[i]);
      var end: Ending;
      end, kept := BranchOff(targets[i].rel, targets[i].common, day);
      now := leftBehind || end == NotMoved;
      if !now {
        BranchedKnown(d0, dest0, targets, i, day, kept, end, d, dest);
      }
    }

    /** Each of the datasets to branch, in an order in which none comes after its own
        child. While no child is left behind, the drive has only zark's own clones. */
    method BranchAll(targets: seq<Target>, day: string) returns (leftBehind: bool)
      requires Valid(d) && OwnClones(d) && dest == d.Keys && ParentsFirst(targets)
      modifies this
      ensures Valid(d) && Snaps(d) == Snaps(old(d))
      ensures !leftBehind ==> OwnClones(d)
    {
      leftBehind := false;
      for i := 0 to |targets|
        invariant Valid(d) && Snaps(d) == Snaps(old(d))
        invariant leftBehind || OnTrack(d, dest, targets[..i])
      {
        leftBehind := BranchNext(targets, i, day, leftBehind);
      }
    }
  }

  /** Every clone is zark's own, and the run knows what it has to. */
  ghost predicate OnTrack(d: Tree, dest: set<Name>, done: seq<Target>) {
    OwnClones(d) && Known(d, dest, done)
  }

  datatype Target = Target(rel: Name, common: string)

  predicate LiveTarget(t: Target) {
    |t.rel| >= 1 && !IsArchived(t.rel)
  }

  predicate IsChild(c: Name, rel: Name) {
    |c| == |rel| + 1 && Under(c, rel)
  }

  /** Sorted by name, a dataset comes before its children. */
  predicate ParentsFirst(targets: seq<Target>) {
    && (forall i {:trigger LiveTarget(targets[i])} :: 0 <= i < |targets| ==> LiveTarget(targets[i]))
    && (forall i, j :: 0 <= i < j < |targets| ==> !IsChild(targets[i].rel, targets[j].rel))
  }

  predicate IsDone(x: Name, done: seq<Target>) {
    exists i :: 0 <= i < |done| && done[i].rel == x
  }

  /** The run knows every dataset on the drive but those it branched itself and
      what archives took along. */
  predicate Known(d: Tree, dest: set<Name>, done: seq<Target>) {
    forall y :: y in d ==> y in dest || IsDone(y, done) || IsArchived(Parent(y))
  }

  lemma KnowsNext(d: Tree, dest: set<Name>, targets: seq<Target>, i: nat)
    requires ParentsFirst(targets) && i < |targets| && Known(d, dest, targets[..i])
    ensures KnowsChildren(d, dest, targets[i].rel)
  {
    var rel := targets[i].rel;
    assert LiveTarget(targets[i]);
    forall c | c in ChildrenIn(d.Keys, rel)
      ensures c in dest
    {
      assert IsChild(c, rel) && Parent(c) == rel;
      forall j | 0 <= j < i
        ensures targets[..i][j].rel != c
      {
        assert !IsChild(targets[j].rel, rel);
      }
      assert !IsDone(c, targets[..i]);
    }
  }

  lemma DoneMore(x: Name, targets: seq<Target>, i: nat)
    requires i < |targets|
    ensures IsDone(x, targets[..i + 1]) <==> IsDone(x, targets[..i]) || x == targets[i].rel
  {
    if IsDone(x, targets[..i]) {
      var j :| 0 <= j < i && targets[..i][j].rel == x;
      assert targets[..i + 1][j].rel == x;
    }
    assert targets[..i + 1][i] == targets[i];
    if IsDone(x, targets[..i + 1]) {
      var j :| 0 <= j < i + 1 && targets[..i + 1][j].rel == x;
      assert j < i ==> targets[..i][j].rel == x;
    }
  }

  lemma ArchivedBelow(y: Name, kept: Name)
    requires IsArchived(kept) && Under(y, kept) && y != kept && |kept| >= 1
    ensures IsArchived(Parent(y))
  {
    BelowIsLonger(y, kept);
    var i :| 0 <= i < |kept| && HasMark(kept[i]);
    assert Parent(y)[i] == kept[i];
  }

  /** Where the datasets of the drive after a branch were before. */
  lemma LeavesNames(d: Tree, rel: Name, common: string, kept: Name, listed: set<Name>, end: Ending, d': Tree, y: Name)
    requires ParentsThere(d) && Leaves(d, rel, common, kept, listed, end, d') && end != NotMoved && y in d'
    requires AreChildren(listed, rel)
    ensures y in d || (end != NotRenamed && Under(y, kept)) || y == rel
    ensures end != NotRenamed && y == rel ==> end != NotCloned
  {
    if end != NotRenamed {
      NotUnderEachOther(d, rel, kept);
      MovedAt(d, rel, kept, y);
      assert Lookup(d', y) == Some(d'[y]);
      assert y != rel && end in {NotCloned, NotPromoted} ==> Lookup(d', y) == Lookup(Moved(d, rel, kept), y);
    }
  }

  lemma BranchedKnown(d: Tree, dest: set<Name>, targets: seq<Target>, i: nat, day: string, kept: Name, end: Ending,
                      d': Tree, dest': set<Name>)
    requires Valid(d) && OwnClones(d) && ParentsFirst(targets) && i < |targets| && Known(d, dest, targets[..i])
    requires end != NotMoved
    requires |targets[i].rel| >= 1
    requires Leaves(d, targets[i].rel, targets[i].common, kept, ChildrenIn(dest, targets[i].rel), end, d')
    requires end == NotRenamed ==> dest' == dest
    requires end != NotRenamed ==>
      dest' == dest - {targets[i].rel} + {kept} && exists n :: kept == ArchiveAt(targets[i].rel, day, n)
    ensures OwnClones(d') && Known(d', dest', targets[..i + 1])
  {
    var rel := targets[i].rel;
    assert LiveTarget(targets[i]);
    KnowsNext(d, dest, targets, i);
    if end != NotRenamed {
      var n :| kept == ArchiveAt(rel, day, n);
      ArchiveRelated(rel, day, n);
    }
    LeavesOwn(d, rel, targets[i].common, kept, dest, end, d');
    forall y | y in d'
      ensures y in dest' || IsDone(y, targets[..i + 1]) || IsArchived(Parent(y))
    {
      LeavesNames(d, rel, targets[i].common, kept, ChildrenIn(dest, rel), end, d', y);
      DoneMore(y, targets, i);
      if end != NotRenamed && Under(y, kept) && y != kept {
        ArchivedBelow(y, kept);
      }
    }
  }

  /** A branch that ended well changed only the dataset and its archive exactly when
      it knew every child; one it did not know stays in the archive. */
  lemma BackExactly(d: Tree, rel: Name, kept: Name, k: nat, listed: set<Name>, d': Tree)
    requires ParentsThere(d) && CanRename(d, rel, kept) && AreChildren(listed, rel) && listed <= d.Keys
    requires IsBranched(d, rel, kept, k, listed, d')
    ensures d' == Continued(d, rel, kept, k) <==> KnowsChildren(d, listed, rel)
  {
    if KnowsChildren(d, listed, rel) {
      assert listed == ChildrenIn(d.Keys, rel);
      AllBack(d, rel, kept, k, d');
    } else {
      var c :| c in ChildrenIn(d.Keys, rel) && c !in listed;
      OnlyChild(rel, listed, c);
      assert Lookup(d', c) == Branched(d, rel, kept, k, listed, c);
      assert c in Continued(d, rel, kept, k);
    }
  }

  lemma OnlyChild(rel: Name, listed: set<Name>, c: Name)
    requires AreChildren(listed, rel) && c !in listed && IsChild(c, rel)
    ensures !UnderAny(c, listed)
  {
    forall t | t in listed
      ensures !Under(c, t)
    {
      SameLength(c, t);
    }
  }

  lemma FirstNext(listed: set<Name>, left: set<Name>, c: Name)
    requires ComeFirst(listed - left, listed) && c in left && left <= listed && forall y :: y in left ==> NameLe(c, y)
    ensures ComeFirst(listed - (left - {c}), listed)
  {
  }

  lemma ChildInBack(rel: Name, back: set<Name>, x: Name)
    requires AreChildren(back, rel) && IsChild(x, rel)
    ensures UnderAny(x, back) <==> x in back
  {
    if x in back {
      assert Under(x, x);
    } else {
      OnlyChild(rel, back, x);
    }
  }

  /** Each child can be moved back while it is away. */
  lemma CanMoveBack(d: Tree, rel: Name, kept: Name, k: nat, back: set<Name>, c: Name, d': Tree)
    requires IsBranched(d, rel, kept, k, back, d') && !Under(rel, kept) && !Under(kept, rel) && |kept| == |rel| >= 1
    requires AreChildren(back, rel) && c in d && IsChild(c, rel) && c !in back
    ensures CanRename(d', AwayAt(c, rel, kept), c)
  {
    var away := AwayAt(c, rel, kept);
    ChildInBack(rel, back, c);
    assert c[..|rel|] == rel;
    assert Parent(c) == rel;
    assert Rebase(away, kept, rel) == c;
    assert Lookup(d', away) == Branched(d, rel, kept, k, back, away);
    assert Lookup(d', c) == Branched(d, rel, kept, k, back, c);
    assert Lookup(d', rel) == Branched(d, rel, kept, k, back, rel);
  }

  lemma MoveNext(d0: Tree, rel: Name, kept: Name, k: nat, listed: set<Name>, left: set<Name>, c: Name, d: Tree)
    requires IsBranched(d0, rel, kept, k, listed - left, d) && ParentsThere(d) && !Under(rel, kept) && !Under(kept, rel)
    requires AreChildren(listed, rel) && c in left && left <= listed && CanRename(d, AwayAt(c, rel, kept), c)
    ensures IsBranched(d0, rel, kept, k, listed - (left - {c}), Moved(d, AwayAt(c, rel, kept), c)) && c in d0
  {
    MoveBack(d0, rel, kept, k, listed - left, c, d);
    assert listed - (left - {c}) == (listed - left) + {c};
  }

  lemma ClonedLeaves(d: Tree, rel: Name, common: string, kept: Name, d1: Tree)
    requires Valid(d) && CanRename(d, rel, kept) && Parent(kept) == Parent(rel)
    requires kept in Moved(d, rel, kept) && Moved(d, rel, kept)[kept] == d[rel]
    requires var k := IndexOf(d[rel].snaps, common);
      CanClone(Moved(d, rel, kept), kept, k, rel) && d1 == Cloned(Moved(d, rel, kept), kept, k, rel)
    ensures Leaves(d, rel, common, kept, {}, NotPromoted, d1)
  {
    AsideOk(d, rel, kept, IndexOf(d[rel].snaps, common));
  }

  lemma PromotedLeaves(d: Tree, rel: Name, common: string, kept: Name, d1: Tree, h: Name, i: nat)
    requires Valid(d) && Valid(d1) && Leaves(d, rel, common, kept, {}, NotPromoted, d1) && CanPromote(d1, rel, h, i)
    ensures Leaves(d, rel, common, kept, {}, Continues, Promoted(d1, rel, h, i))
  {
    var k := IndexOf(d[rel].snaps, common);
    SameOrigin(d1, rel, h, i, kept, k);
    AsideIsBranched(d, rel, kept, k);
  }

  lemma ArchiveBeside(rel: Name, day: string, kept: Name)
    requires |rel| >= 1 && exists n :: kept == ArchiveAt(rel, day, n)
    ensures Parent(kept) == Parent(rel) && |kept| == |rel|
  {
  }

  lemma AsideMoved(d: Tree, rel: Name, kept: Name)
    requires ParentsThere(d) && CanRename(d, rel, kept)
    ensures kept in Moved(d, rel, kept) && Moved(d, rel, kept)[kept] == d[rel]
  {
    assert Rebase(rel, rel, kept) == kept;
    var y := MovedTo(d, rel, kept, rel);
  }

  lemma LeavesListed(d: Tree, rel: Name, common: string, kept: Name, listed: set<Name>, end: Ending, d': Tree)
    requires Leaves(d, rel, common, kept, {}, end, d') && end in {NotCloned, NotPromoted}
    ensures Leaves(d, rel, common, kept, listed, end, d')
  {
  }

  lemma LeavesMoved(d: Tree, rel: Name, common: string, kept: Name, listed: set<Name>, d1: Tree, ok: bool, d': Tree)
    requires Leaves(d, rel, common, kept, {}, Continues, d1)
    requires var k := IndexOf(d[rel].snaps, common);
      if ok then listed <= d.Keys && IsBranched(d, rel, kept, k, listed, d')
      else exists back :: IsSomeBack(d, listed, back) && IsBranched(d, rel, kept, k, back, d')
    ensures Leaves(d, rel, common, kept, listed, if ok then Continues else NotMoved, d')
  {
  }

  /** A snapshot has one place on the drive. */
  lemma OnePair(d: Tree, live: Name, x: Name, i: nat)
    requires Valid(d) && live in d && d[live].origin.Some? && x in d && i < |d[x].snaps|
    requires d[x].snaps[i].id == d[live].origin.value
    ensures forall y, j: nat :: CanPromote(d, live, y, j) ==> y == x && j == i
  {
    forall y, j: nat | CanPromote(d, live, y, j)
      ensures y == x && j == i
    {
      assert d[x].snaps[i] in d[x].snaps && d[y].snaps[j] in d[y].snaps;
      assert Holds(d[x], d[x].snaps[i].id) && Holds(d[y], d[x].snaps[i].id);
      assert FsOk(d[x]);
    }
  }

  /** Where the common snapshot is there, clone and promotion are accepted. */
  lemma CanAside(d: Tree, rel: Name, common: string, kept: Name)
    requires Valid(d) && CanRename(d, rel, kept) && Parent(kept) == Parent(rel)
    ensures var m, k := Moved(d, rel, kept), IndexOf(d[rel].snaps, common);
      k < |d[rel].snaps| ==> CanClone(m, kept, k, rel) && CanPromote(Cloned(m, kept, k, rel), rel, kept, k)
  {
    var k := IndexOf(d[rel].snaps, common);
    if k < |d[rel].snaps| {
      AsideOk(d, rel, kept, k);
    }
  }

  lemma SameOrigin(d: Tree, live: Name, h: Name, i: nat, kept: Name, k: nat)
    requires Valid(d) && CanPromote(d, live, h, i) && CanPromote(d, live, kept, k)
    ensures h == kept && i == k
  {
    var s, t := d[h].snaps[i], d[kept].snaps[k];
    assert s in d[h].snaps && t in d[kept].snaps;
    assert Holds(d[h], s.id) && Holds(d[kept], s.id);
    assert FsOk(d[h]);
  }
}
