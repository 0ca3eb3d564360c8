/** What one run may do to origin and to its drive, one command at a time, and
    what every chain of such steps keeps: for the run's own drive, and for every
    other drive over any sequence of runs. */
module Protocol {
  import opened Replication
  import opened Pools

  /** One run: its drive, the second its point is named after, and the subtrees
      excluded from backups. */
  datatype RunId = RunId(disk: Disk, stamp: nat, skip: set<Name>) {
    function PointName(): RefName { Point(stamp) }
    function Keep(): RefName { Anchor(disk, stamp) }
  }

  predicate Wanted(r: RunId, origin: Origin, rel: Name) {
    rel in origin && IsExpected(rel, origin[rel].kind, r.skip)
  }

  /** The references a drive's anchors of this dataset live among: snapshots on
      bpool, which takes no bookmarks, bookmarks elsewhere. */
  function AnchorGuids(o: OriginDs, rel: Name): map<RefName, Guid> {
    if IsBpool(rel) then map n | n in o.snaps :: o.snaps[n].guid else o.bookmarks
  }

  predicate AnchoredAs(w: World, rel: Name, name: RefName, g: Guid) {
    rel in w.origin && name in AnchorGuids(w.origin[rel], rel) && AnchorGuids(w.origin[rel], rel)[name] == g
  }

  /** Some anchor of `disk` has this guid. */
  ghost predicate HasAnchor(w: World, rel: Name, disk: Disk, g: Guid) {
    exists at: nat :: AnchoredAs(w, rel, Anchor(disk, at), g)
  }

  /** The run's new anchor exists and the drive holds what it marks. */
  predicate Verified(r: RunId, origin: Origin, drive: Drive, rel: Name) {
    && rel in origin && rel in drive
    && r.Keep() in AnchorGuids(origin[rel], rel)
    && AnchorGuids(origin[rel], rel)[r.Keep()] in drive[rel].snaps
  }

  /** The run's new anchor, when the drive holds what it marks, marks its newest, of an
      expected dataset. */
  predicate KeepIsNewest(r: RunId, w: World, rel: Name) {
    Verified(r, w.origin, DriveOf(w, r.disk), rel) ==>
      && Wanted(r, w.origin, rel)
      && IsNewest(DriveOf(w, r.disk)[rel], AnchorGuids(w.origin[rel], rel)[r.Keep()])
  }

  /** A base for the next incremental: a snapshot both sides hold, or this
      drive's anchor of one it holds. */
  ghost predicate HasBase(w: World, disk: Disk, rel: Name) {
    && rel in w.origin
    && ((exists n :: n in w.origin[rel].snaps && Holds(w, disk, rel, w.origin[rel].snaps[n].guid))
        || (exists g :: HasAnchor(w, rel, disk, g) && Holds(w, disk, rel, g)))
  }

  /** When a point may be destroyed: the drive it names has its anchor first,
      and the run's own drive does not need it as a base. */
  ghost predicate PointMayGo(r: RunId, w: World, rel: Name, n: RefName)
    requires rel in w.origin && n in w.origin[rel].snaps
  {
    var s := w.origin[rel].snaps[n];
    && (s.owner.Some? && (s.owner.value != r.disk || (!Wanted(r, w.origin, rel) && n != r.PointName()))
        ==> HasAnchor(w, rel, s.owner.value, s.guid))
    && (Wanted(r, w.origin, rel) ==>
        !Holds(w, r.disk, rel, s.guid) || Verified(r, w.origin, DriveOf(w, r.disk), rel))
  }

  /** When an anchor may be destroyed: it is this drive's, superseded by a
      verified one, and not the base of an excluded dataset. */
  ghost predicate AnchorMayGo(r: RunId, w: World, rel: Name, n: RefName) {
    && n.Anchor? && n.disk == r.disk && n != r.Keep()
    && Verified(r, w.origin, DriveOf(w, r.disk), rel)
    && !UnderAny(rel, r.skip)
  }

  /** What a run may do once the user's decisions were applied. */
  ghost predicate Guard(r: RunId, w: World, c: Cmd)
    requires Accepted(w, c)
  {
    match c
    case SnapshotAll(point, owner, guids, now) =>
      point == r.PointName() && owner == r.disk && forall rel :: rel in guids ==> Wanted(r, w.origin, rel)
    case MakeBookmark(rel, snap, mark) => mark.Anchor? && !IsBpool(rel)
    case RenameSnap(rel, from, to) =>
      && IsBpool(rel) && from.Point? && to.Anchor? && to.at == from.stamp
      && var owner := w.origin[rel].snaps[from].owner;
         owner.Some? ==> to.disk == owner.value
    case DestroySnap(rel, snap) =>
      && KeepIsNewest(r, w, rel)
      && ((snap.Point? && PointMayGo(r, w, rel, snap)) || (IsBpool(rel) && AnchorMayGo(r, w, rel, snap)))
    case DestroyBookmark(rel, mark) => KeepIsNewest(r, w, rel) && !IsBpool(rel) && AnchorMayGo(r, w, rel, mark)
    case Receive(disk, rel, got, token) =>
      && disk == r.disk && Wanted(r, w.origin, rel)
      && forall g :: g in got ==> exists n :: n in w.origin[rel].snaps && w.origin[rel].snaps[n].guid == g
    case AbortPartial(disk, rel) => disk == r.disk
    case CreateContainer(disk, rel) => disk == r.disk
    case Rearrange(disk, drive) => false
  }

  /** What the user's decisions may change: the run's own drive, and its own
      anchors of an excluded dataset the drive no longer holds. */
  ghost predicate DecisionGuard(r: RunId, w: World, c: Cmd)
    requires Accepted(w, c)
  {
    match c
    case Rearrange(disk, drive) => disk == r.disk
    case DestroyBookmark(rel, mark) =>
      mark.Anchor? && mark.disk == r.disk && UnderAny(rel, r.skip) && rel !in DriveOf(w, r.disk)
    case _ => false
  }

  ghost predicate IsStep(r: RunId, w: World, w': World, c: Cmd) {
    Accepted(w, c) && Guard(r, w, c) && w' == Apply(w, c)
  }

  ghost predicate IsDecision(r: RunId, w: World, w': World, c: Cmd) {
    Accepted(w, c) && DecisionGuard(r, w, c) && w' == Apply(w, c)
  }

  /** One move of the run after the decisions (or none). */
  ghost predicate Safe(r: RunId, w: World, w': World) {
    w' == w || exists c :: IsStep(r, w, w', c)
  }

  ghost predicate Allowed(r: RunId, w: World, w': World) {
    Safe(r, w, w') || exists c :: IsDecision(r, w, w', c)
  }

  // ---- the run's own drive ------------------------------------------------

  lemma StepKeepsBase(r: RunId, w: World, w': World, rel: Name)
    requires Safe(r, w, w') && Wanted(r, w.origin, rel) && HasBase(w, r.disk, rel)
    ensures Wanted(r, w'.origin, rel) && HasBase(w', r.disk, rel)
  {
    if w' != w {
      var c :| IsStep(r, w, w', c);
      if n :| n in w.origin[rel].snaps && Holds(w, r.disk, rel, w.origin[rel].snaps[n].guid) {
        SnapBaseKept(r, w, w', c, rel, n);
      } else {
        var g :| HasAnchor(w, rel, r.disk, g) && Holds(w, r.disk, rel, g);
        var at: nat :| AnchoredAs(w, rel, Anchor(r.disk, at), g);
        AnchorBaseKept(r, w, w', c, rel, Anchor(r.disk, at), g);
      }
    }
  }

  lemma HoldsGrow(r: RunId, w: World, w': World, c: Cmd, disk: Disk, rel: Name, g: Guid)
    requires IsStep(r, w, w', c) && Holds(w, disk, rel, g)
    ensures Holds(w', disk, rel, g)
  {
  }

  lemma SnapBaseKept(r: RunId, w: World, w': World, c: Cmd, rel: Name, n: RefName)
    requires IsStep(r, w, w', c) && Wanted(r, w.origin, rel)
    requires n in w.origin[rel].snaps && Holds(w, r.disk, rel, w.origin[rel].snaps[n].guid)
    ensures Wanted(r, w'.origin, rel) && HasBase(w', r.disk, rel)
  {
    var g := w.origin[rel].snaps[n].guid;
    HoldsGrow(r, w, w', c, r.disk, rel, g);
    if n in w'.origin[rel].snaps {
      assert w'.origin[rel].snaps[n].guid == g;
    } else if c.RenameSnap? {
      assert w'.origin[rel].snaps[c.to].guid == g;
    } else {
      VerifiedIsBase(r, w, w', c, rel);
    }
  }

  /** Destroying what a verified anchor supersedes leaves that anchor as base. */
  lemma VerifiedIsBase(r: RunId, w: World, w': World, c: Cmd, rel: Name)
    requires IsStep(r, w, w', c) && Wanted(r, w.origin, rel)
    requires (c.DestroySnap? && c.snap != r.Keep()) || (c.DestroyBookmark? && c.mark != r.Keep())
    requires Verified(r, w.origin, DriveOf(w, r.disk), rel)
    ensures HasBase(w', r.disk, rel)
  {
    var g := AnchorGuids(w.origin[rel], rel)[r.Keep()];
    assert AnchoredAs(w', rel, r.Keep(), g);
    assert HasAnchor(w', rel, r.disk, g) && Holds(w', r.disk, rel, g);
  }

  lemma AnchorBaseKept(r: RunId, w: World, w': World, c: Cmd, rel: Name, a: RefName, g: Guid)
    requires IsStep(r, w, w', c) && Wanted(r, w.origin, rel)
    requires a.Anchor? && a.disk == r.disk && AnchoredAs(w, rel, a, g) && Holds(w, r.disk, rel, g)
    ensures Wanted(r, w'.origin, rel) && HasBase(w', r.disk, rel)
  {
    HoldsGrow(r, w, w', c, r.disk, rel, g);
    if AnchoredAs(w', rel, a, g) {
      assert HasAnchor(w', rel, r.disk, g);
    } else {
      VerifiedIsBase(r, w, w', c, rel);
    }
  }

  ghost predicate SafeAt(r: RunId, t: seq<World>, i: nat)
    requires i + 1 < |t|
  {
    Safe(r, t[i], t[i + 1])
  }

  ghost predicate Chain(r: RunId, t: seq<World>) {
    forall i: nat :: i + 1 < |t| ==> SafeAt(r, t, i)
  }

  /** Base preservation over a whole run from the start of its transfers, in
      every state it goes through, and so wherever it is cut. */
  lemma {:induction false} BasePreserved(r: RunId, t: seq<World>, i: nat, j: nat, rel: Name)
    requires Chain(r, t) && i <= j < |t|
    requires Wanted(r, t[i].origin, rel) && HasBase(t[i], r.disk, rel)
    ensures Wanted(r, t[j].origin, rel) && HasBase(t[j], r.disk, rel)
    decreases j
  {
    if i < j {
      BasePreserved(r, t, i, j - 1, rel);
      assert SafeAt(r, t, j - 1);
      StepKeepsBase(r, t[j - 1], t[j], rel);
    }
  }

  // ---- what the next run can send from ---------------------------------------

  /** Origin can send from the newest snapshot of the drive's copy: the next backup is an
      incremental, and nothing on the drive has to go for it. */
  predicate SendsOn(w: World, disk: Disk, rel: Name) {
    && rel in w.origin && rel in DriveOf(w, disk) && DriveOf(w, disk)[rel].snaps != []
    && CanSendFrom(w.origin[rel], rel, NewestOf(w, disk, rel))
  }

  function NewestOf(w: World, disk: Disk, rel: Name): Guid
    requires rel in DriveOf(w, disk) && DriveOf(w, disk)[rel].snaps != []
  {
    var snaps := DriveOf(w, disk)[rel].snaps;
    snaps[|snaps| - 1]
  }

  /** What a receive ends with is a snapshot of origin. */
  lemma ReceiveSendsOn(r: RunId, w: World, w': World, c: Cmd, rel: Name)
    requires IsStep(r, w, w', c) && c.Receive? && c.rel == rel && SendsOn(w, r.disk, rel)
    ensures SendsOn(w', r.disk, rel)
  {
    if c.got != [] {
      var g := c.got[|c.got| - 1];
      assert g in c.got && NewestOf(w', r.disk, rel) == g;
      assert InSnaps(w'.origin[rel], g);
    }
  }

  /** What goes from origin is not the newest, or the new anchor marks that too. */
  lemma DestroySendsOn(r: RunId, w: World, w': World, c: Cmd, rel: Name)
    requires IsStep(r, w, w', c) && (c.DestroySnap? || c.DestroyBookmark?) && c.rel == rel
    requires Wanted(r, w.origin, rel) && SendsOn(w, r.disk, rel)
    ensures SendsOn(w', r.disk, rel)
  {
    var o, o', g := w.origin[rel], w'.origin[rel], NewestOf(w, r.disk, rel);
    if Verified(r, w.origin, DriveOf(w, r.disk), rel) {
      if IsBpool(rel) {
        assert o'.snaps[r.Keep()].guid == g;
      } else {
        assert o'.bookmarks[r.Keep()] == g;
      }
    } else {
      assert c.DestroySnap? && o.snaps[c.snap].guid != g;
      if n :| n in o.snaps && o.snaps[n].guid == g {
        assert n in o'.snaps && o'.snaps[n].guid == g;
      }
    }
  }

  lemma StepSendsOn(r: RunId, w: World, w': World, rel: Name)
    requires Safe(r, w, w') && Wanted(r, w.origin, rel) && SendsOn(w, r.disk, rel)
    ensures Wanted(r, w'.origin, rel) && SendsOn(w', r.disk, rel)
  {
    if w' != w {
      var c :| IsStep(r, w, w', c);
      if c.Receive? && c.rel == rel {
        ReceiveSendsOn(r, w, w', c, rel);
      } else if (c.DestroySnap? || c.DestroyBookmark?) && c.rel == rel {
        DestroySendsOn(r, w, w', c, rel);
      } else {
        StillSends(r, w, w', c, rel, NewestOf(w, r.disk, rel));
      }
    }
  }

  lemma StillSends(r: RunId, w: World, w': World, c: Cmd, rel: Name, g: Guid)
    requires IsStep(r, w, w', c) && rel in w.origin && CanSendFrom(w.origin[rel], rel, g)
    requires !((c.DestroySnap? || c.DestroyBookmark?) && c.rel == rel)
    ensures rel in w'.origin && CanSendFrom(w'.origin[rel], rel, g)
  {
    var o, o' := w.origin[rel], w'.origin[rel];
    if n :| n in o.snaps && o.snaps[n].guid == g {
      var n' := if c.RenameSnap? && c.rel == rel && c.from == n then c.to else n;
      assert n' in o'.snaps && o'.snaps[n'].guid == g;
    } else {
      var b :| b in o.bookmarks && o.bookmarks[b] == g;
      assert b in o'.bookmarks && o'.bookmarks[b] == g;
    }
  }

  /** No run turns an incremental into a rollback: from the start of its transfers, in
      every state it goes through, an expected dataset that can be sent on can be. */
  lemma {:induction false} NeverSetBack(r: RunId, t: seq<World>, i: nat, j: nat, rel: Name)
    requires Chain(r, t) && i <= j < |t|
    requires Wanted(r, t[i].origin, rel) && SendsOn(t[i], r.disk, rel)
    ensures Wanted(r, t[j].origin, rel) && SendsOn(t[j], r.disk, rel)
    decreases j
  {
    if i < j {
      NeverSetBack(r, t, i, j - 1, rel);
      assert SafeAt(r, t, j - 1);
      StepSendsOn(r, t[j - 1], t[j], rel);
    }
  }

  // ---- every other drive --------------------------------------------------

  /** A step takes an anchor only when it is the run's own, superseded and not
      on an excluded dataset. */
  lemma StepKeepsAnchor(r: RunId, w: World, w': World, c: Cmd, rel: Name, a: RefName, g: Guid)
    requires IsStep(r, w, w', c) && a.Anchor? && AnchoredAs(w, rel, a, g)
    requires a.disk != r.disk || UnderAny(rel, r.skip)
    ensures AnchoredAs(w', rel, a, g)
  {
    match c
    case SnapshotAll(_, _, _, _) =>
    case MakeBookmark(_, _, _) =>
    case RenameSnap(_, _, _) =>
    case DestroySnap(_, _) =>
    case DestroyBookmark(_, _) =>
    case Receive(_, _, _, _) =>
    case AbortPartial(_, _) =>
    case CreateContainer(_, _) =>
  }

  lemma DecisionKeepsAnchor(r: RunId, w: World, w': World, c: Cmd, rel: Name, a: RefName, g: Guid)
    requires IsDecision(r, w, w', c) && a.Anchor? && AnchoredAs(w, rel, a, g)
    ensures AnchoredAs(w', rel, a, g) || (a.disk == r.disk && rel !in DriveOf(w, r.disk))
  {
  }

  lemma OtherAnchorKept(r: RunId, w: World, w': World, rel: Name, a: RefName, g: Guid)
    requires Allowed(r, w, w') && a.Anchor? && a.disk != r.disk && AnchoredAs(w, rel, a, g)
    ensures AnchoredAs(w', rel, a, g)
  {
    if w' != w {
      if c :| IsStep(r, w, w', c) {
        StepKeepsAnchor(r, w, w', c, rel, a, g);
      } else {
        var c :| IsDecision(r, w, w', c);
        DecisionKeepsAnchor(r, w, w', c, rel, a, g);
      }
    }
  }

  ghost predicate IsPointFor(w: World, rel: Name, n: RefName, disk: Disk, g: Guid) {
    && rel in w.origin && n.Point? && n in w.origin[rel].snaps
    && w.origin[rel].snaps[n].guid == g && w.origin[rel].snaps[n].owner == Some(disk)
  }

  /** A point another drive's run left goes only once that drive has its anchor. */
  lemma OtherPointKept(r: RunId, w: World, w': World, rel: Name, n: RefName, disk: Disk, g: Guid)
    requires Allowed(r, w, w') && disk != r.disk && IsPointFor(w, rel, n, disk, g)
    ensures IsPointFor(w', rel, n, disk, g) || HasAnchor(w', rel, disk, g)
  {
    if w' != w {
      if c :| IsStep(r, w, w', c) {
        if c.RenameSnap? && c.rel == rel && c.from == n {
          assert AnchoredAs(w', rel, Anchor(disk, c.to.at), g);
        } else if c.DestroySnap? && c.rel == rel && c.snap == n {
          var at: nat :| AnchoredAs(w, rel, Anchor(disk, at), g);
          OtherAnchorKept(r, w, w', rel, Anchor(disk, at), g);
        }
      } else {
        var c :| IsDecision(r, w, w', c);
      }
    }
  }

  /** On an excluded dataset the run's own anchors stay too; only the user's
      decision to destroy the drive's copy takes them, once the drive lacks it. */
  lemma ExcludedAnchorKept(r: RunId, w: World, w': World, rel: Name, a: RefName, g: Guid)
    requires Allowed(r, w, w') && UnderAny(rel, r.skip)
    requires a.Anchor? && AnchoredAs(w, rel, a, g)
    ensures AnchoredAs(w', rel, a, g) || (a.disk == r.disk && rel !in DriveOf(w, r.disk) && !Safe(r, w, w'))
  {
    if w' != w {
      if c :| IsStep(r, w, w', c) {
        StepKeepsAnchor(r, w, w', c, rel, a, g);
      } else {
        var c :| IsDecision(r, w, w', c);
        DecisionKeepsAnchor(r, w, w', c, rel, a, g);
      }
    }
  }

  /** What happens between runs (sanoid, the user): any other snapshot may come
      or go, points, anchors and drives stay. */
  ghost predicate Ambient(w: World, w': World) {
    && w'.drives == w.drives
    && w.origin.Keys <= w'.origin.Keys
    && forall rel, n: RefName :: rel in w.origin && !n.Other? ==> SameRef(w.origin[rel], w'.origin[rel], n)
  }

  ghost predicate SameRef(o: OriginDs, o': OriginDs, n: RefName) {
    && (n in o.snaps ==> n in o'.snaps && o'.snaps[n] == o.snaps[n])
    && (n in o'.snaps ==> n in o.snaps)
    && (n in o.bookmarks ==> n in o'.bookmarks && o'.bookmarks[n] == o.bookmarks[n])
    && (n in o'.bookmarks ==> n in o.bookmarks)
  }

  /** One step of a history of runs: a step of some run, or the system's own. */
  ghost predicate HistoryStep(who: Option<RunId>, w: World, w': World) {
    match who
    case None => Ambient(w, w')
    case Some(r) => Allowed(r, w, w')
  }

  ghost predicate HistoryAt(who: seq<Option<RunId>>, t: seq<World>, i: nat)
    requires i < |who| && i + 1 < |t|
  {
    HistoryStep(who[i], t[i], t[i + 1])
  }

  /** Runs of any drives in any order, each ended, aborted or cut anywhere. */
  ghost predicate History(who: seq<Option<RunId>>, t: seq<World>) {
    |t| == |who| + 1 && forall i: nat :: i < |who| ==> HistoryAt(who, t, i)
  }

  ghost predicate NoneOf(who: seq<Option<RunId>>, disk: Disk) {
    forall b :: b in who ==> b.None? || b.value.disk != disk
  }

  /** What the other drives' runs leave a drive of what names it in origin. */
  ghost predicate KeptFor(w: World, w': World, disk: Disk) {
    && DriveOf(w', disk) == DriveOf(w, disk)
    && (forall rel, at: nat, g :: AnchoredAs(w, rel, Anchor(disk, at), g) ==> AnchoredAs(w', rel, Anchor(disk, at), g))
    && (forall rel, n, g :: IsPointFor(w, rel, n, disk, g) ==>
          IsPointFor(w', rel, n, disk, g) || HasAnchor(w', rel, disk, g))
  }

  lemma StepKeptFor(who: Option<RunId>, w: World, w': World, disk: Disk)
    requires HistoryStep(who, w, w') && (who.None? || who.value.disk != disk)
    ensures KeptFor(w, w', disk)
  {
    if who.Some? {
      var r := who.value;
      forall rel, at: nat, g | AnchoredAs(w, rel, Anchor(disk, at), g)
        ensures AnchoredAs(w', rel, Anchor(disk, at), g)
      {
        OtherAnchorKept(r, w, w', rel, Anchor(disk, at), g);
      }
      forall rel, n, g | IsPointFor(w, rel, n, disk, g)
        ensures IsPointFor(w', rel, n, disk, g) || HasAnchor(w', rel, disk, g)
      {
        OtherPointKept(r, w, w', rel, n, disk, g);
      }
      OtherDriveSame(r, w, w', disk);
    } else {
      AmbientKeptFor(w, w', disk);
    }
  }

  lemma AmbientKeptFor(w: World, w': World, disk: Disk)
    requires Ambient(w, w')
    ensures KeptFor(w, w', disk)
  {
    forall rel, at: nat, g | AnchoredAs(w, rel, Anchor(disk, at), g)
      ensures AnchoredAs(w', rel, Anchor(disk, at), g)
    {
      var n := Anchor(disk, at);
      assert !n.Other?;
    }
    forall rel, n, g | IsPointFor(w, rel, n, disk, g)
      ensures IsPointFor(w', rel, n, disk, g)
    {
      assert !n.Other?;
    }
  }

  lemma OtherDriveSame(r: RunId, w: World, w': World, disk: Disk)
    requires Allowed(r, w, w') && disk != r.disk
    ensures DriveOf(w', disk) == DriveOf(w, disk)
  {
    if w' != w {
      if c :| IsStep(r, w, w', c) {
      } else {
        var c :| IsDecision(r, w, w', c);
      }
    }
  }

  lemma KeptForTransitive(w: World, w1: World, w2: World, disk: Disk)
    requires KeptFor(w, w1, disk) && KeptFor(w1, w2, disk)
    ensures KeptFor(w, w2, disk)
  {
    forall rel, n, g | IsPointFor(w, rel, n, disk, g)
      ensures IsPointFor(w2, rel, n, disk, g) || HasAnchor(w2, rel, disk, g)
    {
      if !IsPointFor(w1, rel, n, disk, g) {
        var at: nat :| AnchoredAs(w1, rel, Anchor(disk, at), g);
        assert AnchoredAs(w2, rel, Anchor(disk, at), g);
      }
    }
  }

  /** While only other drives are backed up, whatever fails and wherever the
      runs are cut, a drive keeps every anchor, and every point naming it stays
      or has become its anchor. */
  lemma {:induction false} OtherDrivesKept(who: seq<Option<RunId>>, t: seq<World>, disk: Disk)
    requires History(who, t) && NoneOf(who, disk)
    ensures KeptFor(t[0], t[|t| - 1], disk)
    decreases |who|
  {
    if |who| > 0 {
      var n := |who| - 1;
      var before, u := who[..n], t[..n + 1];
      forall i: nat | i < n
        ensures HistoryAt(before, u, i)
      {
        assert HistoryAt(who, t, i);
      }
      OtherDrivesKept(before, u, disk);
      assert HistoryAt(who, t, n);
      assert who[n] in who;
      StepKeptFor(who[n], t[n], t[n + 1], disk);
      KeptForTransitive(t[0], t[n], t[n + 1], disk);
    }
  }

  /** So a drive whose base is an anchor, or a point naming it, still has one
      after any history of other drives' runs. */
  lemma OtherDrivesKeepBase(who: seq<Option<RunId>>, t: seq<World>, disk: Disk, rel: Name, g: Guid)
    requires History(who, t) && NoneOf(who, disk) && Holds(t[0], disk, rel, g)
    requires HasAnchor(t[0], rel, disk, g) || exists n :: IsPointFor(t[0], rel, n, disk, g)
    ensures HasBase(t[|t| - 1], disk, rel)
  {
    OtherDrivesKept(who, t, disk);
    var w, w' := t[0], t[|t| - 1];
    if HasAnchor(w, rel, disk, g) {
      var at: nat :| AnchoredAs(w, rel, Anchor(disk, at), g);
      assert AnchoredAs(w', rel, Anchor(disk, at), g);
      assert HasAnchor(w', rel, disk, g) && Holds(w', disk, rel, g);
    } else {
      var n :| IsPointFor(w, rel, n, disk, g);
      assert HasAnchor(w', rel, disk, g) ==> Holds(w', disk, rel, g);
      if IsPointFor(w', rel, n, disk, g) {
        assert Holds(w', disk, rel, w'.origin[rel].snaps[n].guid);
      }
    }
  }

  /** And if that is its newest, the next backup can be sent from it: whatever snapshots
      were pruned meanwhile, and whatever the other runs did. */
  lemma OtherDrivesSendOn(who: seq<Option<RunId>>, t: seq<World>, disk: Disk, rel: Name)
    requires History(who, t) && NoneOf(who, disk) && rel in DriveOf(t[0], disk) && DriveOf(t[0], disk)[rel].snaps != []
    requires var g := NewestOf(t[0], disk, rel);
      HasAnchor(t[0], rel, disk, g) || exists n :: IsPointFor(t[0], rel, n, disk, g)
    ensures SendsOn(t[|t| - 1], disk, rel)
  {
    OtherDrivesKept(who, t, disk);
    var w, w', g := t[0], t[|t| - 1], NewestOf(t[0], disk, rel);
    if HasAnchor(w, rel, disk, g) {
      var at: nat :| AnchoredAs(w, rel, Anchor(disk, at), g);
      assert AnchoredAs(w', rel, Anchor(disk, at), g);
    }
    AnchorSends(w', disk, rel, g);
  }

  lemma AnchorSends(w: World, disk: Disk, rel: Name, g: Guid)
    requires HasAnchor(w, rel, disk, g) || exists n :: IsPointFor(w, rel, n, disk, g)
    ensures rel in w.origin && CanSendFrom(w.origin[rel], rel, g)
  {
    if HasAnchor(w, rel, disk, g) {
      var at: nat :| AnchoredAs(w, rel, Anchor(disk, at), g);
      if IsBpool(rel) {
        assert w.origin[rel].snaps[Anchor(disk, at)].guid == g;
      } else {
        assert w.origin[rel].bookmarks[Anchor(disk, at)] == g;
      }
    } else {
      var n :| IsPointFor(w, rel, n, disk, g);
      assert w.origin[rel].snaps[n].guid == g;
    }
  }

  // ---- excluded datasets, over the drive's own runs too -----------------------

  /** A point of the drive itself that some earlier run left on a dataset that is
      excluded now goes only once the drive has its anchor. */
  lemma ExcludedPointKept(r: RunId, w: World, w': World, rel: Name, n: RefName, g: Guid)
    requires Allowed(r, w, w') && UnderAny(rel, r.skip)
    requires IsPointFor(w, rel, n, r.disk, g) && n != r.PointName()
    ensures IsPointFor(w', rel, n, r.disk, g) || HasAnchor(w', rel, r.disk, g)
  {
    if w' != w {
      if c :| IsStep(r, w, w', c) {
        if c.RenameSnap? && c.rel == rel && c.from == n {
          assert AnchoredAs(w', rel, Anchor(r.disk, c.to.at), g);
        } else if c.DestroySnap? && c.rel == rel && c.snap == n {
          var at: nat :| AnchoredAs(w, rel, Anchor(r.disk, at), g);
          StepKeepsAnchor(r, w, w', c, rel, Anchor(r.disk, at), g);
        }
      } else {
        var c :| IsDecision(r, w, w', c);
      }
    }
  }

  /** What one step leaves a drive of an excluded dataset's references. */
  ghost predicate KeptOn(w: World, w': World, disk: Disk, rel: Name, n: RefName) {
    && (forall at: nat, g :: AnchoredAs(w, rel, Anchor(disk, at), g) ==> AnchoredAs(w', rel, Anchor(disk, at), g))
    && (forall g :: IsPointFor(w, rel, n, disk, g) ==> IsPointFor(w', rel, n, disk, g) || HasAnchor(w', rel, disk, g))
  }

  /** A step of a run of the drive while the dataset is excluded and its copy is
      not taken by a decision; the run's own point is another one. */
  ghost predicate LeavesOut(who: Option<RunId>, w: World, w': World, disk: Disk, rel: Name, n: RefName) {
    who.Some? && who.value.disk == disk ==>
      && UnderAny(rel, who.value.skip) && n != who.value.PointName()
      && (Safe(who.value, w, w') || rel in DriveOf(w, disk))
  }

  lemma StepKeptOn(who: Option<RunId>, w: World, w': World, disk: Disk, rel: Name, n: RefName)
    requires HistoryStep(who, w, w') && LeavesOut(who, w, w', disk, rel, n)
    ensures KeptOn(w, w', disk, rel, n)
  {
    if who.Some? && who.value.disk == disk {
      var r := who.value;
      forall at: nat, g | AnchoredAs(w, rel, Anchor(disk, at), g)
        ensures AnchoredAs(w', rel, Anchor(disk, at), g)
      {
        ExcludedAnchorKept(r, w, w', rel, Anchor(disk, at), g);
      }
      forall g | IsPointFor(w, rel, n, disk, g)
        ensures IsPointFor(w', rel, n, disk, g) || HasAnchor(w', rel, disk, g)
      {
        ExcludedPointKept(r, w, w', rel, n, g);
      }
    } else {
      StepKeptFor(who, w, w', disk);
    }
  }

  lemma KeptOnTransitive(w: World, w1: World, w2: World, disk: Disk, rel: Name, n: RefName)
    requires KeptOn(w, w1, disk, rel, n) && KeptOn(w1, w2, disk, rel, n)
    ensures KeptOn(w, w2, disk, rel, n)
  {
    forall g | IsPointFor(w, rel, n, disk, g)
      ensures IsPointFor(w2, rel, n, disk, g) || HasAnchor(w2, rel, disk, g)
    {
      if !IsPointFor(w1, rel, n, disk, g) {
        var at: nat :| AnchoredAs(w1, rel, Anchor(disk, at), g);
        assert AnchoredAs(w2, rel, Anchor(disk, at), g);
      }
    }
  }

  ghost predicate LeavesOutAt(who: seq<Option<RunId>>, t: seq<World>, i: nat, disk: Disk, rel: Name, n: RefName)
    requires i < |who| && i + 1 < |t|
  {
    LeavesOut(who[i], t[i], t[i + 1], disk, rel, n)
  }

  /** Over any history of runs of any drives, this one included: while its runs
      exclude the dataset and its copy is not taken, the drive keeps every anchor
      there, and a point left for it stays or has become its anchor. */
  lemma {:induction false} ExcludedKept(who: seq<Option<RunId>>, t: seq<World>, disk: Disk, rel: Name, n: RefName)
    requires History(who, t) && forall i: nat :: i < |who| ==> LeavesOutAt(who, t, i, disk, rel, n)
    ensures KeptOn(t[0], t[|t| - 1], disk, rel, n)
    decreases |who|
  {
    if |who| > 0 {
      var k := |who| - 1;
      var before, u := who[..k], t[..k + 1];
      forall i: nat | i < k
        ensures HistoryAt(before, u, i) && LeavesOutAt(before, u, i, disk, rel, n)
      {
        assert HistoryAt(who, t, i) && LeavesOutAt(who, t, i, disk, rel, n);
      }
      ExcludedKept(before, u, disk, rel, n);
      assert HistoryAt(who, t, k) && LeavesOutAt(who, t, k, disk, rel, n);
      StepKeptOn(who[k], t[k], t[k + 1], disk, rel, n);
      KeptOnTransitive(t[0], t[k], t[k + 1], disk, rel, n);
    }
  }
}
