/** Anchoring: making a point, or the newest snapshot a drive holds, that drive's. */
module Anchoring {
  import opened Replication
  import opened Pools
  import opened Protocol
  import opened RunState
  import opened Planning

  /** When anchoring a point can work at all: the point is there, and the anchor
      is not, or (a bookmark) is the anchor of that very point. */
  predicate Anchorable(w: World, rel: Name, stamp: nat, disk: Disk) {
    && rel in w.origin && Point(stamp) in w.origin[rel].snaps
    && (if IsBpool(rel) then Anchor(disk, stamp) !in w.origin[rel].snaps
        else Anchor(disk, stamp) in w.origin[rel].bookmarks ==>
               w.origin[rel].bookmarks[Anchor(disk, stamp)] == w.origin[rel].snaps[Point(stamp)].guid)
  }

  function AnchorCmd(rel: Name, stamp: nat, disk: Disk): Cmd {
    if IsBpool(rel) then RenameSnap(rel, Point(stamp), Anchor(disk, stamp))
    else MakeBookmark(rel, Point(stamp), Anchor(disk, stamp))
  }

  predicate MayAnchor(r: RunId, w: World, rel: Name, stamp: nat, disk: Disk) {
    && (rel in w.origin && Point(stamp) in w.origin[rel].snaps ==>
          var owner := w.origin[rel].snaps[Point(stamp)].owner;
          owner.Some? ==> disk == owner.value)
    && (stamp == r.stamp ==> disk == r.disk)
  }

  lemma AnchorAllowed(r: RunId, w: World, rel: Name, stamp: nat, disk: Disk, cached: Origin, started: set<Name>,
                      pg: map<Name, Guid>)
    requires RunInv(r, w, cached, started, pg) && MayAnchor(r, w, rel, stamp, disk)
    ensures var c := AnchorCmd(rel, stamp, disk); Accepted(w, c) ==> Guard(r, w, c) && NamesPoint(r, w, c, pg)
  {
    assert rel in w.origin ==> PointOk(r, w, rel, pg);
    assert rel in pg ==> HeldOnce(r, w, rel, started, pg);
  }

  predicate AnchorDone(w: World, w': World, rel: Name, stamp: nat, disk: Disk) {
    && rel in w.origin && Point(stamp) in w.origin[rel].snaps
    && AnchoredAs(w', rel, Anchor(disk, stamp), w.origin[rel].snaps[Point(stamp)].guid)
    && (IsBpool(rel) ==> Point(stamp) !in w'.origin[rel].snaps)
  }

  ghost predicate PointGone(r: RunId, w: World, rel: Name) {
    rel in w.origin && r.PointName() !in w.origin[rel].snaps
  }

  /** Each dataset of `at` is anchored, or failed; a calm failure means that its
      point was gone already. */
  ghost predicate Anchored(r: RunId, w: World, at: set<Name>, failed: set<Name>, pg: map<Name, Guid>, calm: bool) {
    && (forall rel :: rel in failed ==> rel in at && (calm ==> PointGone(r, w, rel)))
    && (forall rel :: rel in at && rel !in failed ==> Settled(r, w, rel, pg))
  }

  lemma AnchoredOne(r: RunId, w: World, w': World, at: set<Name>, left: set<Name>, rel: Name, ok: bool,
                    failed: set<Name>, pg: map<Name, Guid>, calm: bool)
    requires rel in left && left <= at && Anchored(r, w, at - left, failed, pg, calm)
    requires forall other :: Settled(r, w, other, pg) ==> Settled(r, w', other, pg)
    requires forall other :: PointGone(r, w, other) ==> PointGone(r, w', other)
    requires if ok then Settled(r, w', rel, pg) else calm ==> PointGone(r, w', rel)
    ensures Anchored(r, w', at - (left - {rel}), if ok then failed else failed + {rel}, pg, calm)
  {
  }

  /** Origin still has the newest snapshot the drive holds of this rpool dataset. */
  predicate SharesNewest(r: RunId, w: World, rel: Name) {
    && Wanted(r, w.origin, rel) && !IsBpool(rel) && rel in DriveOf(w, r.disk) && DriveOf(w, r.disk)[rel].snaps != []
    && InSnaps(w.origin[rel], NewestOf(w, r.disk, rel))
  }

  /** The anchor of its second is another snapshot's. */
  predicate NameTaken(disk: Disk, o: OriginDs, g: Guid) {
    exists n :: n in o.snaps && TakenFor(disk, o, g, n)
  }

  predicate TakenFor(disk: Disk, o: OriginDs, g: Guid, n: RefName) {
    && n in o.snaps && o.snaps[n].guid == g
    && var a := Anchor(disk, o.snaps[n].creation);
       a in o.bookmarks && o.bookmarks[a] != g
  }

  /** A guid is of one snapshot, so it tells when that was taken. */
  predicate OneMoment(o: OriginDs, g: Guid) {
    forall n, m :: n in o.snaps && m in o.snaps && o.snaps[n].guid == o.snaps[m].guid == g ==>
      o.snaps[n].creation == o.snaps[m].creation
  }

  /** Whether the newest snapshot the drive holds is anchored once it was tried: it was
      before, or the anchor of its second was not another's. */
  ghost predicate HeldExactly(r: RunId, w: World, w': World, rel: Name) {
    SharesNewest(r, w, rel) ==>
      var o, g := w.origin[rel], NewestOf(w, r.disk, rel);
      && (HasAnchor(w, rel, r.disk, g) || !NameTaken(r.disk, o, g) ==> HasAnchor(w', rel, r.disk, g))
      && (HasAnchor(w', rel, r.disk, g) && OneMoment(o, g) ==> HasAnchor(w, rel, r.disk, g) || !NameTaken(r.disk, o, g))
  }

  predicate IsOwnMark(r: RunId, o: OriginDs, b: RefName, g: Guid) {
    b in o.bookmarks && b.Anchor? && b.disk == r.disk && o.bookmarks[b] == g
  }

  /** The snapshot to bookmark and the name for it: named after the moment it
      marks, not after this run's point. */
  predicate IsNewMark(r: RunId, rel: Name, o: OriginDs, d: DriveDs, n: RefName, name: RefName) {
    && !IsBpool(rel) && n in o.snaps && IsNewest(d, o.snaps[n].guid)
    && name == Anchor(r.disk, o.snaps[n].creation) && name !in o.bookmarks
  }

  /** Nothing is bookmarked: there is nothing to share, or it is marked already, or its
      anchor's name is there. */
  ghost predicate NoMarkNeeded(r: RunId, rel: Name, o: OriginDs, d: DriveDs) {
    IsBpool(rel) || d.snaps == [] ||
    var g := d.snaps[|d.snaps| - 1];
    || !InSnaps(o, g)
    || (exists b :: IsOwnMark(r, o, b, g))
    || (exists n :: n in o.snaps && o.snaps[n].guid == g && Anchor(r.disk, o.snaps[n].creation) in o.bookmarks)
  }

  method PickNewest(r: RunId, rel: Name, o: OriginDs, d: DriveDs) returns (mark: Option<(RefName, RefName)>)
    ensures mark.None? ==> NoMarkNeeded(r, rel, o, d)
    ensures mark.Some? ==> IsNewMark(r, rel, o, d, mark.value.0, mark.value.1)
  {
    if IsBpool(rel) || d.snaps == [] || !InSnaps(o, d.snaps[|d.snaps| - 1]) {
      return None;
    }
    var g := d.snaps[|d.snaps| - 1];
    var n :| n in o.snaps && o.snaps[n].guid == g;
    var name := Anchor(r.disk, o.snaps[n].creation);
    if name in o.bookmarks || exists b :: b in o.bookmarks && IsOwnMark(r, o, b, g) {
      return None;
    }
    return Some((n, name));
  }

  lemma OwnMarkIsAnchor(r: RunId, w: World, rel: Name, b: RefName, g: Guid)
    requires rel in w.origin && !IsBpool(rel) && IsOwnMark(r, w.origin[rel], b, g)
    ensures HasAnchor(w, rel, r.disk, g)
  {
    assert AnchoredAs(w, rel, Anchor(r.disk, b.at), g);
  }

  lemma NothingToMark(r: RunId, w: World, rel: Name)
    requires rel in w.origin && rel in DriveOf(w, r.disk)
    requires NoMarkNeeded(r, rel, w.origin[rel], DriveOf(w, r.disk)[rel])
    ensures HeldExactly(r, w, w, rel)
  {
    if SharesNewest(r, w, rel) {
      var o, g := w.origin[rel], NewestOf(w, r.disk, rel);
      if b :| IsOwnMark(r, o, b, g) {
        OwnMarkIsAnchor(r, w, rel, b, g);
      } else {
        var n :| n in o.snaps && o.snaps[n].guid == g && Anchor(r.disk, o.snaps[n].creation) in o.bookmarks;
        assert !IsOwnMark(r, o, Anchor(r.disk, o.snaps[n].creation), g);
        assert TakenFor(r.disk, o, g, n);
      }
    }
  }

  lemma NewlyMarked(r: RunId, w: World, w': World, rel: Name, n: RefName, name: RefName)
    requires rel in w.origin && rel in DriveOf(w, r.disk)
    requires IsNewMark(r, rel, w.origin[rel], DriveOf(w, r.disk)[rel], n, name)
    requires w' == Apply(w, MakeBookmark(rel, n, name))
    ensures OnlyMarked(r, w, w', rel) && HeldExactly(r, w, w', rel)
  {
    OwnMarkIsAnchor(r, w', rel, name, w.origin[rel].snaps[n].guid);
  }

  /** Progress of the pass over the drive's datasets. */
  ghost predicate HeldLoop(r: RunId, w0: World, w: World, q: seq<Name>, i: nat, calm: bool) {
    && w.drives == w0.drives && w.origin.Keys == w0.origin.Keys && (forall rel :: rel in q ==> rel in w0.origin)
    && (forall rel :: rel in w0.origin ==> w.origin[rel].snaps == w0.origin[rel].snaps)
    && (forall j :: i <= j < |q| ==> w.origin[q[j]] == w0.origin[q[j]])
    && (calm ==> forall j :: 0 <= j < i && j < |q| ==> HeldExactly(r, w0, w, q[j]))
  }

  lemma HeldEverywhere(r: RunId, w0: World, w: World, q: seq<Name>)
    requires HeldLoop(r, w0, w, q, |q|, true)
    requires forall rel :: rel in w0.origin && rel in DriveOf(w0, r.disk) && Wanted(r, w0.origin, rel) ==> rel in q
    ensures forall rel :: rel in w0.origin ==> HeldExactly(r, w0, w, rel)
    ensures OnlyAnchors(r, w0, w) ==> AllEndAnchored(r, w)
  {
    forall rel | rel in w0.origin
      ensures HeldExactly(r, w0, w, rel)
    {
      if rel in q {
        var j :| 0 <= j < |q| && q[j] == rel;
        assert HeldExactly(r, w0, w, q[j]);
      }
    }
    if OnlyAnchors(r, w0, w) {
      HeldEnds(r, w0, w);
    }
  }

  lemma HeldLoopStep(r: RunId, w0: World, w: World, w': World, q: seq<Name>, i: nat, calm: bool)
    requires HeldLoop(r, w0, w, q, i, calm) && i < |q| && OnlyMarked(r, w, w', q[i])
    requires AllDifferent(q)
    requires calm ==> HeldExactly(r, w, w', q[i])
    ensures HeldLoop(r, w0, w', q, i + 1, calm)
  {
    assert q[i] in q;
    if calm {
      SameBefore(r, w0, w, w', q[i]);
      forall j | 0 <= j < i
        ensures HeldExactly(r, w0, w', q[j])
      {
        assert q[j] in q && HeldExactly(r, w0, w, q[j]);
        SameAfter(r, w0, w, w', q[j]);
      }
    }
  }

  lemma SameAnchor(w: World, w': World, rel: Name, disk: Disk, g: Guid)
    requires rel in w.origin && rel in w'.origin && w'.origin[rel] == w.origin[rel] && HasAnchor(w, rel, disk, g)
    ensures HasAnchor(w', rel, disk, g)
  {
    var at: nat :| AnchoredAs(w, rel, Anchor(disk, at), g);
    assert AnchoredAs(w', rel, Anchor(disk, at), g);
  }

  lemma SameBefore(r: RunId, w0: World, w: World, w': World, rel: Name)
    requires rel in w0.origin && rel in w.origin && w.origin[rel] == w0.origin[rel] && w.drives == w0.drives
    requires HeldExactly(r, w, w', rel)
    ensures HeldExactly(r, w0, w', rel)
  {
    if SharesNewest(r, w, rel) {
      var g := NewestOf(w, r.disk, rel);
      if HasAnchor(w0, rel, r.disk, g) {
        SameAnchor(w0, w, rel, r.disk, g);
      }
      if HasAnchor(w, rel, r.disk, g) {
        SameAnchor(w, w0, rel, r.disk, g);
      }
    }
  }

  lemma SameAfter(r: RunId, w0: World, w: World, w': World, rel: Name)
    requires rel in w.origin && rel in w'.origin && w'.origin[rel] == w.origin[rel] && HeldExactly(r, w0, w, rel)
    ensures HeldExactly(r, w0, w', rel)
  {
    if SharesNewest(r, w0, rel) {
      var g := NewestOf(w0, r.disk, rel);
      if HasAnchor(w', rel, r.disk, g) {
        SameAnchor(w', w, rel, r.disk, g);
      }
      if HasAnchor(w, rel, r.disk, g) {
        SameAnchor(w, w', rel, r.disk, g);
      }
    }
  }

  // ---- what an ended run leaves ------------------------------------------------

  /** The newest snapshot the drive holds is anchored for it, unless the anchor of its
      second is another's; where origin has it no more there is nothing to anchor. */
  ghost predicate EndsAnchored(r: RunId, w: World, rel: Name) {
    SharesNewest(r, w, rel) ==>
      var g := NewestOf(w, r.disk, rel);
      HasAnchor(w, rel, r.disk, g) || NameTaken(r.disk, w.origin[rel], g)
  }

  ghost predicate AllEndAnchored(r: RunId, w: World) {
    forall rel {:trigger EndsAnchored(r, w, rel)} :: EndsAnchored(r, w, rel)
  }

  /** Every later command keeps that: what it takes is not the newest, or the run's new
      anchor marks that one. */
  ghost predicate EndKept(r: RunId, w: World, w': World) {
    AllEndAnchored(r, w) ==> AllEndAnchored(r, w')
  }

  lemma AnchorOutlives(r: RunId, w: World, w': World, c: Cmd, rel: Name)
    requires IsStep(r, w, w', c) && (c.MakeBookmark? || c.DestroySnap? || c.DestroyBookmark?) && !IsBpool(rel)
    requires SharesNewest(r, w, rel) && HasAnchor(w, rel, r.disk, NewestOf(w, r.disk, rel))
    ensures HasAnchor(w', rel, r.disk, NewestOf(w, r.disk, rel))
  {
    var g := NewestOf(w, r.disk, rel);
    var at: nat :| AnchoredAs(w, rel, Anchor(r.disk, at), g);
    if !AnchoredAs(w', rel, Anchor(r.disk, at), g) {
      assert AnchoredAs(w', rel, Anchor(r.disk, r.stamp), g);
    }
  }

  lemma TakenOutlives(r: RunId, w: World, w': World, c: Cmd, rel: Name)
    requires IsStep(r, w, w', c) && (c.MakeBookmark? || c.DestroySnap? || c.DestroyBookmark?)
    requires SharesNewest(r, w, rel) && NameTaken(r.disk, w.origin[rel], NewestOf(w, r.disk, rel))
    ensures var g := NewestOf(w, r.disk, rel); HasAnchor(w', rel, r.disk, g) || NameTaken(r.disk, w'.origin[rel], g)
  {
    var o, o', g := w.origin[rel], w'.origin[rel], NewestOf(w, r.disk, rel);
    var n :| n in o.snaps && TakenFor(r.disk, o, g, n);
    if !c.MakeBookmark? && c.rel == rel && Verified(r, w.origin, DriveOf(w, r.disk), rel) {
      assert AnchoredAs(w', rel, Anchor(r.disk, r.stamp), g);
    } else {
      assert n in o.snaps && o.snaps[n].guid == g && Holds(w, r.disk, rel, g);
      if c.DestroySnap? && c.rel == rel {
        assert PointMayGo(r, w, rel, c.snap) && o.snaps[c.snap].guid != g;
      }
      assert TakenFor(r.disk, o', g, n);
    }
  }

  lemma StepEndKept(r: RunId, w: World, w': World, c: Cmd)
    requires IsStep(r, w, w', c) && (c.MakeBookmark? || c.RenameSnap? || c.DestroySnap? || c.DestroyBookmark?)
    ensures EndKept(r, w, w')
  {
    if AllEndAnchored(r, w) {
      forall rel
        ensures EndsAnchored(r, w', rel)
      {
        assert EndsAnchored(r, w, rel);
        if SharesNewest(r, w', rel) {
          if c.RenameSnap? {
            assert w'.origin[rel] == w.origin[rel];
            EndStays(r, w, w', rel);
          } else {
            assert SharesNewest(r, w, rel);
            if HasAnchor(w, rel, r.disk, NewestOf(w, r.disk, rel)) {
              AnchorOutlives(r, w, w', c, rel);
            } else {
              TakenOutlives(r, w, w', c, rel);
            }
          }
        }
      }
    }
  }

  lemma EndStays(r: RunId, w: World, w': World, rel: Name)
    requires EndsAnchored(r, w, rel) && w'.drives == w.drives
    requires rel in w.origin && rel in w'.origin && w'.origin[rel] == w.origin[rel]
    ensures EndsAnchored(r, w', rel)
  {
    if SharesNewest(r, w', rel) && HasAnchor(w, rel, r.disk, NewestOf(w, r.disk, rel)) {
      SameAnchor(w, w', rel, r.disk, NewestOf(w, r.disk, rel));
    }
  }

  /** After a pass over the drive's datasets, so it is everywhere. */
  lemma HeldEnds(r: RunId, w: World, w': World)
    requires OnlyAnchors(r, w, w') && forall rel :: rel in w.origin ==> HeldExactly(r, w, w', rel)
    requires forall rel :: rel in w.origin ==> w'.origin[rel].snaps == w.origin[rel].snaps
    ensures AllEndAnchored(r, w')
  {
    forall rel
      ensures EndsAnchored(r, w', rel)
    {
      if SharesNewest(r, w', rel) {
        assert AnchorsGrow(r, rel, w.origin[rel], w'.origin[rel]);
        assert SharesNewest(r, w, rel);
        var o, o', g := w.origin[rel], w'.origin[rel], NewestOf(w, r.disk, rel);
        if n :| TakenFor(r.disk, o, g, n) {
          assert TakenFor(r.disk, o', g, n);
        }
      }
    }
  }

  /** A drive whose run ended so can be sent on to by its next run, `next`, after any history
      of other drives' runs and whatever origin pruned; unless the anchor was another's. */
  lemma NextSendsOn(r: RunId, next: RunId, who: seq<Option<RunId>>, t: seq<World>, rel: Name)
    requires History(who, t) && NoneOf(who, r.disk) && next.disk == r.disk
    requires EndsAnchored(r, t[0], rel) && SharesNewest(r, t[0], rel)
    requires !NameTaken(r.disk, t[0].origin[rel], NewestOf(t[0], r.disk, rel))
    ensures var w := t[|t| - 1];
      && rel in w.origin && rel in DriveOf(w, r.disk)
      && PlainState(next, w.origin[rel], DriveOf(w, r.disk)[rel], rel) in {AtPoint, Incremental, ViaBookmark}
  {
    OtherDrivesSendOn(who, t, r.disk, rel);
    var w := t[|t| - 1];
    StatesMean(next, w.origin[rel], DriveOf(w, r.disk)[rel], rel);
    assert NewestOf(w, r.disk, rel) in DriveOf(w, r.disk)[rel].snaps;
  }

  /** At most bookmarks of one dataset were added. */
  ghost predicate OnlyMarked(r: RunId, w: World, w': World, rel: Name) {
    && w'.drives == w.drives && w'.origin.Keys == w.origin.Keys && rel in w.origin
    && AnchorsGrow(r, rel, w.origin[rel], w'.origin[rel]) && w'.origin[rel].snaps == w.origin[rel].snaps
    && forall other :: other in w.origin && other != rel ==> w'.origin[other] == w.origin[other]
  }

  lemma OthersHeld(r: RunId, w: World, w': World, rel: Name)
    requires OnlyMarked(r, w, w', rel)
    ensures OnlyAnchors(r, w, w')
  {
    forall other | other in w.origin
      ensures AnchorsGrow(r, other, w.origin[other], w'.origin[other]) && PointStays(r, w, w', other)
    {
    }
  }

  /** Two snapshots of one second, both on the drive: the newer one is the newest there, and
      the anchor of that second is the older one's. */
  predicate TwoOfOneSecond(disk: Disk, o: OriginDs, d: DriveDs, older: RefName, newer: RefName) {
    && older in o.snaps && newer in o.snaps && o.snaps[older].creation == o.snaps[newer].creation
    && IsNewest(d, o.snaps[newer].guid) && o.snaps[older].guid in d.snaps && o.snaps[older].guid != o.snaps[newer].guid
    && var a := Anchor(disk, o.snaps[older].creation);
       a in o.bookmarks && o.bookmarks[a] == o.snaps[older].guid
  }

  /** Then the newer one, if it has no anchor, gets none. Once origin has pruned it, and no
      bookmark is left of it, what the drive has of it would have to go. */
  lemma OneSecond(r: RunId, w: World, w': World, rel: Name, older: RefName, newer: RefName)
    requires SharesNewest(r, w, rel) && HeldExactly(r, w, w', rel)
    requires TwoOfOneSecond(r.disk, w.origin[rel], DriveOf(w, r.disk)[rel], older, newer)
    requires OneMoment(w.origin[rel], w.origin[rel].snaps[newer].guid)
    ensures var g := w.origin[rel].snaps[newer].guid; HasAnchor(w', rel, r.disk, g) ==> HasAnchor(w, rel, r.disk, g)
    ensures var o := w.origin[rel].(snaps := w.origin[rel].snaps - {newer});
      CanSendFrom(o, rel, w.origin[rel].snaps[newer].guid) || PlainState(r, o, DriveOf(w, r.disk)[rel], rel) == Rollback
  {
    var o, d := w.origin[rel], DriveOf(w, r.disk)[rel];
    assert TakenFor(r.disk, o, o.snaps[newer].guid, newer);
    var pruned := o.(snaps := o.snaps - {newer});
    assert older in pruned.snaps && InSnaps(pruned, o.snaps[older].guid);
    StatesMean(r, pruned, d, rel);
    assert o.snaps[older].guid in d.snaps && CanSendFrom(pruned, rel, o.snaps[older].guid);
  }

  lemma AnchoredStays(r: RunId, w: World, w': World, at: set<Name>, failed: set<Name>, pg: map<Name, Guid>, calm: bool)
    requires Anchored(r, w, at, failed, pg, calm) && OnlyAnchors(r, w, w')
    ensures Anchored(r, w', at, failed, pg, calm)
  {
    forall rel | rel in at && rel !in failed
      ensures Settled(r, w', rel, pg)
    {
      assert AnchorsGrow(r, rel, w.origin[rel], w'.origin[rel]);
    }
    forall rel | rel in failed && calm
      ensures PointGone(r, w', rel)
    {
      assert AnchorsGrow(r, rel, w.origin[rel], w'.origin[rel]);
    }
  }
}
