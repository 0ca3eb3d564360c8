/** What is true of a run between any two of its commands, from its point on. */
module RunState {
  import opened Replication
  import opened Pools
  import opened Protocol

  /** No reference of origin is named after this run yet: the clock gave it a
      second no earlier run or snapshot of the drive's anchors had. */
  predicate FreshStamp(r: RunId, w: World) {
    forall rel :: rel in w.origin ==> NoKeepIn(r, w.origin[rel]) && r.PointName() !in w.origin[rel].snaps
  }

  predicate NoKeepIn(r: RunId, o: OriginDs) {
    r.Keep() !in o.snaps && r.Keep() !in o.bookmarks
  }

  predicate NoKeep(r: RunId, w: World) {
    forall rel {:trigger NoKeepIn(r, w.origin[rel])} :: rel in w.origin ==> NoKeepIn(r, w.origin[rel])
  }

  /** The drive holds the point of this dataset: as its newest, nothing partial,
      and origin has the point still or this drive's anchor of it. */
  predicate AtPointOk(r: RunId, w: World, rel: Name, g: Guid, started: set<Name>) {
    && rel in started && rel in w.origin && rel in DriveOf(w, r.disk)
    && IsNewest(DriveOf(w, r.disk)[rel], g) && !DriveOf(w, r.disk)[rel].token
    && (r.PointName() in w.origin[rel].snaps || AnchoredAs(w, rel, r.Keep(), g))
    && (r.Keep() in AnchorGuids(w.origin[rel], rel) ==> AnchoredAs(w, rel, r.Keep(), g))
  }

  predicate HeldOnce(r: RunId, w: World, rel: Name, started: set<Name>, pg: map<Name, Guid>)
    requires rel in pg
  {
    Holds(w, r.disk, rel, pg[rel]) ==> AtPointOk(r, w, rel, pg[rel], started)
  }

  predicate PointOk(r: RunId, w: World, rel: Name, pg: map<Name, Guid>) {
    rel in w.origin && r.PointName() in w.origin[rel].snaps ==>
      && rel in pg
      && w.origin[rel].snaps[r.PointName()].guid == pg[rel]
      && w.origin[rel].snaps[r.PointName()].owner == Some(r.disk)
      && (IsBpool(rel) ==> r.Keep() !in w.origin[rel].snaps)
  }

  /** What the run remembers of its last read of origin. */
  ghost predicate CacheOk(r: RunId, w: World, cached: Origin, started: set<Name>, pg: map<Name, Guid>) {
    && (pg != map[] ==> cached.Keys == w.origin.Keys)
    && (forall rel {:trigger IsCached(r, w, cached, rel, pg)} :: rel in cached ==> IsCached(r, w, cached, rel, pg))
    && (forall rel {:trigger SawPoint(r, cached, rel)} :: rel in started ==> SawPoint(r, cached, rel))
  }

  predicate IsCached(r: RunId, w: World, cached: Origin, rel: Name, pg: map<Name, Guid>)
    requires rel in cached
  {
    && rel in w.origin && cached[rel].kind == w.origin[rel].kind
    && (r.PointName() in cached[rel].snaps ==> rel in pg && cached[rel].snaps[r.PointName()].guid == pg[rel])
  }

  predicate SawPoint(r: RunId, cached: Origin, rel: Name) {
    rel in cached && r.PointName() in cached[rel].snaps
  }

  /** `pg` maps each dataset to the guid of the point taken on it. */
  ghost predicate RunInv(r: RunId, w: World, cached: Origin, started: set<Name>, pg: map<Name, Guid>) {
    && CacheOk(r, w, cached, started, pg)
    && (forall rel :: rel in pg ==> Wanted(r, w.origin, rel))
    && (forall rel {:trigger PointOk(r, w, rel, pg)} :: rel in w.origin ==> PointOk(r, w, rel, pg))
    && (forall rel {:trigger HeldOnce(r, w, rel, started, pg)} :: rel in pg ==> HeldOnce(r, w, rel, started, pg))
  }

  /** Commands that never give the run's anchor name to anything but its point. */
  predicate NamesPoint(r: RunId, w: World, c: Cmd, pg: map<Name, Guid>)
    requires Accepted(w, c)
  {
    match c
    case MakeBookmark(rel, snap, mark) =>
      mark == r.Keep() ==>
        && (rel in pg && Holds(w, r.disk, rel, pg[rel]) ==> w.origin[rel].snaps[snap].guid == pg[rel])
        && (Holds(w, r.disk, rel, w.origin[rel].snaps[snap].guid) ==>
              Wanted(r, w.origin, rel) && IsNewest(DriveOf(w, r.disk)[rel], w.origin[rel].snaps[snap].guid))
    case RenameSnap(rel, from, to) => from == r.PointName() ==> to == r.Keep()
    case SnapshotAll(_, _, _, _) => false
    case Receive(_, _, _, _) => false
    case _ => true
  }

  lemma StepKeepsAtPoint(r: RunId, w: World, w': World, c: Cmd, rel: Name, started: set<Name>, pg: map<Name, Guid>)
    requires IsStep(r, w, w', c) && NamesPoint(r, w, c, pg) && rel in pg && Wanted(r, w.origin, rel)
    requires PointOk(r, w, rel, pg) && HeldOnce(r, w, rel, started, pg)
    ensures HeldOnce(r, w', rel, started, pg)
  {
    if Holds(w', r.disk, rel, pg[rel]) {
      match c
      case MakeBookmark(_, _, _) =>
      case RenameSnap(_, _, _) =>
      case DestroySnap(_, _) =>
      case DestroyBookmark(_, _) =>
      case AbortPartial(_, _) =>
      case CreateContainer(_, _) =>
    }
  }

  lemma StepKeepsPoint(r: RunId, w: World, w': World, c: Cmd, rel: Name, pg: map<Name, Guid>)
    requires IsStep(r, w, w', c) && NamesPoint(r, w, c, pg) && PointOk(r, w, rel, pg)
    ensures PointOk(r, w', rel, pg)
  {
  }

  /** Wherever the run has its new anchor, that marks the newest the drive holds. */
  ghost predicate KeepsOk(r: RunId, w: World) {
    forall rel {:trigger KeepIsNewest(r, w, rel)} :: KeepIsNewest(r, w, rel)
  }

  lemma NoKeepYet(r: RunId, w: World)
    requires NoKeep(r, w)
    ensures KeepsOk(r, w)
  {
    forall rel
      ensures KeepIsNewest(r, w, rel)
    {
      assert rel in w.origin ==> NoKeepIn(r, w.origin[rel]);
    }
  }

  lemma KeepStaysNewest(r: RunId, w: World, w': World, c: Cmd, rel: Name, started: set<Name>, pg: map<Name, Guid>)
    requires IsStep(r, w, w', c) && NamesPoint(r, w, c, pg) && KeepIsNewest(r, w, rel) && PointOk(r, w, rel, pg)
    requires rel in pg ==> HeldOnce(r, w, rel, started, pg) && Wanted(r, w.origin, rel)
    ensures KeepIsNewest(r, w', rel)
  {
    match c
    case MakeBookmark(_, _, _) =>
    case RenameSnap(_, _, _) =>
    case DestroySnap(_, _) =>
    case DestroyBookmark(_, _) =>
    case AbortPartial(_, _) =>
    case CreateContainer(_, _) =>
  }

  lemma StepKeepsNewest(r: RunId, w: World, w': World, c: Cmd, cached: Origin, started: set<Name>, pg: map<Name, Guid>)
    requires RunInv(r, w, cached, started, pg) && KeepsOk(r, w) && IsStep(r, w, w', c) && NamesPoint(r, w, c, pg)
    ensures KeepsOk(r, w')
  {
    forall rel
      ensures KeepIsNewest(r, w', rel)
    {
      assert rel in pg ==> HeldOnce(r, w, rel, started, pg);
      assert rel in w.origin ==> PointOk(r, w, rel, pg);
      assert KeepIsNewest(r, w, rel) && (rel in pg ==> Wanted(r, w.origin, rel));
      KeepStaysNewest(r, w, w', c, rel, started, pg);
    }
  }

  lemma StepKeepsInv(r: RunId, w: World, w': World, c: Cmd, cached: Origin, started: set<Name>, pg: map<Name, Guid>)
    requires RunInv(r, w, cached, started, pg) && IsStep(r, w, w', c) && NamesPoint(r, w, c, pg)
    ensures RunInv(r, w', cached, started, pg)
  {
    assert w'.origin.Keys == w.origin.Keys;
    forall rel | rel in cached
      ensures IsCached(r, w', cached, rel, pg)
    {
      assert IsCached(r, w, cached, rel, pg);
    }
    forall rel | rel in w'.origin
      ensures PointOk(r, w', rel, pg)
    {
      assert PointOk(r, w, rel, pg);
      StepKeepsPoint(r, w, w', c, rel, pg);
    }
    forall rel | rel in pg
      ensures HeldOnce(r, w', rel, started, pg)
    {
      assert PointOk(r, w, rel, pg) && HeldOnce(r, w, rel, started, pg);
      StepKeepsAtPoint(r, w, w', c, rel, started, pg);
    }
  }

  /** Anchoring only adds: nothing on a drive changes, no anchor goes, no point
      comes, and none goes but one the drive holds. */
  ghost predicate OnlyAnchors(r: RunId, w: World, w': World) {
    && w'.drives == w.drives && w'.origin.Keys == w.origin.Keys
    && (forall rel {:trigger AnchorsGrow(r, rel, w.origin[rel], w'.origin[rel])} ::
         rel in w.origin ==> AnchorsGrow(r, rel, w.origin[rel], w'.origin[rel]))
    && (forall rel {:trigger PointStays(r, w, w', rel)} :: rel in w.origin ==> PointStays(r, w, w', rel))
  }

  /** The point stays as it is, unless the drive holds it (and it was renamed). */
  predicate PointStays(r: RunId, w: World, w': World, rel: Name)
    requires rel in w.origin
  {
    r.PointName() in w.origin[rel].snaps ==>
      || Holds(w, r.disk, rel, w.origin[rel].snaps[r.PointName()].guid)
      || (rel in w'.origin && r.PointName() in w'.origin[rel].snaps
          && w'.origin[rel].snaps[r.PointName()] == w.origin[rel].snaps[r.PointName()])
  }

  ghost predicate AnchorsGrow(r: RunId, rel: Name, o: OriginDs, o': OriginDs) {
    && o'.kind == o.kind
    && (forall n :: n in AnchorGuids(o, rel) && !n.Point? ==>
          n in AnchorGuids(o', rel) && AnchorGuids(o', rel)[n] == AnchorGuids(o, rel)[n])
    && (r.PointName() !in o.snaps ==> r.PointName() !in o'.snaps)
  }

  lemma OnlyAnchorsTransitive(r: RunId, w: World, w1: World, w2: World)
    requires OnlyAnchors(r, w, w1) && OnlyAnchors(r, w1, w2)
    ensures OnlyAnchors(r, w, w2)
  {
    forall rel | rel in w.origin
      ensures AnchorsGrow(r, rel, w.origin[rel], w2.origin[rel])
    {
      assert AnchorsGrow(r, rel, w.origin[rel], w1.origin[rel]);
      assert AnchorsGrow(r, rel, w1.origin[rel], w2.origin[rel]);
    }
    forall rel | rel in w.origin
      ensures PointStays(r, w, w2, rel)
    {
      assert PointStays(r, w, w1, rel) && PointStays(r, w1, w2, rel);
    }
  }

  /** The dataset ended anchored for the run's drive; on bpool the point was
      renamed to be the anchor. */
  predicate Settled(r: RunId, w: World, rel: Name, pg: map<Name, Guid>) {
    && rel in pg && AnchoredAs(w, rel, r.Keep(), pg[rel])
    && (IsBpool(rel) ==> r.PointName() !in w.origin[rel].snaps)
  }

  // ---- before the anchors --------------------------------------------------

  /** Every dataset lies under rpool or bpool, below one that is no volume. */
  ghost predicate WellFormed(origin: Origin) {
    forall rel {:trigger IsPlaced(origin, rel)} :: rel in origin ==> IsPlaced(origin, rel)
  }

  predicate IsPlaced(origin: Origin, rel: Name) {
    && rel != [] && (rel[0] == "rpool" || rel[0] == "bpool")
    && (|rel| > 1 ==> Parent(rel) in origin && origin[Parent(rel)].kind != Volume)
  }

  /** Every expected dataset has the point. */
  ghost predicate Taken(r: RunId, w: World) {
    forall rel {:trigger HasPoint(r, w, rel)} :: HasPoint(r, w, rel)
  }

  predicate HasPoint(r: RunId, w: World, rel: Name) {
    Wanted(r, w.origin, rel) ==> r.PointName() in w.origin[rel].snaps
  }

  /** Nothing of the point is on the drive, under any name. */
  ghost predicate Unheld(r: RunId, w: World, pg: map<Name, Guid>) {
    forall rel, was :: rel in pg ==> !Holds(w, r.disk, was, pg[rel])
  }

  /** Nothing was sent, anchored or renamed yet. */
  ghost predicate EarlyOk(r: RunId, w: World, pg: map<Name, Guid>) {
    NoKeep(r, w) && Unheld(r, w, pg) && WellFormed(w.origin)
  }

  /** Transfers may run: every expected dataset has the point, no anchor of it. */
  ghost predicate SendingOk(r: RunId, w: World) {
    NoKeep(r, w) && Taken(r, w) && WellFormed(w.origin)
  }

  /** Where the point was not taken yet, nothing has its name: with fresh guids it can be. */
  lemma CanTake(r: RunId, w: World, pg: map<Name, Guid>, guids: map<Name, Guid>, now: nat)
    requires forall rel {:trigger PointOk(r, w, rel, pg)} :: rel in w.origin ==> PointOk(r, w, rel, pg)
    requires guids.Keys !! pg.Keys && forall rel :: rel in guids ==> rel in w.origin && FreshGuid(w, guids[rel])
    ensures Accepted(w, SnapshotAll(r.PointName(), r.disk, guids, now))
  {
    forall rel | rel in guids
      ensures r.PointName() !in w.origin[rel].snaps
    {
      assert PointOk(r, w, rel, pg);
    }
  }

  /** Origin as remembered was read before the point, which is on `pg` so far. */
  ghost predicate TakingOk(r: RunId, w: World, cached: Origin, pg: map<Name, Guid>) {
    && cached.Keys == w.origin.Keys
    && (forall rel :: rel in cached ==> cached[rel].kind == w.origin[rel].kind && r.PointName() !in cached[rel].snaps)
    && (forall rel :: rel in pg ==> rel in w.origin && r.PointName() in w.origin[rel].snaps)
  }

  lemma UnheldInv(r: RunId, w: World, cached: Origin, pg: map<Name, Guid>)
    requires CacheOk(r, w, cached, {}, pg) && Unheld(r, w, pg)
    requires forall rel :: rel in pg ==> Wanted(r, w.origin, rel)
    requires forall rel {:trigger PointOk(r, w, rel, pg)} :: rel in w.origin ==> PointOk(r, w, rel, pg)
    ensures RunInv(r, w, cached, {}, pg)
  {
  }

  lemma TakeKeepsPoints(r: RunId, w: World, w': World, guids: map<Name, Guid>, now: nat, pg: map<Name, Guid>)
    requires var c := SnapshotAll(r.PointName(), r.disk, guids, now); IsStep(r, w, w', c)
    requires NoKeep(r, w) && pg.Keys !! guids.Keys
    requires forall rel {:trigger PointOk(r, w, rel, pg)} :: rel in w.origin ==> PointOk(r, w, rel, pg)
    ensures NoKeep(r, w') && w'.origin.Keys == w.origin.Keys && w'.drives == w.drives
    ensures forall rel :: rel in w.origin ==> w'.origin[rel].kind == w.origin[rel].kind
    ensures forall rel :: rel in w.origin && (rel in guids || r.PointName() in w.origin[rel].snaps) ==>
              r.PointName() in w'.origin[rel].snaps
    ensures forall rel {:trigger PointOk(r, w', rel, pg + guids)} :: rel in w'.origin ==>
      PointOk(r, w', rel, pg + guids)
  {
    forall rel | rel in w'.origin
      ensures PointOk(r, w', rel, pg + guids) && NoKeepIn(r, w'.origin[rel])
    {
      assert PointOk(r, w, rel, pg) && NoKeepIn(r, w.origin[rel]);
    }
  }

  lemma TakeKeepsUnheld(r: RunId, w: World, w': World, guids: map<Name, Guid>, now: nat, pg: map<Name, Guid>)
    requires Accepted(w, SnapshotAll(r.PointName(), r.disk, guids, now)) && Unheld(r, w, pg) && w'.drives == w.drives
    ensures Unheld(r, w', pg + guids)
  {
    forall rel, was | rel in pg + guids
      ensures !Holds(w', r.disk, was, (pg + guids)[rel])
    {
      if rel in guids {
        assert FreshGuid(w, guids[rel]);
      } else {
        assert !Holds(w, r.disk, was, pg[rel]);
      }
    }
  }

  lemma TakeKeepsInv(r: RunId, w: World, w': World, guids: map<Name, Guid>, now: nat, cached: Origin,
                     pg: map<Name, Guid>)
    requires var c := SnapshotAll(r.PointName(), r.disk, guids, now); IsStep(r, w, w', c)
    requires RunInv(r, w, cached, {}, pg) && EarlyOk(r, w, pg) && TakingOk(r, w, cached, pg) && pg.Keys !! guids.Keys
    ensures RunInv(r, w', cached, {}, pg + guids) && EarlyOk(r, w', pg + guids) && TakingOk(r, w', cached, pg + guids)
  {
    TakeKeepsPoints(r, w, w', guids, now, pg);
    TakeKeepsUnheld(r, w, w', guids, now, pg);
    TakeKeepsCache(r, w, w', guids, cached, pg);
    UnheldInv(r, w', cached, pg + guids);
  }

  lemma TakeKeepsCache(r: RunId, w: World, w': World, guids: map<Name, Guid>, cached: Origin, pg: map<Name, Guid>)
    requires TakingOk(r, w, cached, pg) && w'.origin.Keys == w.origin.Keys
    requires forall rel :: rel in w.origin ==> w'.origin[rel].kind == w.origin[rel].kind
    requires forall rel :: rel in w.origin && (rel in guids || r.PointName() in w.origin[rel].snaps) ==>
               r.PointName() in w'.origin[rel].snaps
    requires forall rel :: rel in pg || rel in guids ==> Wanted(r, w.origin, rel)
    ensures TakingOk(r, w', cached, pg + guids) && CacheOk(r, w', cached, {}, pg + guids)
    ensures forall rel :: rel in pg + guids ==> Wanted(r, w'.origin, rel)
    ensures WellFormed(w.origin) ==> WellFormed(w'.origin)
  {
    PlacesKept(w.origin, w'.origin);
  }

  lemma PlacesKept(o: Origin, o': Origin)
    requires o'.Keys == o.Keys && forall rel :: rel in o ==> o'[rel].kind == o[rel].kind
    ensures WellFormed(o) ==> WellFormed(o')
  {
    forall rel | WellFormed(o) && rel in o'
      ensures IsPlaced(o', rel)
    {
      assert IsPlaced(o, rel);
    }
  }

  lemma ReadKeepsInv(r: RunId, w: World, cached: Origin, pg: map<Name, Guid>)
    requires RunInv(r, w, cached, {}, pg) && EarlyOk(r, w, pg) && pg == map[] && FreshStamp(r, w)
    ensures RunInv(r, w, w.origin, {}, pg) && TakingOk(r, w, w.origin, pg)
  {
    forall rel | rel in w.origin
      ensures PointOk(r, w, rel, pg)
    {
    }
  }

  lemma SameWanted(r: RunId, w: World, cached: Origin, pg: map<Name, Guid>)
    requires TakingOk(r, w, cached, pg)
    ensures forall rel :: Wanted(r, w.origin, rel) <==> Wanted(r, cached, rel)
  {
  }

  lemma TookAll(r: RunId, w: World, cached: Origin, pg: map<Name, Guid>, pool: Name, names: set<Name>)
    requires TakingOk(r, w, cached, pg) && names <= pg.Keys
    requires forall rel :: rel in cached && Wanted(r, cached, rel) && Under(rel, pool) ==> rel in names
    ensures forall rel :: Wanted(r, w.origin, rel) && Under(rel, pool) ==> rel in pg
  {
    SameWanted(r, w, cached, pg);
  }

  lemma AllTaken(r: RunId, w: World, cached: Origin, pg: map<Name, Guid>)
    requires EarlyOk(r, w, pg) && TakingOk(r, w, cached, pg)
    requires forall rel :: Wanted(r, w.origin, rel) && (Under(rel, ["rpool"]) || Under(rel, ["bpool"])) ==> rel in pg
    ensures SendingOk(r, w)
  {
    forall rel | Wanted(r, w.origin, rel)
      ensures r.PointName() in w.origin[rel].snaps
    {
      assert IsPlaced(w.origin, rel);
      assert rel[..1] == [rel[0]];
    }
  }

  lemma RearrangeUnheld(r: RunId, w: World, w': World, c: Cmd, pg: map<Name, Guid>)
    requires IsDecision(r, w, w', c) && Unheld(r, w, pg)
    ensures Unheld(r, w', pg)
  {
    forall rel, was | rel in pg
      ensures !Holds(w', r.disk, was, pg[rel])
    {
      if c.Rearrange? && Holds(w', r.disk, was, pg[rel]) {
        var before :| before in DriveOf(w, r.disk) && pg[rel] in DriveOf(w, r.disk)[before].snaps;
        assert Holds(w, r.disk, before, pg[rel]);
      } else {
        assert !Holds(w, r.disk, was, pg[rel]);
      }
    }
  }

  lemma DecisionKeepsOrigin(r: RunId, w: World, w': World, c: Cmd)
    requires IsDecision(r, w, w', c)
    ensures w'.origin.Keys == w.origin.Keys
    ensures forall rel :: rel in w.origin ==>
      w'.origin[rel].kind == w.origin[rel].kind && w'.origin[rel].snaps == w.origin[rel].snaps
    ensures NoKeep(r, w) ==> NoKeep(r, w')
    ensures WellFormed(w.origin) ==> WellFormed(w'.origin)
  {
    forall rel | NoKeep(r, w) && rel in w'.origin
      ensures NoKeepIn(r, w'.origin[rel])
    {
      assert NoKeepIn(r, w.origin[rel]);
    }
    PlacesKept(w.origin, w'.origin);
  }

  /** The user's decisions come before anything is sent, so none of them can
      touch what the run relies on. */
  lemma DecisionKeepsInv(r: RunId, w: World, w': World, c: Cmd, cached: Origin, pg: map<Name, Guid>)
    requires IsDecision(r, w, w', c) && RunInv(r, w, cached, {}, pg)
    requires EarlyOk(r, w, pg) && SendingOk(r, w)
    ensures RunInv(r, w', cached, {}, pg) && EarlyOk(r, w', pg) && SendingOk(r, w')
  {
    DecisionKeepsOrigin(r, w, w', c);
    RearrangeUnheld(r, w, w', c, pg);
    forall rel | rel in w'.origin
      ensures PointOk(r, w', rel, pg) && HasPoint(r, w', rel)
    {
      assert PointOk(r, w, rel, pg) && HasPoint(r, w, rel);
    }
    forall rel | rel in cached
      ensures IsCached(r, w', cached, rel, pg)
    {
      assert IsCached(r, w, cached, rel, pg);
    }
    UnheldInv(r, w', cached, pg);
  }

  /** A receive keeps it too: the point arrives last, and the run notes that a
      receive began before it runs. */
  lemma ReceiveKeepsInv(r: RunId, w: World, w': World, rel: Name, got: seq<Guid>, token: bool,
                        cached: Origin, started: set<Name>, pg: map<Name, Guid>)
    requires RunInv(r, w, cached, started, pg) && NoKeep(r, w) && rel in started && rel in pg
    requires Wanted(r, w.origin, rel) && r.PointName() in w.origin[rel].snaps && !Holds(w, r.disk, rel, pg[rel])
    requires w' == Apply(w, Receive(r.disk, rel, got, token))
    requires forall i :: 0 <= i < |got| && got[i] == pg[rel] ==> i == |got| - 1
    requires pg[rel] in got ==> !token
    ensures RunInv(r, w', cached, started, pg)
  {
    forall other | other in w'.origin
      ensures PointOk(r, w', other, pg)
    {
      assert PointOk(r, w, other, pg);
    }
    forall other | other in cached
      ensures IsCached(r, w', cached, other, pg)
    {
      assert IsCached(r, w, cached, other, pg);
    }
    forall other | other in pg
      ensures HeldOnce(r, w', other, started, pg)
    {
      assert HeldOnce(r, w, other, started, pg);
      if other == rel {
        PointArrives(r, w, w', rel, got, token, started, pg);
      } else {
        assert DriveOf(w', r.disk) - {rel} == DriveOf(w, r.disk) - {rel};
      }
    }
  }

  lemma PointArrives(r: RunId, w: World, w': World, rel: Name, got: seq<Guid>, token: bool,
                     started: set<Name>, pg: map<Name, Guid>)
    requires NoKeep(r, w) && rel in started && rel in pg && rel in w.origin && r.PointName() in w.origin[rel].snaps
    requires !Holds(w, r.disk, rel, pg[rel]) && w' == Apply(w, Receive(r.disk, rel, got, token))
    requires forall i :: 0 <= i < |got| && got[i] == pg[rel] ==> i == |got| - 1
    requires pg[rel] in got ==> !token
    ensures HeldOnce(r, w', rel, started, pg)
  {
    assert NoKeepIn(r, w.origin[rel]);
    if Holds(w', r.disk, rel, pg[rel]) {
      assert pg[rel] in got;
    }
  }

  /** A survey reads origin afresh; the point is in it. */
  lemma SurveyKeepsInv(r: RunId, w: World, cached: Origin, started: set<Name>, pg: map<Name, Guid>)
    requires RunInv(r, w, cached, started, pg) && Taken(r, w)
    ensures RunInv(r, w, w.origin, started, pg)
  {
    forall rel | rel in w.origin
      ensures IsCached(r, w, w.origin, rel, pg)
    {
      assert PointOk(r, w, rel, pg);
    }
    forall rel | rel in started
      ensures SawPoint(r, w.origin, rel)
    {
      assert SawPoint(r, cached, rel) && IsCached(r, w, cached, rel, pg);
      assert HasPoint(r, w, rel);
    }
  }

  /** Changing the drive alone leaves the phases as they are. */
  lemma DriveCmdKeepsPhase(r: RunId, w: World, w': World, c: Cmd, pg: map<Name, Guid>)
    requires IsStep(r, w, w', c) && (c.AbortPartial? || c.CreateContainer?)
    ensures w'.origin == w.origin && (EarlyOk(r, w, pg) ==> EarlyOk(r, w', pg))
    ensures SendingOk(r, w) ==> SendingOk(r, w')
  {
    forall rel | SendingOk(r, w)
      ensures HasPoint(r, w', rel)
    {
      assert HasPoint(r, w, rel);
    }
    forall rel, was | EarlyOk(r, w, pg) && rel in pg
      ensures !Holds(w', r.disk, was, pg[rel])
    {
      assert !Holds(w, r.disk, was, pg[rel]);
    }
  }

  lemma StartKeepsInv(r: RunId, w: World, started: set<Name>, pg: map<Name, Guid>, rel: Name)
    requires RunInv(r, w, w.origin, started, pg) && rel in w.origin && r.PointName() in w.origin[rel].snaps
    ensures RunInv(r, w, w.origin, started + {rel}, pg)
  {
    forall other | other in pg
      ensures HeldOnce(r, w, other, started + {rel}, pg)
    {
      assert HeldOnce(r, w, other, started, pg);
    }
  }

  /** At most one dataset of the drive changed. */
  ghost predicate OnlyCopy(r: RunId, w: World, w': World, rel: Name) {
    forall other :: other != rel ==>
      && (other in DriveOf(w', r.disk) <==> other in DriveOf(w, r.disk))
      && (other in DriveOf(w, r.disk) ==> DriveOf(w', r.disk)[other] == DriveOf(w, r.disk)[other])
  }

  lemma ContainerMade(w: World, w': World, disk: Disk, rel: Name)
    requires Accepted(w, CreateContainer(disk, rel)) && w' == Apply(w, CreateContainer(disk, rel))
    ensures DriveOf(w', disk) == DriveOf(w, disk)[rel := DriveDs([], false, false)]
  {
  }
}
