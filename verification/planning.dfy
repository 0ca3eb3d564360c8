/** What each dataset needs to reach the point, as a survey of both sides says. */
module Planning {
  import opened Replication
  import opened Pools
  import opened Protocol
  import opened RunState

  datatype State = AtPoint | Resume | New | Incremental | ViaBookmark | Rollback | Diverged | Modified

  datatype Plan = Plan(rel: Name, state: State)

  predicate Transferable(s: State) {
    s in {AtPoint, Resume, New, Incremental, ViaBookmark}
  }

  /** What a dataset needs, its partial receive set aside. */
  function PlainState(r: RunId, o: OriginDs, d: DriveDs, rel: Name): State {
    if d.snaps == [] then Diverged
    else
      var newest := d.snaps[|d.snaps| - 1];
      if r.PointName() in o.snaps && o.snaps[r.PointName()].guid == newest then AtPoint
      else if InSnaps(o, newest) then Incremental
      else if !IsBpool(rel) && InBookmarks(o, newest) then ViaBookmark
      else if exists i :: 0 <= i < |d.snaps| - 1 && CanSendFrom(o, rel, d.snaps[i]) then Rollback
      else Diverged
  }

  function PlanState(r: RunId, o: OriginDs, drive: Drive, rel: Name): State {
    if rel !in drive then New
    else
      var d := drive[rel];
      if d.token then (if d.written && d.snaps != [] then Modified else Resume)
      else
        var s := PlainState(r, o, d, rel);
        if d.written && (s == Incremental || s == ViaBookmark) then Modified else s
  }

  /** What the states mean: nothing in common, the newest in common, or only an older
      one, so that what is newer on the drive would have to go. */
  lemma StatesMean(r: RunId, o: OriginDs, d: DriveDs, rel: Name)
    ensures PlainState(r, o, d, rel) == Diverged <==> forall g :: g in d.snaps ==> !CanSendFrom(o, rel, g)
    ensures PlainState(r, o, d, rel) == Rollback <==>
      && (exists g :: g in d.snaps && CanSendFrom(o, rel, g))
      && !CanSendFrom(o, rel, d.snaps[|d.snaps| - 1])
    ensures PlainState(r, o, d, rel) == AtPoint <==>
      d.snaps != [] && r.PointName() in o.snaps && o.snaps[r.PointName()].guid == d.snaps[|d.snaps| - 1]
  {
    if d.snaps != [] {
      var n := |d.snaps| - 1;
      assert d.snaps[n] in d.snaps;
      assert r.PointName() in o.snaps ==> InSnaps(o, o.snaps[r.PointName()].guid);
      assert (exists g :: g in d.snaps && CanSendFrom(o, rel, g)) <==>
        CanSendFrom(o, rel, d.snaps[n]) || exists i :: 0 <= i < n && CanSendFrom(o, rel, d.snaps[i]);
    }
  }

  /** The run's plans: every expected dataset once. */
  ghost predicate ArePlans(r: RunId, origin: Origin, drive: Drive, ps: seq<Plan>) {
    && (forall p :: p in ps ==> Wanted(r, origin, p.rel) && p.state == PlanState(r, origin[p.rel], drive, p.rel))
    && (forall rel :: Wanted(r, origin, rel) ==> Plan(rel, PlanState(r, origin[rel], drive, rel)) in ps)
    && (forall i, j :: 0 <= i < j < |ps| ==> ps[i].rel != ps[j].rel)
  }

  /** The drive's copy, when it holds a snapshot, ends with this one. */
  predicate EndsWith(drive: Drive, rel: Name, g: Guid) {
    rel in drive && drive[rel].snaps != [] && drive[rel].snaps[|drive[rel].snaps| - 1] == g
  }

  predicate HasToken(drive: Drive, rel: Name) {
    rel in drive && drive[rel].token
  }

  predicate IsWritten(drive: Drive, rel: Name) {
    rel in drive && drive[rel].written
  }

  predicate IsPointGuid(r: RunId, o: OriginDs, g: Guid) {
    r.PointName() in o.snaps && o.snaps[r.PointName()].guid == g
  }

  /** Origin can send on from the newest the drive holds, which is not the point. */
  ghost predicate MaySendOn(r: RunId, o: OriginDs, drive: Drive, rel: Name) {
    exists g :: EndsWith(drive, rel, g) && CanSendFrom(o, rel, g) && !IsPointGuid(r, o, g)
  }

  predicate IsEmpty(drive: Drive, rel: Name) {
    rel in drive && drive[rel].snaps == []
  }

  /** What a plan says of the two sides, state by state. */
  lemma PlansSay(r: RunId, origin: Origin, drive: Drive, ps: seq<Plan>, p: Plan)
    requires ArePlans(r, origin, drive, ps) && p in ps
    ensures p.state == New <==> p.rel !in drive
    ensures p.state == Resume <==> HasToken(drive, p.rel) && !(IsWritten(drive, p.rel) && !IsEmpty(drive, p.rel))
    ensures p.state == Modified <==>
      && IsWritten(drive, p.rel)
      && if HasToken(drive, p.rel) then !IsEmpty(drive, p.rel) else MaySendOn(r, origin[p.rel], drive, p.rel)
    ensures p.state == AtPoint <==>
      !HasToken(drive, p.rel) && exists g :: EndsWith(drive, p.rel, g) && IsPointGuid(r, origin[p.rel], g)
    ensures p.state == Incremental <==>
      && !HasToken(drive, p.rel) && !IsWritten(drive, p.rel)
      && exists g :: EndsWith(drive, p.rel, g) && InSnaps(origin[p.rel], g) && !IsPointGuid(r, origin[p.rel], g)
    ensures p.state == ViaBookmark <==>
      && !HasToken(drive, p.rel) && !IsWritten(drive, p.rel) && !IsBpool(p.rel)
      && exists g :: EndsWith(drive, p.rel, g) && !InSnaps(origin[p.rel], g) && InBookmarks(origin[p.rel], g)
    ensures p.state == Rollback <==>
      && p.rel in drive && !HasToken(drive, p.rel)
      && (exists g :: g in drive[p.rel].snaps && CanSendFrom(origin[p.rel], p.rel, g))
      && (forall g :: EndsWith(drive, p.rel, g) ==> !CanSendFrom(origin[p.rel], p.rel, g))
    ensures p.state == Diverged <==>
      && p.rel in drive && !HasToken(drive, p.rel)
      && forall g :: g in drive[p.rel].snaps ==> !CanSendFrom(origin[p.rel], p.rel, g)
  {
    if p.rel in drive && drive[p.rel].snaps != [] {
      var o, d := origin[p.rel], drive[p.rel];
      var g := d.snaps[|d.snaps| - 1];
      assert EndsWith(drive, p.rel, g) && g in d.snaps;
      assert IsPointGuid(r, o, g) ==> InSnaps(o, g);
      StatesMean(r, o, d, p.rel);
    }
  }

  /** A plan that still needs a transfer is one whose point the drive lacks. */
  lemma NotAtPoint(r: RunId, w: World, cached: Origin, started: set<Name>, pg: map<Name, Guid>, rel: Name)
    requires RunInv(r, w, cached, started, pg) && Wanted(r, w.origin, rel) && r.PointName() in w.origin[rel].snaps
    requires PlanState(r, w.origin[rel], DriveOf(w, r.disk), rel) != AtPoint
    ensures rel in pg && !Holds(w, r.disk, rel, pg[rel])
  {
    assert PointOk(r, w, rel, pg);
    assert HeldOnce(r, w, rel, started, pg);
  }

  /** And one at the point is one whose point it holds. */
  lemma PlannedAtPoint(r: RunId, w: World, cached: Origin, started: set<Name>, pg: map<Name, Guid>, rel: Name)
    requires RunInv(r, w, cached, started, pg) && Wanted(r, w.origin, rel)
    requires PlanState(r, w.origin[rel], DriveOf(w, r.disk), rel) == AtPoint
    ensures rel in pg && Holds(w, r.disk, rel, pg[rel])
  {
    assert PointOk(r, w, rel, pg);
  }

  method PlanAll(r: RunId, origin: Origin, drive: Drive) returns (ps: seq<Plan>)
    ensures ArePlans(r, origin, drive, ps)
  {
    var q := Listing(set rel | rel in origin && Wanted(r, origin, rel));
    ps := [];
    for i := 0 to |q|
      invariant |ps| == i
      invariant forall j :: 0 <= j < i ==>
        q[j] in origin && ps[j] == Plan(q[j], PlanState(r, origin[q[j]], drive, q[j]))
    {
      assert q[i] in q;
      ps := ps + [Plan(q[i], PlanState(r, origin[q[i]], drive, q[i]))];
    }
    forall p | p in ps
      ensures Wanted(r, origin, p.rel) && p.state == PlanState(r, origin[p.rel], drive, p.rel)
    {
      var j :| 0 <= j < |ps| && ps[j] == p;
      assert q[j] in q;
    }
    forall rel | Wanted(r, origin, rel)
      ensures Plan(rel, PlanState(r, origin[rel], drive, rel)) in ps
    {
      assert rel in q;
      var j :| 0 <= j < |q| && q[j] == rel;
      assert ps[j] in ps;
    }
  }
}
