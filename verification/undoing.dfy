/** Which points an undo may remove, and what is left once it did. */
module Undoing {
  import opened Replication
  import opened Pools
  import opened Protocol
  import opened RunState
  import opened Planning
  import opened Anchoring
  import opened Verdicts

  ghost predicate Undoable(r: RunId, w: World, rel: Name) {
    rel in w.origin && r.PointName() in w.origin[rel].snaps ==> PointMayGo(r, w, rel, r.PointName())
  }

  /** The point of this dataset is needed, if it is there: a partial receive. */
  predicate OnlyToResume(r: RunId, w: World, rel: Name) {
    rel in w.origin && r.PointName() in w.origin[rel].snaps ==>
      rel in DriveOf(w, r.disk) && DriveOf(w, r.disk)[rel].token
  }

  /** Which points an undo keeps and which are renamed already; every other may
      go. A calm undo keeps only what a partial receive needs. */
  ghost predicate UndoPlan(r: RunId, w: World, names: set<Name>, kept: set<Name>, gone: set<Name>, calm: bool) {
    && (forall rel {:trigger Undoable(r, w, rel)} ::
          rel in names && rel !in kept && rel !in gone ==> Undoable(r, w, rel))
    && (calm ==> forall rel {:trigger OnlyToResume(r, w, rel)} ::
          rel in kept || rel in gone ==> OnlyToResume(r, w, rel))
    && (calm ==> forall rel {:trigger IsPartial(r, w, rel)} :: rel in names && IsPartial(r, w, rel) ==> rel in kept)
  }

  /** A partial receive on the drive needs the point of this dataset. */
  predicate NeededToResume(r: RunId, w: World, rel: Name) {
    rel in w.origin && r.PointName() in w.origin[rel].snaps && IsPartial(r, w, rel)
  }

  /** No point that a partial receive needs went. */
  ghost predicate ResumeKept(r: RunId, w: World, w': World) {
    && w'.drives == w.drives
    && forall rel {:trigger NeededToResume(r, w, rel)} :: NeededToResume(r, w, rel) ==> NeededToResume(r, w', rel)
  }

  lemma ResumeKeptTransitive(r: RunId, w: World, w1: World, w2: World)
    requires ResumeKept(r, w, w1) && ResumeKept(r, w1, w2)
    ensures ResumeKept(r, w, w2)
  {
    forall rel | NeededToResume(r, w, rel)
      ensures NeededToResume(r, w2, rel)
    {
      assert NeededToResume(r, w1, rel);
    }
  }

  /** Anchoring takes no such point: the drive does not hold it yet. */
  lemma AnchorsKeepPartial(r: RunId, w: World, w': World, cached: Origin, started: set<Name>, pg: map<Name, Guid>)
    requires RunInv(r, w, cached, started, pg) && OnlyAnchors(r, w, w')
    ensures ResumeKept(r, w, w')
  {
    forall rel | NeededToResume(r, w, rel)
      ensures NeededToResume(r, w', rel)
    {
      assert PointOk(r, w, rel, pg) && HeldOnce(r, w, rel, started, pg) && PointStays(r, w, w', rel);
    }
  }

  predicate IsAtPoint(r: RunId, cached: Origin, drive: Drive, rel: Name) {
    && rel in cached && rel in drive && !drive[rel].token && r.PointName() in cached[rel].snaps
    && cached[rel].snaps[r.PointName()].guid in drive[rel].snaps
  }

  /** With the drive read, a point neither anchored nor needed for a partial
      receive is one the drive does not hold. */
  lemma UndoPlanned(r: RunId, w0: World, w1: World, w: World, cached: Origin, started: set<Name>, pg: map<Name, Guid>,
                    names: set<Name>, at: set<Name>, failed: set<Name>, calm: bool)
    requires RunInv(r, w, cached, started, pg) && OnlyAnchors(r, w0, w1) && OnlyAnchors(r, w1, w)
    requires names == set rel | rel in cached && Wanted(r, cached, rel)
    requires forall rel :: rel in at <==> rel in names && IsAtPoint(r, cached, DriveOf(w0, r.disk), rel)
    requires Anchored(r, w1, at, failed, pg, calm)
    ensures UndoPlan(r, w, names,
                     (set rel | rel in names && rel in DriveOf(w0, r.disk) && DriveOf(w0, r.disk)[rel].token) + failed,
                     (set rel | rel in names && rel in at && IsBpool(rel) && rel !in failed), calm)
  {
    OnlyAnchorsTransitive(r, w0, w1, w);
    AnchoredStays(r, w1, w, at, failed, pg, calm);
    var drive := DriveOf(w0, r.disk);
    forall rel | rel in names && !(rel in drive && drive[rel].token) && rel !in failed && !(rel in at && IsBpool(rel))
      ensures Undoable(r, w, rel)
    {
      if rel in w.origin && r.PointName() in w.origin[rel].snaps {
        assert PointOk(r, w, rel, pg);
        if Holds(w, r.disk, rel, pg[rel]) {
          assert HeldOnce(r, w, rel, started, pg);
          assert SawPoint(r, cached, rel) && IsCached(r, w, cached, rel, pg);
          assert rel in at;
          assert Settled(r, w, rel, pg);
        }
      }
    }
  }

  lemma UnreadDrivePlanned(r: RunId, w: World, cached: Origin, started: set<Name>, pg: map<Name, Guid>,
                           names: set<Name>)
    requires RunInv(r, w, cached, started, pg) && forall rel :: rel in names ==> rel in cached
    ensures UndoPlan(r, w, names, started, {}, false)
  {
    assert forall rel :: rel in names ==> IsCached(r, w, cached, rel, pg);
    forall rel | rel in names && rel !in started
      ensures Undoable(r, w, rel)
    {
      if r.PointName() in w.origin[rel].snaps {
        assert PointOk(r, w, rel, pg);
        assert HeldOnce(r, w, rel, started, pg);
      }
    }
  }

  /** What a calm undo leaves: the point only where the drive keeps a partial
      receive, and every dataset the drive holds at the point anchored for it. */
  ghost predicate PointUndone(r: RunId, w: World, pg: map<Name, Guid>) {
    && (forall rel :: rel in w.origin ==> OnlyToResume(r, w, rel))
    && (forall rel :: rel in pg && Holds(w, r.disk, rel, pg[rel]) ==> AnchoredAs(w, rel, r.Keep(), pg[rel]))
  }

  /** What is left of the point is what partial receives need. */
  predicate AllToResume(r: RunId, w: World) {
    forall rel :: rel in w.origin ==> OnlyToResume(r, w, rel)
  }

  /** Before anything was sent, that is all there is to undo. */
  lemma UnheldUndone(r: RunId, w: World, pg: map<Name, Guid>)
    requires EarlyOk(r, w, pg)
    ensures PointUndone(r, w, pg) <==> AllToResume(r, w)
  {
  }

  /** Where the point was taken and some expected dataset has no partial receive, there is
      something to undo. */
  lemma TakenNotUndone(r: RunId, w: World, pg: map<Name, Guid>, rel: Name)
    requires Taken(r, w) && Wanted(r, w.origin, rel) && !IsPartial(r, w, rel)
    ensures !AllToResume(r, w) && !PointUndone(r, w, pg)
  {
    assert HasPoint(r, w, rel);
  }

  /** A read of origin since which no point was added. */
  ghost predicate Seen(r: RunId, w: World, seen: Option<Origin>) {
    seen.Some? ==> forall rel :: rel in w.origin && r.PointName() in w.origin[rel].snaps ==>
      rel in seen.value && r.PointName() in seen.value[rel].snaps
  }

  lemma AtPointHeld(r: RunId, w: World, cached: Origin, started: set<Name>, pg: map<Name, Guid>, at: set<Name>)
    requires RunInv(r, w, cached, started, pg)
    requires forall rel :: rel in at ==> IsAtPoint(r, cached, DriveOf(w, r.disk), rel)
    ensures forall rel :: rel in at ==> rel in pg && rel in cached && Holds(w, r.disk, rel, pg[rel])
  {
    assert forall rel :: rel in at ==> IsCached(r, w, cached, rel, pg);
  }

  /** Once every expected dataset was gone through, the point is left only for a
      partial receive, and what the drive holds of it is anchored. */
  lemma AllUndone(r: RunId, w: World, cached: Origin, started: set<Name>, pg: map<Name, Guid>, q: seq<Name>)
    requires RunInv(r, w, cached, started, pg)
    requires forall rel :: rel in q <==> rel in cached && Wanted(r, cached, rel)
    requires Resumable(r, w, q)
    ensures PointUndone(r, w, pg)
  {
    forall rel | rel in w.origin
      ensures OnlyToResume(r, w, rel)
    {
      if r.PointName() in w.origin[rel].snaps {
        assert PointOk(r, w, rel, pg);
        assert IsCached(r, w, cached, rel, pg) && rel in q;
        assert OnlyToResume(r, w, rel);
      }
    }
    LeftIsAnchored(r, w, cached, started, pg);
  }

  lemma LeftIsAnchored(r: RunId, w: World, cached: Origin, started: set<Name>, pg: map<Name, Guid>)
    requires RunInv(r, w, cached, started, pg) && forall rel :: rel in w.origin ==> OnlyToResume(r, w, rel)
    ensures PointUndone(r, w, pg)
  {
    forall rel | rel in pg && Holds(w, r.disk, rel, pg[rel])
      ensures AnchoredAs(w, rel, r.Keep(), pg[rel])
    {
      assert HeldOnce(r, w, rel, started, pg) && OnlyToResume(r, w, rel);
    }
  }

  /** Nothing needed less than before is left. */
  ghost predicate NoneReturned(r: RunId, w: World, w': World) {
    forall rel {:trigger OnlyToResume(r, w', rel)} :: OnlyToResume(r, w, rel) ==> OnlyToResume(r, w', rel)
  }

  ghost predicate Resumable(r: RunId, w: World, q: seq<Name>) {
    forall rel {:trigger OnlyToResume(r, w, rel)} :: rel in q ==> OnlyToResume(r, w, rel)
  }

  lemma OneMore(r: RunId, w: World, w': World, q: seq<Name>, i: nat, calm: bool)
    requires i < |q| && NoneReturned(r, w, w')
    requires calm ==> Resumable(r, w, q[..i]) && OnlyToResume(r, w', q[i])
    ensures calm ==> Resumable(r, w', q[..i + 1])
  {
    TakeOne(q, i);
    forall rel | calm && rel in q[..i + 1]
      ensures OnlyToResume(r, w', rel)
    {
      assert rel in q[..i] ==> OnlyToResume(r, w, rel);
    }
  }

  /** Destroying one dataset's point changes nothing for the others. */
  lemma UndoPlanStep(r: RunId, w: World, w': World, names: set<Name>, kept: set<Name>, gone: set<Name>, calm: bool,
                     rel: Name)
    requires UndoPlan(r, w, names, kept, gone, calm)
    requires w' ==
      w || (Accepted(w, DestroySnap(rel, r.PointName())) && w' == Apply(w, DestroySnap(rel, r.PointName())))
    requires calm && rel in names ==> rel !in kept
    ensures UndoPlan(r, w', names, kept, gone, calm)
    ensures NoneReturned(r, w, w')
    ensures calm && rel in names ==> ResumeKept(r, w, w')
  {
    forall other | calm && other in names && IsPartial(r, w', other)
      ensures other in kept
    {
      assert IsPartial(r, w, other);
    }
    forall other | other in names && other !in kept && other !in gone
      ensures Undoable(r, w', other)
    {
      assert Undoable(r, w, other);
      UndoableStays(r, w, w', rel, other);
    }
    forall other | calm && (other in kept || other in gone)
      ensures OnlyToResume(r, w', other)
    {
      assert OnlyToResume(r, w, other);
    }
  }

  lemma UndoableStays(r: RunId, w: World, w': World, rel: Name, other: Name)
    requires Undoable(r, w, other)
    requires w' ==
      w || (Accepted(w, DestroySnap(rel, r.PointName())) && w' == Apply(w, DestroySnap(rel, r.PointName())))
    ensures Undoable(r, w', other)
  {
    if other in w'.origin && r.PointName() in w'.origin[other].snaps && w' != w {
      assert other != rel && w'.origin[other] == w.origin[other];
      var s := w.origin[other].snaps[r.PointName()];
      if s.owner.Some? && HasAnchor(w, other, s.owner.value, s.guid) {
        var at: nat :| AnchoredAs(w, other, Anchor(s.owner.value, at), s.guid);
        assert AnchoredAs(w', other, Anchor(s.owner.value, at), s.guid);
      }
    }
  }

  /** After a calm drop the point is left only for a partial receive too: what
      the drive holds was anchored, and what it lacks is of no use. */
  lemma DropLeaves(r: RunId, w0: World, w1: World, w2: World, cached: Origin, started: set<Name>, pg: map<Name, Guid>,
                   ps: seq<Plan>, at: set<Name>, failed: set<Name>)
    requires RunInv(r, w1, cached, started, pg) && RunInv(r, w2, cached, started, pg)
    requires ArePlans(r, w0.origin, DriveOf(w0, r.disk), ps) && RunInv(r, w0, w0.origin, started, pg)
    requires at == set p | p in ps && p.state == AtPoint :: p.rel
    requires OnlyAnchors(r, w0, w1) && Anchored(r, w1, at, failed, pg, true) && Trimmed(r, w1, w2)
    requires DropsExactly(r, w1, w2)
    ensures PointUndone(r, w2, pg)
  {
    forall rel | rel in w2.origin
      ensures OnlyToResume(r, w2, rel)
    {
      if r.PointName() in w2.origin[rel].snaps {
        assert TrimmedDs(r, rel, w1.origin[rel], w2.origin[rel]);
        if rel in pg && rel in w1.origin && Holds(w1, r.disk, rel, pg[rel]) && r.PointName() in w1.origin[rel].snaps {
          HeldIsSettled(r, w0, w1, started, pg, ps, at, failed, rel);
        }
        LeftToResume(r, w1, w2, cached, started, pg, rel);
      }
    }
    LeftIsAnchored(r, w2, cached, started, pg);
  }

  /** A point the drop left is one the drive still needs to resume. */
  lemma LeftToResume(r: RunId, w1: World, w2: World, cached: Origin, started: set<Name>, pg: map<Name, Guid>, rel: Name)
    requires RunInv(r, w1, cached, started, pg) && DropsExactly(r, w1, w2)
    requires rel in w2.origin && r.PointName() in w2.origin[rel].snaps && IsPoint(w1, rel, r.PointName())
    requires rel in pg && Holds(w1, r.disk, rel, pg[rel]) ==> Settled(r, w1, rel, pg)
    ensures OnlyToResume(r, w2, rel)
  {
    assert PointOk(r, w1, rel, pg) && HeldOnce(r, w1, rel, started, pg);
    assert !PointGoes(r, w1, rel, r.PointName()) && PointStaysPut(r, w1, rel, r.PointName());
    if Holds(w1, r.disk, rel, pg[rel]) {
      assert AnchoredAs(w1, rel, r.Keep(), pg[rel]);
    }
  }

  lemma HeldIsSettled(r: RunId, w0: World, w1: World, started: set<Name>, pg: map<Name, Guid>,
                      ps: seq<Plan>, at: set<Name>, failed: set<Name>, rel: Name)
    requires RunInv(r, w0, w0.origin, started, pg) && ArePlans(r, w0.origin, DriveOf(w0, r.disk), ps)
    requires at == set p | p in ps && p.state == AtPoint :: p.rel
    requires OnlyAnchors(r, w0, w1) && Anchored(r, w1, at, failed, pg, true)
    requires rel in pg && Holds(w1, r.disk, rel, pg[rel]) && rel in w1.origin && r.PointName() in w1.origin[rel].snaps
    ensures Settled(r, w1, rel, pg)
  {
    assert AnchorsGrow(r, rel, w0.origin[rel], w1.origin[rel]);
    assert HeldOnce(r, w0, rel, started, pg) && PointOk(r, w0, rel, pg);
    var p := Plan(rel, AtPoint);
    assert p == Plan(rel, PlanState(r, w0.origin[rel], DriveOf(w0, r.disk), rel));
    assert p in ps;
    assert rel in at;
  }

  lemma PlansAtPoint(r: RunId, w: World, cached: Origin, started: set<Name>, pg: map<Name, Guid>, ps: seq<Plan>,
                     at: set<Name>)
    requires RunInv(r, w, cached, started, pg) && cached == w.origin && ArePlans(r, cached, DriveOf(w, r.disk), ps)
    requires at == set p | p in ps && p.state == AtPoint :: p.rel
    ensures forall rel :: rel in at ==> rel in pg && rel in cached && Holds(w, r.disk, rel, pg[rel])
  {
    forall rel | rel in at
      ensures rel in pg && rel in cached && Holds(w, r.disk, rel, pg[rel])
    {
      var p :| p in ps && p.state == AtPoint && p.rel == rel;
      PlannedAtPoint(r, w, cached, started, pg, rel);
    }
  }

  lemma FinishAnchored(r: RunId, w0: World, w1: World, w2: World, at: set<Name>, failed: set<Name>,
                       pg: map<Name, Guid>, calm: bool)
    requires OnlyAnchors(r, w0, w1) && OnlyAnchors(r, w1, w2) && Anchored(r, w1, at, failed, pg, calm)
    ensures OnlyAnchors(r, w0, w2) && Anchored(r, w2, at, failed, pg, calm) && DriveOf(w2, r.disk) ==
      DriveOf(w0, r.disk)
  {
    OnlyAnchorsTransitive(r, w0, w1, w2);
    AnchoredStays(r, w1, w2, at, failed, pg, calm);
  }

  ghost predicate NoneGone(r: RunId, w: World, at: set<Name>) {
    forall rel :: rel in at ==> !PointGone(r, w, rel)
  }

  lemma NoPlanGone(r: RunId, w: World, ps: seq<Plan>, at: set<Name>)
    requires Taken(r, w) && ArePlans(r, w.origin, DriveOf(w, r.disk), ps)
    requires forall rel :: rel in at ==> exists p :: p in ps && p.rel == rel
    ensures NoneGone(r, w, at)
  {
    forall rel | rel in at
      ensures !PointGone(r, w, rel)
    {
      assert HasPoint(r, w, rel);
    }
  }

  /** Every dataset whose point the drive holds is anchored, but those reported as failed, each
      of which it holds. */
  ghost predicate FailuresTold(r: RunId, w: World, pg: map<Name, Guid>, failed: set<Name>) {
    && (forall rel :: rel in failed ==> rel in pg && Holds(w, r.disk, rel, pg[rel]))
    && (forall rel :: rel in pg && Holds(w, r.disk, rel, pg[rel]) && rel !in failed ==> Settled(r, w, rel, pg))
  }

  lemma SettledTrimmed(r: RunId, w: World, w': World, rel: Name, pg: map<Name, Guid>)
    requires Settled(r, w, rel, pg) && Trimmed(r, w, w')
    ensures Settled(r, w', rel, pg)
  {
    assert TrimmedDs(r, rel, w.origin[rel], w'.origin[rel]);
  }

  lemma FailuresAreTold(r: RunId, w0: World, w1: World, w2: World, started: set<Name>, pg: map<Name, Guid>,
                        ps: seq<Plan>, at: set<Name>, failed: set<Name>, calm: bool)
    requires RunInv(r, w0, w0.origin, started, pg) && ArePlans(r, w0.origin, DriveOf(w0, r.disk), ps) && Taken(r, w0)
    requires at == set p | p in ps && p.state == AtPoint :: p.rel
    requires OnlyAnchors(r, w0, w1) && Anchored(r, w1, at, failed, pg, calm) && Trimmed(r, w1, w2)
    ensures FailuresTold(r, w2, pg, failed)
  {
    PlansAtPoint(r, w0, w0.origin, started, pg, ps, at);
    forall rel | rel in pg && Holds(w2, r.disk, rel, pg[rel]) && rel !in failed
      ensures Settled(r, w2, rel, pg)
    {
      assert HeldOnce(r, w0, rel, started, pg) && HasPoint(r, w0, rel) && PointOk(r, w0, rel, pg);
      var p := Plan(rel, AtPoint);
      assert p == Plan(rel, PlanState(r, w0.origin[rel], DriveOf(w0, r.disk), rel));
      assert p in ps && rel in at;
      SettledTrimmed(r, w1, w2, rel, pg);
    }
  }
}
