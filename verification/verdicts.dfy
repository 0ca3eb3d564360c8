/** What may go from origin after the transfers, and what carrying it out does. */
module Verdicts {
  import opened Replication
  import opened Pools
  import opened Protocol
  import opened RunState
  import opened Planning
  import opened Anchoring

  datatype Reason = NotReplicated | PartialToResume | NothingToResume | AnchoredNow | NotOnDrive
                  | MayBeBase | BaseIfIncluded | Superseded | NotVerified

  /** Whether one reference of origin may be destroyed, and why; `owner` is the
      drive a left-over point is anchored for first. */
  datatype Verdict = Verdict(rel: Name, target: RefName, drop: bool, reason: Reason, owner: Option<Disk>)

  function JudgePoint(r: RunId, origin: Origin, drive: Drive, rel: Name, n: RefName): Verdict
    requires rel in origin && n in origin[rel].snaps
  {
    var s := origin[rel].snaps[n];
    var mine := n == r.PointName();
    var onDrive := rel in drive && s.guid in drive[rel].snaps;
    if !Wanted(r, origin, rel) then
      Verdict(rel, n, true, NotReplicated, if mine then None else s.owner)
    else if rel in drive && drive[rel].token then
      Verdict(rel, n, false, PartialToResume, None)
    else if mine && !onDrive then
      Verdict(rel, n, true, NothingToResume, None)
    else if Verified(r, origin, drive, rel) then
      Verdict(rel, n, true, if !mine && !onDrive then NotOnDrive else AnchoredNow,
              if mine || s.owner == Some(r.disk) then None else s.owner)
    else
      Verdict(rel, n, false, MayBeBase, None)
  }

  function JudgeAnchor(r: RunId, origin: Origin, drive: Drive, rel: Name, n: RefName): Verdict {
    if !Wanted(r, origin, rel) && UnderAny(rel, r.skip) then Verdict(rel, n, false, BaseIfIncluded, None)
    else if Verified(r, origin, drive, rel) then Verdict(rel, n, true, Superseded, None)
    else Verdict(rel, n, false, NotVerified, None)
  }

  predicate IsOldAnchor(r: RunId, origin: Origin, rel: Name, n: RefName)
    requires rel in origin
  {
    n in AnchorGuids(origin[rel], rel) && n.Anchor? && n.disk == r.disk && n != r.Keep()
  }

  /** The candidates and their verdicts: every point, and this drive's older
      anchors; another drive's anchors are never among them. */
  predicate IsVerdict(r: RunId, origin: Origin, drive: Drive, v: Verdict) {
    && v.rel in origin
    && ((v.target.Point? && v.target in origin[v.rel].snaps && v == JudgePoint(r, origin, drive, v.rel, v.target))
        || (IsOldAnchor(r, origin, v.rel, v.target) && v == JudgeAnchor(r, origin, drive, v.rel, v.target)))
  }

  /** The verdicts are those of every candidate, and nothing else. */
  ghost predicate AreVerdicts(r: RunId, origin: Origin, drive: Drive, vs: seq<Verdict>) {
    forall v :: v in vs <==> IsVerdict(r, origin, drive, v)
  }

  ghost predicate IsPointVerdict(r: RunId, origin: Origin, drive: Drive, rel: Name, v: Verdict)
    requires rel in origin
  {
    v.target in origin[rel].snaps && v.target.Point? && v == JudgePoint(r, origin, drive, rel, v.target)
  }

  method JudgePoints(r: RunId, origin: Origin, drive: Drive, rel: Name) returns (vs: seq<Verdict>)
    requires rel in origin
    ensures forall v :: v in vs <==> IsPointVerdict(r, origin, drive, rel, v)
  {
    vs := [];
    var q := Listing(set n | n in origin[rel].snaps && n.Point?);
    for i := 0 to |q|
      invariant forall v: Verdict :: v in vs <==> v.target in q[..i] && IsPointVerdict(r, origin, drive, rel, v)
    {
      assert q[i] in q;
      vs := vs + [JudgePoint(r, origin, drive, rel, q[i])];
      TakeOne(q, i);
    }
    assert q[..|q|] == q;
  }

  ghost predicate IsAnchorVerdict(r: RunId, origin: Origin, drive: Drive, rel: Name, v: Verdict)
    requires rel in origin
  {
    IsOldAnchor(r, origin, rel, v.target) && v == JudgeAnchor(r, origin, drive, rel, v.target)
  }

  method JudgeAnchors(r: RunId, origin: Origin, drive: Drive, rel: Name) returns (vs: seq<Verdict>)
    requires rel in origin
    ensures forall v :: v in vs <==> IsAnchorVerdict(r, origin, drive, rel, v)
  {
    vs := [];
    var q := Listing(set n | n in AnchorGuids(origin[rel], rel) && IsOldAnchor(r, origin, rel, n));
    for i := 0 to |q|
      invariant forall v: Verdict :: v in vs <==> v.target in q[..i] && IsAnchorVerdict(r, origin, drive, rel, v)
    {
      assert q[i] in q;
      vs := vs + [JudgeAnchor(r, origin, drive, rel, q[i])];
      TakeOne(q, i);
    }
    assert q[..|q|] == q;
  }

  /** The verdicts on one dataset's candidates. */
  method JudgeDataset(r: RunId, origin: Origin, drive: Drive, rel: Name) returns (vs: seq<Verdict>)
    requires rel in origin
    ensures forall v :: v in vs <==> v.rel == rel && IsVerdict(r, origin, drive, v)
  {
    var points := JudgePoints(r, origin, drive, rel);
    var anchors := JudgeAnchors(r, origin, drive, rel);
    vs := points + anchors;
    assert forall v :: v in points || v in anchors ==> v.rel == rel;
    assert forall v: Verdict :: v.rel == rel && IsVerdict(r, origin, drive, v) ==> v in points || v in anchors;
  }

  // ---- what the verdicts say ---------------------------------------------------

  /** The run's new anchor of the dataset marks something the drive holds. */
  ghost predicate NewAnchorHeld(r: RunId, w: World, rel: Name) {
    exists g :: AnchoredAs(w, rel, r.Keep(), g) && Holds(w, r.disk, rel, g)
  }

  predicate OldAnchor(r: RunId, w: World, rel: Name, n: RefName) {
    rel in w.origin && n in AnchorGuids(w.origin[rel], rel) && n.Anchor? && n.disk == r.disk && n.at != r.stamp
  }

  predicate IsPoint(w: World, rel: Name, n: RefName) {
    rel in w.origin && n.Point? && n in w.origin[rel].snaps
  }

  predicate IsPartial(r: RunId, w: World, rel: Name) {
    rel in DriveOf(w, r.disk) && DriveOf(w, r.disk)[rel].token
  }

  /** A point stays where its dataset is expected and a partial receive is there, or where
      it may be the base and is not the run's own that never arrived. */
  ghost predicate PointStaysPut(r: RunId, w: World, rel: Name, n: RefName)
    requires IsPoint(w, rel, n)
  {
    && Wanted(r, w.origin, rel)
    && (IsPartial(r, w, rel)
        || (!NewAnchorHeld(r, w, rel)
            && (n.stamp == r.stamp ==> Holds(w, r.disk, rel, w.origin[rel].snaps[n].guid))))
  }

  /** The point names a drive that gets its anchor first. */
  predicate IsForAnother(r: RunId, w: World, rel: Name, n: RefName)
    requires IsPoint(w, rel, n)
  {
    var owner := w.origin[rel].snaps[n].owner;
    n.stamp != r.stamp && owner.Some? && (Wanted(r, w.origin, rel) ==> owner.value != r.disk)
  }

  lemma HeldIsVerified(r: RunId, w: World, rel: Name)
    ensures NewAnchorHeld(r, w, rel) <==> Verified(r, w.origin, DriveOf(w, r.disk), rel)
  {
    if Verified(r, w.origin, DriveOf(w, r.disk), rel) {
      assert AnchoredAs(w, rel, r.Keep(), AnchorGuids(w.origin[rel], rel)[r.Keep()]);
    }
  }

  /** There is one verdict on every point and every old anchor of the drive, and on nothing
      else. */
  lemma WhatIsJudged(r: RunId, w: World, vs: seq<Verdict>, rel: Name, n: RefName)
    requires AreVerdicts(r, w.origin, DriveOf(w, r.disk), vs)
    ensures (exists v :: v in vs && v.rel == rel && v.target == n) <==> IsPoint(w, rel, n) || OldAnchor(r, w, rel, n)
    ensures forall u, v :: u in vs && v in vs && u.rel == v.rel && u.target == v.target ==> u == v
  {
    if IsPoint(w, rel, n) {
      assert IsVerdict(r, w.origin, DriveOf(w, r.disk), JudgePoint(r, w.origin, DriveOf(w, r.disk), rel, n));
    } else if OldAnchor(r, w, rel, n) {
      assert IsVerdict(r, w.origin, DriveOf(w, r.disk), JudgeAnchor(r, w.origin, DriveOf(w, r.disk), rel, n));
    }
  }

  /** An old anchor is condemned exactly when the new one marks what the drive holds, and no
      backup leaves the dataset out. */
  lemma AnchorsJudged(r: RunId, w: World, vs: seq<Verdict>, v: Verdict)
    requires AreVerdicts(r, w.origin, DriveOf(w, r.disk), vs) && v in vs && !v.target.Point?
    ensures v.drop <==> NewAnchorHeld(r, w, v.rel) && !UnderAny(v.rel, r.skip)
    ensures v.owner.None?
    ensures v.reason == BaseIfIncluded <==> UnderAny(v.rel, r.skip)
    ensures v.reason == Superseded <==> v.drop
    ensures v.reason == NotVerified <==> !NewAnchorHeld(r, w, v.rel) && !UnderAny(v.rel, r.skip)
  {
    HeldIsVerified(r, w, v.rel);
  }

  /** Which points are condemned, which for another drive first, and why. */
  lemma PointsJudged(r: RunId, w: World, vs: seq<Verdict>, v: Verdict)
    requires AreVerdicts(r, w.origin, DriveOf(w, r.disk), vs) && v in vs && v.target.Point?
    ensures IsPoint(w, v.rel, v.target) && (v.drop <==> !PointStaysPut(r, w, v.rel, v.target))
    ensures v.owner ==
      if v.drop && IsForAnother(r, w, v.rel, v.target) then w.origin[v.rel].snaps[v.target].owner else None
    ensures v.reason == NotReplicated <==> !Wanted(r, w.origin, v.rel)
    ensures v.reason == PartialToResume <==> !v.drop && IsPartial(r, w, v.rel)
    ensures v.reason == MayBeBase <==> !v.drop && !IsPartial(r, w, v.rel)
    ensures v.reason == NothingToResume <==>
      && v.drop && Wanted(r, w.origin, v.rel) && v.target.stamp == r.stamp
      && !Holds(w, r.disk, v.rel, w.origin[v.rel].snaps[v.target].guid)
    ensures v.reason == NotOnDrive <==>
      && v.drop && Wanted(r, w.origin, v.rel) && v.target.stamp != r.stamp
      && !Holds(w, r.disk, v.rel, w.origin[v.rel].snaps[v.target].guid)
    ensures v.reason == AnchoredNow <==>
      && v.drop && Wanted(r, w.origin, v.rel)
      && Holds(w, r.disk, v.rel, w.origin[v.rel].snaps[v.target].guid)
  {
    HeldIsVerified(r, w, v.rel);
  }

  /** What dropping leaves alone while it goes on: the drives, every point that
      is still there, and the run's own new anchors. */
  ghost predicate Trimmed(r: RunId, w: World, w': World) {
    && w'.drives == w.drives && w'.origin.Keys == w.origin.Keys
    && forall rel {:trigger TrimmedDs(r, rel, w.origin[rel], w'.origin[rel])} ::
         rel in w.origin ==> TrimmedDs(r, rel, w.origin[rel], w'.origin[rel])
  }

  ghost predicate TrimmedDs(r: RunId, rel: Name, o: OriginDs, o': OriginDs) {
    && o'.kind == o.kind
    && (forall n :: n in o'.snaps && n.Point? ==> n in o.snaps && o'.snaps[n] == o.snaps[n])
    && (r.Keep() in AnchorGuids(o, rel) ==>
          r.Keep() in AnchorGuids(o', rel) && AnchorGuids(o', rel)[r.Keep()] == AnchorGuids(o, rel)[r.Keep()])
  }

  lemma TrimmedTransitive(r: RunId, w: World, w1: World, w2: World)
    requires Trimmed(r, w, w1) && Trimmed(r, w1, w2)
    ensures Trimmed(r, w, w2)
  {
    forall rel | rel in w.origin
      ensures TrimmedDs(r, rel, w.origin[rel], w2.origin[rel])
    {
      assert TrimmedDs(r, rel, w.origin[rel], w1.origin[rel]);
      assert TrimmedDs(r, rel, w1.origin[rel], w2.origin[rel]);
    }
  }

  /** A verdict still holds after other verdicts were carried out: what it
      condemns may go, once the drive it names has its anchor. */
  lemma VerdictStands(r: RunId, w0: World, w: World, v: Verdict, pg: map<Name, Guid>)
    requires IsVerdict(r, w0.origin, DriveOf(w0, r.disk), v) && v.drop && Trimmed(r, w0, w)
    requires forall rel :: rel in w0.origin ==> PointOk(r, w0, rel, pg)
    requires forall rel :: rel in pg ==> Wanted(r, w0.origin, rel)
    ensures v.rel in w.origin && v.target != r.Keep()
    ensures v.owner.Some? ==> v.target.Point? && v.target != r.PointName()
    ensures v.owner.Some? && Wanted(r, w0.origin, v.rel) ==> v.owner.value != r.disk
    ensures v.target.Point? && v.target in w.origin[v.rel].snaps ==>
      var s := w.origin[v.rel].snaps[v.target];
      && (v.owner.Some? ==> s.owner == v.owner)
      && (v.owner.None? || HasAnchor(w, v.rel, v.owner.value, s.guid) ==> PointMayGo(r, w, v.rel, v.target))
    ensures !v.target.Point? ==> v.owner.None? && AnchorMayGo(r, w, v.rel, v.target)
  {
    var rel := v.rel;
    assert TrimmedDs(r, rel, w0.origin[rel], w.origin[rel]);
    assert PointOk(r, w0, rel, pg);
    assert Verified(r, w0.origin, DriveOf(w0, r.disk), rel) ==> Verified(r, w.origin, DriveOf(w, r.disk), rel);
  }

  predicate Condemned(vs: seq<Verdict>, rel: Name, n: RefName) {
    exists v :: v in vs && v.drop && v.rel == rel && v.target == n
  }

  ghost predicate KeptRef(o: OriginDs, o': OriginDs, n: RefName) {
    && (n in o.snaps ==> n in o'.snaps && o'.snaps[n] == o.snaps[n])
    && (n in o.bookmarks ==> n in o'.bookmarks && o'.bookmarks[n] == o.bookmarks[n])
  }

  /** Refused candidates, and everything that is no candidate, stay. */
  ghost predicate Spared(w: World, w': World, vs: seq<Verdict>) {
    && w'.origin.Keys == w.origin.Keys
    && forall rel, n :: rel in w.origin && !Condemned(vs, rel, n) ==> KeptRef(w.origin[rel], w'.origin[rel], n)
  }

  predicate IsOwnersAnchor(v: Verdict, n: RefName) {
    v.owner.Some? && v.target.Point? && n == Anchor(v.owner.value, v.target.stamp)
  }

  /** Carrying out one verdict takes at most its target, and adds at most the
      anchor of the drive the target names. */
  ghost predicate OnlyTarget(w: World, w': World, v: Verdict) {
    && w'.origin.Keys == w.origin.Keys && v.rel in w.origin
    && TargetTaken(w.origin[v.rel], w'.origin[v.rel], v)
    && forall rel :: rel in w.origin && rel != v.rel ==> w'.origin[rel] == w.origin[rel]
  }

  ghost predicate TargetTaken(o: OriginDs, o': OriginDs, v: Verdict) {
    && (forall n :: n != v.target ==> KeptRef(o, o', n))
    && (forall n :: n in o'.snaps ==> n in o.snaps || IsOwnersAnchor(v, n))
    && (forall n :: n in o'.bookmarks ==> n in o.bookmarks || IsOwnersAnchor(v, n))
  }

  predicate TargetGone(w: World, v: Verdict) {
    && v.rel in w.origin
    && (if v.target.Point? || IsBpool(v.rel) then v.target !in w.origin[v.rel].snaps
        else v.target !in w.origin[v.rel].bookmarks)
  }

  lemma AnchoredForOwner(w: World, w': World, v: Verdict)
    requires v.target.Point? && v.owner.Some? && AnchorDone(w, w', v.rel, v.target.stamp, v.owner.value)
    requires v.target in w'.origin[v.rel].snaps ==> w'.origin[v.rel].snaps[v.target] == w.origin[v.rel].snaps[v.target]
    ensures v.target in w'.origin[v.rel].snaps ==>
      HasAnchor(w', v.rel, v.owner.value, w'.origin[v.rel].snaps[v.target].guid)
  {
    assert HasAnchor(w', v.rel, v.owner.value, w.origin[v.rel].snaps[v.target].guid);
  }

  lemma ReleaseAnchors(r: RunId, w: World, w': World, v: Verdict)
    requires v.rel in w.origin && v.target.Point? && v.target != r.PointName() && v.owner.Some?
    requires var c := AnchorCmd(v.rel, v.target.stamp, v.owner.value); w' == w || (Accepted(w, c) && w' == Apply(w, c))
    ensures Trimmed(r, w, w') && OnlyTarget(w, w', v)
  {
    if w' != w {
      var o, o' := w.origin[v.rel], w'.origin[v.rel];
      var a := Anchor(v.owner.value, v.target.stamp);
      assert a != r.Keep();
      assert IsOwnersAnchor(v, a);
      assert forall n :: n != v.target ==> KeptRef(o, o', n);
      assert TrimmedDs(r, v.rel, o, o');
    }
  }

  lemma TargetDestroyed(r: RunId, w: World, w': World, v: Verdict)
    requires v.rel in w.origin && v.target != r.Keep()
    requires || w' == w
             || (Accepted(w, DestroySnap(v.rel, v.target)) && w' == Apply(w, DestroySnap(v.rel, v.target)))
             || (Accepted(w, DestroyBookmark(v.rel, v.target)) && w' == Apply(w, DestroyBookmark(v.rel, v.target)))
    ensures Trimmed(r, w, w') && OnlyTarget(w, w', v)
  {
  }

  lemma OnlyTargetTransitive(w: World, w1: World, w2: World, v: Verdict)
    requires OnlyTarget(w, w1, v) && OnlyTarget(w1, w2, v)
    ensures OnlyTarget(w, w2, v)
  {
    forall n | n != v.target
      ensures KeptRef(w.origin[v.rel], w2.origin[v.rel], n)
    {
      assert KeptRef(w.origin[v.rel], w1.origin[v.rel], n);
      assert KeptRef(w1.origin[v.rel], w2.origin[v.rel], n);
    }
  }

  // ---- points of other drives ----------------------------------------------------

  predicate IsRelease(v: Verdict) {
    v.drop && v.owner.Some? && v.target.Point?
  }

  /** The point can be made the anchor of the drive it names. */
  predicate CanRelease(w: World, v: Verdict)
    requires IsRelease(v)
  {
    Anchorable(w, v.rel, v.target.stamp, v.owner.value)
  }

  /** What carrying out such a verdict did: the point goes only if it could be released, and
      without spurious failures then it does; left, it can be released as before. */
  predicate Carried(w: World, w': World, v: Verdict, calm: bool) {
    IsRelease(v) ==>
      && (TargetGone(w', v) ==> TargetGone(w, v) || CanRelease(w, v))
      && (!TargetGone(w', v) ==> (CanRelease(w', v) <==> CanRelease(w, v)))
      && (calm && CanRelease(w, v) ==> TargetGone(w', v))
  }

  lemma AnchorCarried(w: World, w': World, v: Verdict)
    requires IsRelease(v) && v.rel in w.origin
    requires var c := AnchorCmd(v.rel, v.target.stamp, v.owner.value); w' == w || (Accepted(w, c) && w' == Apply(w, c))
    ensures Carried(w, w', v, false)
  {
  }

  /** So far only points went that could be released when they were judged, and what is left
      can be released exactly if it could then. */
  ghost predicate ReleasedSoFar(w0: World, w: World, vs: seq<Verdict>) {
    forall v {:trigger IsRelease(v)} :: v in vs && IsRelease(v) ==>
      if TargetGone(w, v) then CanRelease(w0, v) else CanRelease(w, v) <==> CanRelease(w0, v)
  }

  /** A verdict leaves every other drive's point as it is, but its own. */
  lemma OtherRelease(r: RunId, w0: World, w: World, w': World, v: Verdict, u: Verdict)
    requires IsVerdict(r, w0.origin, DriveOf(w0, r.disk), v) && IsVerdict(r, w0.origin, DriveOf(w0, r.disk), u)
    requires v.drop && IsRelease(u) && OnlyTarget(w, w', v) && KeepIsNewest(r, w0, u.rel) && u != v && u.rel in w.origin
    ensures TargetGone(w', u) <==> TargetGone(w, u)
    ensures !TargetGone(w, u) && Trimmed(r, w, w') ==> (CanRelease(w', u) <==> CanRelease(w, u))
  {
    if u.rel == v.rel {
      var o, o', a := w.origin[u.rel], w'.origin[u.rel], Anchor(u.owner.value, u.target.stamp);
      assert v.target != a && v.target != u.target;
      assert KeptRef(o, o', a) && KeptRef(o, o', u.target);
      assert !IsOwnersAnchor(v, a);
    }
  }

  lemma ReleasesOne(r: RunId, w0: World, w: World, w': World, vs: seq<Verdict>, v: Verdict, calm: bool)
    requires ReleasedSoFar(w0, w, vs) && v in vs && v.drop && Trimmed(r, w, w') && OnlyTarget(w, w', v)
    requires forall u :: u in vs ==> IsVerdict(r, w0.origin, DriveOf(w0, r.disk), u)
    requires KeepsOk(r, w0) && w.origin.Keys == w0.origin.Keys && Carried(w, w', v, calm)
    ensures ReleasedSoFar(w0, w', vs)
    ensures calm && IsRelease(v) ==> (TargetGone(w', v) <==> CanRelease(w0, v))
    ensures forall u :: u in vs && IsRelease(u) && TargetGone(w, u) ==> TargetGone(w', u)
  {
    forall u | u in vs && IsRelease(u)
      ensures if TargetGone(w', u) then CanRelease(w0, u) else CanRelease(w', u) <==> CanRelease(w0, u)
      ensures TargetGone(w, u) ==> TargetGone(w', u)
    {
      if u != v {
        assert KeepIsNewest(r, w0, u.rel);
        OtherRelease(r, w0, w, w', v, u);
      } else {
        assert TrimmedDs(r, v.rel, w.origin[v.rel], w'.origin[v.rel]);
      }
    }
  }

  /** How far the drop got: what is spared stays, and without spurious failures what was
      condemned outright is gone, and another drive's point if it could be released. */
  ghost predicate DropLoop(r: RunId, w0: World, w: World, vs: seq<Verdict>, i: nat, calm: bool) {
    && Trimmed(r, w0, w) && Spared(w0, w, vs) && ReleasedSoFar(w0, w, vs)
    && (calm ==> forall j :: 0 <= j < i && j < |vs| && Outright(r, w0, vs[j]) ==> TargetGone(w, vs[j]))
    && (calm ==> forall j :: 0 <= j < i && j < |vs| && IsRelease(vs[j]) && CanRelease(w0, vs[j]) ==>
          TargetGone(w, vs[j]))
  }

  predicate Outright(r: RunId, w0: World, v: Verdict) {
    v.drop && v.owner.None? && (v.target.Point? || Wanted(r, w0.origin, v.rel))
  }

  lemma DropLoopStep(r: RunId, w0: World, w: World, w': World, vs: seq<Verdict>, i: nat, calm: bool)
    requires DropLoop(r, w0, w, vs, i, calm) && i < |vs| && vs[i].drop
    requires Trimmed(r, w, w') && OnlyTarget(w, w', vs[i])
    requires forall v :: v in vs ==> IsVerdict(r, w0.origin, DriveOf(w0, r.disk), v)
    requires (calm && vs[i].owner.None? ==> TargetGone(w', vs[i])) && Carried(w, w', vs[i], calm) && KeepsOk(r, w0)
    ensures DropLoop(r, w0, w', vs, i + 1, calm)
  {
    TrimmedTransitive(r, w0, w, w');
    var v := vs[i];
    assert v in vs;
    ReleasesOne(r, w0, w, w', vs, v, calm);
    forall rel, n | rel in w0.origin && !Condemned(vs, rel, n)
      ensures KeptRef(w0.origin[rel], w'.origin[rel], n)
    {
      assert KeptRef(w0.origin[rel], w.origin[rel], n);
      if rel == v.rel {
        assert n != v.target;
        assert KeptRef(w.origin[rel], w'.origin[rel], n);
      }
    }
    if calm {
      forall j | 0 <= j < i && Outright(r, w0, vs[j])
        ensures TargetGone(w', vs[j])
      {
        assert vs[j] in vs && TargetGone(w, vs[j]);
        StaysGone(r, w0, w, w', v, vs[j]);
      }
    }
  }

  /** A later verdict never brings back what an earlier one took. */
  lemma StaysGone(r: RunId, w0: World, w: World, w': World, v: Verdict, u: Verdict)
    requires Trimmed(r, w, w') && OnlyTarget(w, w', v) && TargetGone(w, u) && Outright(r, w0, u)
    requires IsVerdict(r, w0.origin, DriveOf(w0, r.disk), v) && IsVerdict(r, w0.origin, DriveOf(w0, r.disk), u)
    ensures TargetGone(w', u)
  {
    if u.rel == v.rel && !u.target.Point? {
      assert v.owner.Some? ==> v.owner.value != r.disk;
    } else if u.rel in w.origin {
      assert TrimmedDs(r, u.rel, w.origin[u.rel], w'.origin[u.rel]);
    }
  }

  // ---- what a drop leaves ---------------------------------------------------------

  predicate RefHere(w: World, rel: Name, n: RefName) {
    rel in w.origin && (n in w.origin[rel].snaps || n in w.origin[rel].bookmarks)
  }

  /** What a drop that meets no random failure takes from origin, and what it leaves:
      superseded anchors go, points go unless they stay put or their drive cannot get its
      anchor, and nothing else goes. */
  ghost predicate DropsExactly(r: RunId, w: World, w': World) {
    && w'.drives == w.drives && w'.origin.Keys == w.origin.Keys
    && (forall rel, n :: OldAnchor(r, w, rel, n) ==>
          (n !in AnchorGuids(w'.origin[rel], rel) <==> NewAnchorHeld(r, w, rel) && !UnderAny(rel, r.skip)))
    && (forall rel, n :: IsPoint(w, rel, n) ==> (n !in w'.origin[rel].snaps <==> PointGoes(r, w, rel, n)))
    && (forall rel, n :: IsPoint(w, rel, n) && n in w'.origin[rel].snaps ==>
          w'.origin[rel].snaps[n] == w.origin[rel].snaps[n])
    && (forall rel, n :: RefHere(w, rel, n) && !IsPoint(w, rel, n) && !OldAnchor(r, w, rel, n) ==>
          KeptRef(w.origin[rel], w'.origin[rel], n))
  }

  ghost predicate PointGoes(r: RunId, w: World, rel: Name, n: RefName)
    requires IsPoint(w, rel, n)
  {
    && !PointStaysPut(r, w, rel, n)
    && (IsForAnother(r, w, rel, n) ==> Anchorable(w, rel, n.stamp, w.origin[rel].snaps[n].owner.value))
  }

  /** Every verdict carried out as far as it can be. */
  ghost predicate AllCarried(r: RunId, w: World, w': World, vs: seq<Verdict>) {
    && Trimmed(r, w, w') && Spared(w, w', vs)
    && (forall v :: v in vs && Outright(r, w, v) ==> TargetGone(w', v))
    && (forall v :: v in vs && IsRelease(v) ==> (TargetGone(w', v) <==> CanRelease(w, v)))
  }

  lemma AnchorDropped(r: RunId, w: World, w': World, vs: seq<Verdict>, rel: Name, n: RefName)
    requires AreVerdicts(r, w.origin, DriveOf(w, r.disk), vs) && AllCarried(r, w, w', vs) && KeepsOk(r, w)
    requires OldAnchor(r, w, rel, n)
    ensures n !in AnchorGuids(w'.origin[rel], rel) <==> NewAnchorHeld(r, w, rel) && !UnderAny(rel, r.skip)
  {
    WhatIsJudged(r, w, vs, rel, n);
    var v :| v in vs && v.rel == rel && v.target == n;
    AnchorsJudged(r, w, vs, v);
    HeldIsVerified(r, w, rel);
    assert KeepIsNewest(r, w, rel);
    if v.drop {
      assert Outright(r, w, v) && TargetGone(w', v);
    } else {
      assert !Condemned(vs, rel, n);
      assert KeptRef(w.origin[rel], w'.origin[rel], n);
    }
  }

  lemma PointDropped(r: RunId, w: World, w': World, vs: seq<Verdict>, rel: Name, n: RefName)
    requires AreVerdicts(r, w.origin, DriveOf(w, r.disk), vs) && AllCarried(r, w, w', vs)
    requires IsPoint(w, rel, n)
    ensures rel in w'.origin && (n !in w'.origin[rel].snaps <==> PointGoes(r, w, rel, n))
    ensures n in w'.origin[rel].snaps ==> w'.origin[rel].snaps[n] == w.origin[rel].snaps[n]
  {
    WhatIsJudged(r, w, vs, rel, n);
    var v :| v in vs && v.rel == rel && v.target == n;
    PointsJudged(r, w, vs, v);
    assert TrimmedDs(r, rel, w.origin[rel], w'.origin[rel]);
    if !v.drop {
      assert !Condemned(vs, rel, n);
      assert KeptRef(w.origin[rel], w'.origin[rel], n);
    } else if v.owner.None? {
      assert Outright(r, w, v) && TargetGone(w', v);
    } else {
      assert IsRelease(v);
    }
  }

  lemma DropEffect(r: RunId, w: World, w': World, vs: seq<Verdict>)
    requires AreVerdicts(r, w.origin, DriveOf(w, r.disk), vs) && AllCarried(r, w, w', vs) && KeepsOk(r, w)
    ensures DropsExactly(r, w, w')
  {
    forall rel, n | OldAnchor(r, w, rel, n)
      ensures n !in AnchorGuids(w'.origin[rel], rel) <==> NewAnchorHeld(r, w, rel) && !UnderAny(rel, r.skip)
    {
      AnchorDropped(r, w, w', vs, rel, n);
    }
    forall rel, n | IsPoint(w, rel, n)
      ensures n !in w'.origin[rel].snaps <==> PointGoes(r, w, rel, n)
      ensures n in w'.origin[rel].snaps ==> w'.origin[rel].snaps[n] == w.origin[rel].snaps[n]
    {
      PointDropped(r, w, w', vs, rel, n);
    }
    forall rel, n | RefHere(w, rel, n) && !IsPoint(w, rel, n) && !OldAnchor(r, w, rel, n)
      ensures KeptRef(w.origin[rel], w'.origin[rel], n)
    {
      WhatIsJudged(r, w, vs, rel, n);
      assert !Condemned(vs, rel, n);
    }
  }
}
