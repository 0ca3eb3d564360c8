/** Why a run needs a second of its own. Nothing here assumes that it has one: what an
    undo and a drop take of the points named after the run's second, whoever left them,
    and exactly when another drive loses one by it. */
module Collisions {
  import opened Replication
  import opened Pools
  import opened Protocol
  import opened RunState
  import opened Anchoring
  import opened Verdicts
  import opened Undoing

  predicate HasNamed(r: RunId, w: World, rel: Name) {
    rel in w.origin && r.PointName() in w.origin[rel].snaps
  }

  function NamedSnap(r: RunId, w: World, rel: Name): Snap
    requires HasNamed(r, w, rel)
  {
    w.origin[rel].snaps[r.PointName()]
  }

  /** The point is this drive's, no drive's, or its drive has the anchor. */
  ghost predicate MayBeTaken(r: RunId, w: World, rel: Name)
    requires HasNamed(r, w, rel)
  {
    var s := NamedSnap(r, w, rel);
    s.owner.Some? && s.owner.value != r.disk ==> HasAnchor(w, rel, s.owner.value, s.guid)
  }

  /** Another drive's point went, and that drive has no anchor of it. */
  ghost predicate IsLost(r: RunId, w: World, w': World, rel: Name)
    requires HasNamed(r, w, rel)
  {
    var s := NamedSnap(r, w, rel);
    && !HasNamed(r, w', rel) && s.owner.Some? && s.owner.value != r.disk
    && !HasAnchor(w', rel, s.owner.value, s.guid)
  }

  // ---- dropping -----------------------------------------------------------------

  /** Which points named after the run a drop condemns: all on datasets that are not
      expected; on an expected one, where nothing is partial, what the drive lacks or
      has an anchor of. It takes each for the run's own, so none is released first. */
  lemma DropTakes(r: RunId, w: World, rel: Name)
    requires HasNamed(r, w, rel)
    ensures var v := JudgePoint(r, w.origin, DriveOf(w, r.disk), rel, r.PointName());
      && v.owner.None?
      && (v.drop <==> || !Wanted(r, w.origin, rel)
                      || (!IsPartial(r, w, rel) && (!Holds(w, r.disk, rel, NamedSnap(r, w, rel).guid)
                                                    || Verified(r, w.origin, DriveOf(w, r.disk), rel))))
  {
  }

  /** What a drop does to such a point. */
  function Dropped(r: RunId, w: World, rel: Name): World {
    if HasNamed(r, w, rel) && JudgePoint(r, w.origin, DriveOf(w, r.disk), rel, r.PointName()).drop
    then Apply(w, DestroySnap(rel, r.PointName())) else w
  }

  /** The run may issue the destroy exactly when the point may be taken, and a point is
      lost exactly when it is taken and may not be. */
  lemma DropLoses(r: RunId, w: World, rel: Name)
    requires HasNamed(r, w, rel)
    ensures var drop := JudgePoint(r, w.origin, DriveOf(w, r.disk), rel, r.PointName()).drop;
      && (drop ==> (PointMayGo(r, w, rel, r.PointName()) <==> MayBeTaken(r, w, rel)))
      && (IsLost(r, w, Dropped(r, w, rel), rel) <==> drop && !MayBeTaken(r, w, rel))
  {
    var w' := Dropped(r, w, rel);
    var s := NamedSnap(r, w, rel);
    if s.owner.Some? {
      SameAnchors(w, w', rel, s.owner.value, s.guid);
    }
  }

  lemma SameAnchors(w: World, w': World, rel: Name, disk: Disk, g: Guid)
    requires rel in w.origin && rel in w'.origin
    requires forall at: nat :: AnchoredAs(w, rel, Anchor(disk, at), g) <==> AnchoredAs(w', rel, Anchor(disk, at), g)
    ensures HasAnchor(w, rel, disk, g) <==> HasAnchor(w', rel, disk, g)
  {
    if at: nat :| AnchoredAs(w, rel, Anchor(disk, at), g) {
      assert AnchoredAs(w', rel, Anchor(disk, at), g);
    }
    if at: nat :| AnchoredAs(w', rel, Anchor(disk, at), g) {
      assert AnchoredAs(w, rel, Anchor(disk, at), g);
    }
  }

  lemma SameLoss(r: RunId, w: World, w1: World, w2: World, rel: Name)
    requires HasNamed(r, w, rel) && rel in w1.origin && rel in w2.origin && w1.origin[rel] == w2.origin[rel]
    ensures IsLost(r, w, w1, rel) <==> IsLost(r, w, w2, rel)
  {
    var s := NamedSnap(r, w, rel);
    if s.owner.Some? {
      SameAnchors(w1, w2, rel, s.owner.value, s.guid);
    }
  }

  ghost predicate DroppedTo(r: RunId, w: World, w': World, done: seq<Name>) {
    && w'.drives == w.drives && w'.origin.Keys == w.origin.Keys
    && forall rel :: rel in w.origin ==>
         (w'.origin[rel] == if rel in done then Dropped(r, w, rel).origin[rel] else w.origin[rel])
  }

  predicate DropsNamed(r: RunId, w: World, rel: Name) {
    HasNamed(r, w, rel) && JudgePoint(r, w.origin, DriveOf(w, r.disk), rel, r.PointName()).drop
  }

  method DropOne(r: RunId, w: World, now: World, rel: Name) returns (w': World)
    requires rel in w.origin && rel in now.origin && now.origin[rel] == w.origin[rel]
    ensures w' == SetOrigin(now, rel, Dropped(r, w, rel).origin[rel])
  {
    w' := now;
    if DropsNamed(r, w, rel) {
      w' := Apply(now, DestroySnap(rel, r.PointName()));
    }
    assert now.origin[rel := now.origin[rel]] == now.origin;
  }

  lemma DroppedLoses(r: RunId, w: World, w': World, rel: Name)
    requires HasNamed(r, w, rel) && rel in w'.origin && w'.origin[rel] == Dropped(r, w, rel).origin[rel]
    ensures HasNamed(r, w', rel) <==> !DropsNamed(r, w, rel)
    ensures IsLost(r, w, w', rel) <==> DropsNamed(r, w, rel) && !MayBeTaken(r, w, rel)
  {
    SameLoss(r, w, Dropped(r, w, rel), w', rel);
    DropLoses(r, w, rel);
  }

  /** The drop of every point so named, each judged before the first goes: another drive loses
      one exactly where it is taken and may not be. */
  method DropNamed(r: RunId, w: World) returns (w': World)
    ensures w'.drives == w.drives && w'.origin.Keys == w.origin.Keys
    ensures forall rel :: HasNamed(r, w, rel) ==>
      && (HasNamed(r, w', rel) <==> !DropsNamed(r, w, rel))
      && (IsLost(r, w, w', rel) <==> DropsNamed(r, w, rel) && !MayBeTaken(r, w, rel))
  {
    var q := Listing(w.origin.Keys);
    w' := w;
    for i := 0 to |q|
      invariant DroppedTo(r, w, w', q[..i])
    {
      assert q[i] in q && q[i] !in q[..i];
      TakeOne(q, i);
      w' := DropOne(r, w, w', q[i]);
    }
    assert q[..|q|] == q;
    forall rel | HasNamed(r, w, rel)
      ensures HasNamed(r, w', rel) <==> !DropsNamed(r, w, rel)
      ensures IsLost(r, w, w', rel) <==> DropsNamed(r, w, rel) && !MayBeTaken(r, w, rel)
    {
      DroppedLoses(r, w, w', rel);
    }
  }

  // ---- undoing ------------------------------------------------------------------

  predicate IsHeld(r: RunId, w: World, rel: Name) {
    IsAtPoint(r, w.origin, DriveOf(w, r.disk), rel)
  }

  /** Which points an undo takes whose read of origin is up to date, as after a point that
      could not be taken: every expected dataset's, but where a partial receive needs it
      or the drive holds it and it cannot be anchored. */
  predicate UndoTakes(r: RunId, w: World, rel: Name) {
    && HasNamed(r, w, rel) && Wanted(r, w.origin, rel) && !IsPartial(r, w, rel)
    && (IsHeld(r, w, rel) ==> Anchorable(w, rel, r.stamp, r.disk))
  }

  /** Origin once what the drive holds was anchored for it. */
  function HeldAnchored(r: RunId, w: World, rel: Name): World {
    var c := AnchorCmd(rel, r.stamp, r.disk);
    if IsHeld(r, w, rel) && Accepted(w, c) then Apply(w, c) else w
  }

  /** What an undo does to one dataset: anchored if held (on bpool that is the rename), then
      destroyed. */
  function Undone(r: RunId, w: World, rel: Name): World {
    if !UndoTakes(r, w, rel) then w
    else
      var w1 := HeldAnchored(r, w, rel);
      if Accepted(w1, DestroySnap(rel, r.PointName())) then Apply(w1, DestroySnap(rel, r.PointName())) else w1
  }

  lemma UndoneTakes(r: RunId, w: World, rel: Name)
    requires HasNamed(r, w, rel)
    ensures HasNamed(r, Undone(r, w, rel), rel) <==> !UndoTakes(r, w, rel)
  {
  }

  /** A held point of another drive is anchored for the wrong one, which is no help to its
      own; so a point is lost exactly when it is taken and may not be, held or not. */
  lemma UndoLoses(r: RunId, w: World, rel: Name)
    requires HasNamed(r, w, rel)
    ensures IsLost(r, w, Undone(r, w, rel), rel) <==> UndoTakes(r, w, rel) && !MayBeTaken(r, w, rel)
  {
    var w' := Undone(r, w, rel);
    var s := NamedSnap(r, w, rel);
    UndoneTakes(r, w, rel);
    if s.owner.Some? && s.owner.value != r.disk {
      forall at: nat
        ensures AnchoredAs(w, rel, Anchor(s.owner.value, at), s.guid) <==>
          AnchoredAs(w', rel, Anchor(s.owner.value, at), s.guid)
      {
        assert Anchor(s.owner.value, at) != r.Keep();
      }
      SameAnchors(w, w', rel, s.owner.value, s.guid);
    }
  }

  /** And the destroy is one the run may issue, when its turn comes, exactly when the point
      may be taken. */
  lemma UndoMayGo(r: RunId, w: World, rel: Name)
    requires UndoTakes(r, w, rel) && HasNamed(r, HeldAnchored(r, w, rel), rel)
    ensures PointMayGo(r, HeldAnchored(r, w, rel), rel, r.PointName()) <==> MayBeTaken(r, w, rel)
  {
    var w1 := HeldAnchored(r, w, rel);
    var s := NamedSnap(r, w, rel);
    if s.owner.Some? && s.owner.value != r.disk {
      forall at: nat
        ensures AnchoredAs(w, rel, Anchor(s.owner.value, at), s.guid) <==>
          AnchoredAs(w1, rel, Anchor(s.owner.value, at), s.guid)
      {
        assert Anchor(s.owner.value, at) != r.Keep();
      }
      SameAnchors(w, w1, rel, s.owner.value, s.guid);
    }
    assert IsHeld(r, w, rel) ==> Verified(r, w1.origin, DriveOf(w1, r.disk), rel);
  }

  // ---- the undo, one command after another --------------------------------------

  function HeldDs(r: RunId, w: World, rel: Name): OriginDs
    requires rel in w.origin
  {
    HeldAnchored(r, w, rel).origin[rel]
  }

  function UndoneDs(r: RunId, w: World, rel: Name): OriginDs
    requires rel in w.origin
  {
    Undone(r, w, rel).origin[rel]
  }

  /** The point stays: a partial receive needs it, or it is held and cannot be anchored. */
  predicate IsKept(r: RunId, w: World, rel: Name) {
    IsPartial(r, w, rel) || (IsHeld(r, w, rel) && !Anchorable(w, rel, r.stamp, r.disk))
  }

  ghost predicate AnchoredTo(r: RunId, w: World, w': World, done: seq<Name>, kept: set<Name>) {
    && w'.drives == w.drives && w'.origin.Keys == w.origin.Keys
    && (forall rel :: rel in w.origin ==> w'.origin[rel] == if rel in done then HeldDs(r, w, rel) else w.origin[rel])
    && (forall rel :: rel in kept <==> rel in done && IsKept(r, w, rel))
  }

  /** One dataset's point anchored if the drive holds it. */
  method AnchorOne(r: RunId, w: World, now: World, rel: Name) returns (w': World, stays: bool)
    requires rel in w.origin && rel in now.origin && now.origin[rel] == w.origin[rel]
    ensures w' == SetOrigin(now, rel, HeldDs(r, w, rel)) && stays == IsKept(r, w, rel)
  {
    w', stays := now, IsPartial(r, w, rel);
    if !stays && IsHeld(r, w, rel) {
      var c := AnchorCmd(rel, r.stamp, r.disk);
      if Accepted(now, c) {
        w' := Apply(now, c);
      } else {
        stays := !Anchorable(now, rel, r.stamp, r.disk);
      }
    }
    assert now.origin[rel := now.origin[rel]] == now.origin;
  }

  /** What the drive holds is anchored for it, and what must stay noted. */
  method UndoAnchoring(r: RunId, w: World, q: seq<Name>) returns (w': World, kept: set<Name>)
    requires AllDifferent(q) && forall rel :: rel in q ==> rel in w.origin
    ensures AnchoredTo(r, w, w', q, kept)
  {
    w', kept := w, {};
    for i := 0 to |q|
      invariant AnchoredTo(r, w, w', q[..i], kept)
    {
      assert q[i] in q && q[i] !in q[..i];
      TakeOne(q, i);
      var stays: bool;
      w', stays := AnchorOne(r, w, w', q[i]);
      kept := if stays then kept + {q[i]} else kept;
    }
    assert q[..|q|] == q;
  }

  ghost predicate UndoneTo(r: RunId, w: World, w': World, q: seq<Name>, done: seq<Name>) {
    && w'.drives == w.drives && w'.origin.Keys == w.origin.Keys
    && forall rel :: rel in w.origin ==>
         (w'.origin[rel] ==
          if rel in done then UndoneDs(r, w, rel) else if rel in q then HeldDs(r, w, rel) else w.origin[rel])
  }

  /** What is left of a point that was anchored if held goes, unless it is to stay. */
  method DestroyOne(r: RunId, w: World, now: World, rel: Name, stays: bool) returns (w': World)
    requires Wanted(r, w.origin, rel) && rel in now.origin && now.origin[rel] == HeldDs(r, w, rel)
    requires stays == IsKept(r, w, rel)
    ensures w' == SetOrigin(now, rel, UndoneDs(r, w, rel))
  {
    w' := now;
    if !stays && r.PointName() in now.origin[rel].snaps {
      w' := Apply(now, DestroySnap(rel, r.PointName()));
    }
    assert now.origin[rel := now.origin[rel]] == now.origin;
  }

  method UndoDestroying(r: RunId, w: World, now: World, q: seq<Name>, kept: set<Name>) returns (w': World)
    requires AllDifferent(q) && (forall rel :: rel in q ==> Wanted(r, w.origin, rel)) && AnchoredTo(r, w, now, q, kept)
    ensures UndoneTo(r, w, w', q, q)
  {
    w' := now;
    for i := 0 to |q|
      invariant UndoneTo(r, w, w', q, q[..i])
    {
      assert q[i] in q && q[i] !in q[..i];
      TakeOne(q, i);
      w' := DestroyOne(r, w, w', q[i], q[i] in kept);
    }
    assert q[..|q|] == q;
  }

  /** An undo whose reads are up to date and whose commands fail only when ZFS refuses them,
      whoever left the points: another drive loses one exactly where it is taken and may not
      be. */
  method UndoNamed(r: RunId, w: World) returns (w': World)
    ensures w'.drives == w.drives && w'.origin.Keys == w.origin.Keys
    ensures forall rel :: HasNamed(r, w, rel) ==>
      && (HasNamed(r, w', rel) <==> !UndoTakes(r, w, rel))
      && (IsLost(r, w, w', rel) <==> UndoTakes(r, w, rel) && !MayBeTaken(r, w, rel))
  {
    var q := Listing(set rel | rel in w.origin && Wanted(r, w.origin, rel));
    var now, kept := UndoAnchoring(r, w, q);
    w' := UndoDestroying(r, w, now, q, kept);
    forall rel | HasNamed(r, w, rel)
      ensures HasNamed(r, w', rel) <==> !UndoTakes(r, w, rel)
      ensures IsLost(r, w, w', rel) <==> UndoTakes(r, w, rel) && !MayBeTaken(r, w, rel)
    {
      UndoneTakes(r, w, rel);
      UndoLoses(r, w, rel);
      SameLoss(r, w, Undone(r, w, rel), w', rel);
    }
  }

  /** A run with a second of its own takes by its undo exactly what this says: what is left
      is what a partial receive needs. */
  lemma UndoAgrees(r: RunId, w: World, started: set<Name>, pg: map<Name, Guid>, rel: Name)
    requires RunInv(r, w, w.origin, started, pg) && HasNamed(r, w, rel)
    ensures UndoTakes(r, w, rel) <==> !NeededToResume(r, w, rel)
    ensures MayBeTaken(r, w, rel)
  {
    assert PointOk(r, w, rel, pg);
    assert HeldOnce(r, w, rel, started, pg);
  }

  // ---- the whole of origin --------------------------------------------------------

  /** The second is safe to use: wherever a reference is named after it already, what an
      undo or a drop would take of it is this drive's, no drive's, or anchored. */
  ghost predicate SafeSecond(r: RunId, w: World) {
    forall rel :: HasNamed(r, w, rel) && (UndoTakes(r, w, rel) || Dropped(r, w, rel) != w) ==> MayBeTaken(r, w, rel)
  }

  /** Neither takes a point from another drive, on any dataset, exactly when the second is
      safe. A fresh one is. */
  lemma SecondExactly(r: RunId, w: World)
    ensures SafeSecond(r, w) <==>
      forall rel :: HasNamed(r, w, rel) ==>
        !IsLost(r, w, Undone(r, w, rel), rel) && !IsLost(r, w, Dropped(r, w, rel), rel)
    ensures FreshStamp(r, w) ==> SafeSecond(r, w)
  {
    forall rel | HasNamed(r, w, rel)
      ensures IsLost(r, w, Undone(r, w, rel), rel) <==> UndoTakes(r, w, rel) && !MayBeTaken(r, w, rel)
      ensures IsLost(r, w, Dropped(r, w, rel), rel) <==> Dropped(r, w, rel) != w && !MayBeTaken(r, w, rel)
    {
      UndoLoses(r, w, rel);
      DropLoses(r, w, rel);
    }
  }

  const SRV: Name := ["rpool", "srv"]

  /** A point of drive 2, and nothing else. */
  const LEFT_FOR_2: World :=
    World(map[SRV := OriginDs(Filesystem, map[Point(7) := Snap(5, 7, Some(2))], map[])], map[])

  lemma NotAnchored()
    ensures HasNamed(RunId(1, 7, {}), LEFT_FOR_2, SRV) && !MayBeTaken(RunId(1, 7, {}), LEFT_FOR_2, SRV)
  {
  }

  /** It is lost to drive 2 when a run of drive 1 of that second undoes its own point. */
  lemma UndoLosesIt()
    ensures var r := RunId(1, 7, {});
      HasNamed(r, LEFT_FOR_2, SRV) && IsLost(r, LEFT_FOR_2, Undone(r, LEFT_FOR_2, SRV), SRV)
  {
    var r := RunId(1, 7, {});
    NotAnchored();
    assert !HasMark(SRV[0]) && !HasMark(SRV[1]);
    assert forall i :: 0 <= i < |CONTAINERS| ==> CONTAINERS[i] != SRV;
    assert Wanted(r, LEFT_FOR_2.origin, SRV);
    assert UndoTakes(r, LEFT_FOR_2, SRV);
    UndoLoses(r, LEFT_FOR_2, SRV);
  }

  /** And when one that leaves the dataset out drops what it takes for its own. */
  lemma DropLosesIt()
    ensures var r := RunId(1, 7, {SRV});
      HasNamed(r, LEFT_FOR_2, SRV) && IsLost(r, LEFT_FOR_2, Dropped(r, LEFT_FOR_2, SRV), SRV)
  {
    var r := RunId(1, 7, {SRV});
    assert Under(SRV, SRV) && SRV in r.skip;
    assert !Wanted(r, LEFT_FOR_2.origin, SRV);
    DropLoses(r, LEFT_FOR_2, SRV);
  }

  /** Where an expected dataset has such a point, the run's own cannot be taken. */
  lemma TakeFails(r: RunId, w: World, guids: map<Name, Guid>, now: nat, rel: Name)
    requires HasNamed(r, w, rel) && rel in guids
    ensures !Accepted(w, SnapshotAll(r.PointName(), r.disk, guids, now))
  {
  }
}
