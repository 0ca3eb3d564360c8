/** The replication run: take the point, transfer, anchor, decide what may go
    from origin and drop it, or undo the point. */
module Engine {
  import opened Replication
  import opened Pools
  import opened Protocol
  import opened RunState
  import opened Machines
  import opened Planning
  import opened TransferOrder
  import opened Anchoring
  import opened Verdicts
  import opened Undoing

  const MAX_ROUNDS := 3

  datatype Result = Result(aborted: bool, unverified: bool, enospc: bool, anchorFailed: set<Name>)

  class Run {
    const id: RunId
    const m: Machine
    var origin: Origin     // origin as last read
    var dest: Drive        // the drive as last read
    var started: set<Name> // datasets a receive began on
    ghost var pg: map<Name, Guid>  // the guid of the point taken on each dataset
    ghost var bouts: seq<Bout>     // every round so far
    ghost var containers: bool     // every structural container was made
    ghost var ended: World         // where the rounds ended

    constructor (m: Machine)
      requires m.Valid() && FreshStamp(m.run, m.w) && WellFormed(m.w.origin)
      ensures this.m == m && id == m.run && Early()
      ensures origin == map[] && dest == map[] && started == {} && pg == map[] && bouts == [] && !containers
    {
      this.m, id := m, m.run;
      origin, dest, started := map[], map[], {};
      pg, bouts, containers, ended := map[], [], false, m.w;
    }

    ghost predicate Inv()
      reads this, m
    {
      m.run == id && m.Valid() && RunInv(id, m.w, origin, started, pg) && KeepsOk(id, m.w)
    }

    method Do(c: Cmd) returns (f: Flow<bool>)
      requires Inv() && (Accepted(m.w, c) ==> Guard(id, m.w, c) && NamesPoint(id, m.w, c, pg))
      modifies m`w, m`trail
      ensures Inv() && m.SameRules()
      ensures Ran(old(m.w), m.w, c, f, m.flaky, m.signals)
    {
      ghost var before := m.w;
      f := m.Zfs(c);
      if m.w != before {
        StepKeepsInv(id, before, m.w, c, origin, started, pg);
        StepKeepsNewest(id, before, m.w, c, origin, started, pg);
      }
    }

    /** A command on origin's anchors and points, after the transfers. */
    method DoEnd(c: Cmd) returns (f: Flow<bool>)
      requires Inv() && (Accepted(m.w, c) ==> Guard(id, m.w, c) && NamesPoint(id, m.w, c, pg))
      requires c.MakeBookmark? || c.RenameSnap? || c.DestroySnap? || c.DestroyBookmark?
      modifies m`w, m`trail
      ensures Inv() && m.SameRules()
      ensures Ran(old(m.w), m.w, c, f, m.flaky, m.signals) && EndKept(id, old(m.w), m.w)
    {
      ghost var before := m.w;
      f := Do(c);
      if m.w != before {
        StepEndKept(id, before, m.w, c);
      }
    }

    // ---- point and transfers -------------------------------------------------

    ghost predicate Early()
      reads this, m
    {
      Inv() && started == {} && EarlyOk(id, m.w, pg)
    }

    ghost predicate Taking()
      reads this, m
    {
      Early() && TakingOk(id, m.w, origin, pg)
    }

    ghost predicate Sending()
      reads this, m
    {
      Inv() && SendingOk(id, m.w)
    }

    /** One `zfs snapshot` call. */
    method Snapshot(guids: map<Name, Guid>, now: nat) returns (f: Flow<bool>)
      requires Taking() && pg.Keys !! guids.Keys && forall rel :: rel in guids ==> Wanted(id, m.w.origin, rel)
      modifies this`pg, m`w, m`trail
      ensures Taking() && m.SameRules() && (f.Cut? ==> m.signals)
      ensures m.w.drives == old(m.w.drives)
      ensures pg == old(pg) || pg == old(pg) + guids
      ensures f == Go(true) ==> pg == old(pg) + guids
      ensures f.Go? && !m.flaky ==> f.value == Accepted(old(m.w), SnapshotAll(id.PointName(), id.disk, guids, now))
    {
      ghost var w1 := m.w;
      f := m.Zfs(SnapshotAll(id.PointName(), id.disk, guids, now));
      if f == Go(true) || m.w != w1 {
        TakeKeepsInv(id, w1, m.w, guids, now, origin, pg);
        NoKeepYet(id, m.w);
        pg := pg + guids;
      }
    }

    /** The expected datasets of one pool get the point, with guids of their own. */
    method TakePointOn(pool: Name) returns (f: Flow<bool>)
      requires Taking() && forall rel :: rel in pg ==> !Under(rel, pool)
      modifies this`pg, m`w, m`trail
      ensures Taking() && m.SameRules() && (f.Cut? ==> m.signals)
      ensures m.w.drives == old(m.w.drives)
      ensures old(pg.Keys) <= pg.Keys && forall rel :: rel in pg ==> rel in old(pg) || Under(rel, pool)
      ensures f == Go(true) ==> forall rel :: Wanted(id, m.w.origin, rel) && Under(rel, pool) ==> rel in pg
      ensures f.Go? && !m.flaky ==> f.value
    {
      SameWanted(id, m.w, origin, pg);
      var names := set rel | rel in origin && Wanted(id, origin, rel) && Under(rel, pool);
      f := Go(true);
      if names != {} {
        var guids := DrawGuids(m.w, names);
        var now: nat :| true;
        CanTake(id, m.w, pg, guids, now);
        f := Snapshot(guids, now);
      }
      if f == Go(true) {
        TookAll(id, m.w, origin, pg, pool, names);
      }
    }

    /** Snapshot every expected dataset as the point, one call per pool. */
    method TakePoint() returns (f: Flow<bool>)
      requires Early() && pg == map[] && FreshStamp(id, m.w)
      modifies this`origin, this`pg, m`w, m`trail
      ensures Early() && m.SameRules() && (f.Cut? ==> m.signals)
      ensures m.w.drives == old(m.w.drives)
      ensures f == Go(true) ==> Sending()
      ensures f.Go? && !m.flaky ==> f.value
    {
      var ro :- m.ReadOrigin();
      if ro.None? {
        return Go(false);
      }
      ReadKeepsInv(id, m.w, origin, pg);
      origin := ro.value;
      var ok :- TakePointOn(["rpool"]);
      if ok {
        PoolsApart();
        ok :- TakePointOn(["bpool"]);
        if ok {
          AllTaken(id, m.w, origin, pg);
        }
      }
      return Go(ok);
    }

    /** Read both sides and plan every expected dataset; none when a read fails. */
    method Survey() returns (f: Flow<Option<seq<Plan>>>)
      requires Sending()
      modifies this`origin, this`dest
      ensures Sending() && (f.Cut? ==> m.signals)
      ensures f.Go? && f.value.Some? ==>
        origin == m.w.origin && dest == DriveOf(m.w, id.disk) && ArePlans(id, origin, dest, f.value.value)
      ensures f.Go? && f.value.None? ==> m.flaky
    {
      var ro :- m.ReadOrigin();
      if ro.None? {
        return Go(None);
      }
      SurveyKeepsInv(id, m.w, origin, started, pg);
      origin := ro.value;
      var rd :- m.ReadDrive();
      if rd.None? {
        return Go(None);
      }
      dest := rd.value;
      var ps := PlanAll(id, origin, dest);
      return Go(Some(ps));
    }

    /** A command on the drive alone, before anything was sent. */
    method DoEarly(c: Cmd) returns (f: Flow<bool>)
      requires Early() && Sending() && (c.AbortPartial? || c.CreateContainer?) && c.disk == id.disk
      modifies m`w, m`trail
      ensures Early() && Sending() && m.SameRules() && m.w.origin == old(m.w.origin)
      ensures Ran(old(m.w), m.w, c, f, m.flaky, m.signals)
    {
      ghost var w1 := m.w;
      f := Do(c);
      if m.w != w1 {
        DriveCmdKeepsPhase(id, w1, m.w, c, pg);
      }
    }

    /** Discard the partial receives that can never resume. */
    method DiscardStalePartials(ps: seq<Plan>) returns (f: Flow<bool>)
      requires Early() && Sending()
      modifies m`w, m`trail
      ensures Early() && Sending() && m.SameRules() && (f.Cut? ==> m.signals)
    {
      var some := false;
      for i := 0 to |ps|
        invariant Early() && Sending() && m.SameRules()
      {
        var stale: bool := *;
        if ps[i].state == Resume && stale {
          var ok :- DoEarly(AbortPartial(id.disk, ps[i].rel));
          some := some || ok;
        }
      }
      f := Go(some);
    }

    /** The user's decisions: any changes of the drive that add no snapshot to
        it, and the drive's own anchors of excluded copies that are gone. False
        aborts the run: the user does not let it go on. */
    method Decide() returns (f: Flow<bool>)
      requires Early() && Sending()
      modifies m`w, m`trail, m`decided
      ensures Early() && Sending() && m.SameRules() && (f.Cut? ==> m.signals)
      ensures f.Go? ==> f.value == m.willing
    {
      var n: nat :| true;
      for i := 0 to n
        invariant Early() && Sending() && m.SameRules()
      {
        var c: Cmd := *;
        if MayDecide(c) {
          ghost var w1 := m.w;
          var r := m.Decision(c);
          if m.w != w1 {
            DecisionKeepsInv(id, w1, m.w, c, origin, pg);
            NoKeepYet(id, m.w);
          }
          var _ :- r;
        }
      }
      f := Go(m.willing);
    }

    predicate MayDecide(c: Cmd)
      reads m
    {
      match c
      case Rearrange(disk, drive) => disk == id.disk
      case DestroyBookmark(rel, mark) =>
        mark.Anchor? && mark.disk == id.disk && UnderAny(rel, id.skip) && rel !in DriveOf(m.w, id.disk)
      case _ => false
    }

    /** Create one container, unless origin lacks it or the drive has it. */
    method EnsureContainer(rel: Name) returns (f: Flow<bool>)
      requires Early() && Sending() && origin == m.w.origin && dest == DriveOf(m.w, id.disk)
      modifies this`dest, m`w, m`trail
      ensures Early() && Sending() && m.SameRules() && (f.Cut? ==> m.signals)
      ensures m.w.origin == old(m.w.origin)
      ensures f.Go? ==> dest == DriveOf(m.w, id.disk) && old(dest).Keys <= dest.Keys
      ensures f == Go(true) && rel in origin ==> rel in dest
      ensures f.Go? && !m.flaky ==>
        f.value == (rel !in origin || rel in old(dest) || Parent(rel) == [] || Parent(rel) in old(dest))
    {
      if rel !in origin || rel in dest {
        return Go(true);
      }
      if Parent(rel) != [] && Parent(rel) !in dest {
        return Go(false);
      }
      ghost var w1 := m.w;
      var ok :- DoEarly(CreateContainer(id.disk, rel));
      if ok {
        ContainerMade(w1, m.w, id.disk, rel);
        dest := dest[rel := DriveDs([], false, false)];
      }
      return Go(ok);
    }

    /** Create the containers of `order` the drive lacks, parents first. */
    method CreateAll(order: seq<Name>) returns (f: Flow<set<Name>>)
      requires Early() && Sending() && origin == m.w.origin && dest == DriveOf(m.w, id.disk)
      modifies this`dest, m`w, m`trail
      ensures Early() && Sending() && m.SameRules() && (f.Cut? ==> m.signals)
      ensures m.w.origin == old(m.w.origin)
      ensures f.Go? ==> dest == DriveOf(m.w, id.disk)
      ensures f.Go? && f.value == {} ==> Made(order, |order|, origin, dest)
      ensures f.Go? && !m.flaky && ParentsBefore(order) ==> f.value == {}
    {
      var failed := {};
      for i := 0 to |order|
        invariant Early() && Sending() && m.SameRules()
        invariant origin == m.w.origin == old(m.w.origin) && dest == DriveOf(m.w, id.disk)
        invariant failed == {} ==> Made(order, i, origin, dest)
        invariant !m.flaky && ParentsBefore(order) ==> failed == {}
      {
        ParentMade(order, i, origin, dest);
        ghost var d := dest;
        var ok :- EnsureContainer(order[i]);
        MadeOne(order, i, origin, d, dest);
        failed := if ok then failed else failed + {order[i]};
      }
      f := Go(failed);
    }

    /** Create the structural containers the drive lacks. */
    method EnsureContainers() returns (f: Flow<set<Name>>)
      requires Early() && Sending() && origin == m.w.origin && dest == DriveOf(m.w, id.disk)
      modifies this`dest, this`containers, m`w, m`trail
      ensures Early() && Sending() && m.SameRules() && (f.Cut? ==> m.signals)
      ensures m.w.origin == old(m.w.origin)
      ensures containers ==> ContainersOn(m.w.origin, DriveOf(m.w, id.disk))
      ensures f.Go? ==> (containers <==> f.value == {})
      ensures f.Go? && !m.flaky ==> f.value == {}
    {
      ContainersInOrder();
      containers := false;
      f := CreateAll(CONTAINERS);
      containers := f == Go({});
    }

    /** Bring one dataset to the point; resuming brings it to an earlier one. */
    method Transfer(p: Plan) returns (f: Flow<End>)
      requires Sending() && origin == m.w.origin && Wanted(id, origin, p.rel)
      requires p.rel in pg && !Holds(m.w, id.disk, p.rel, pg[p.rel])
      modifies this`started, m`w, m`trail, m`log
      ensures Sending() && m.SameRules() && (f.Cut? ==> m.signals)
      ensures m.w.origin == old(m.w.origin) && OnlyCopy(id, old(m.w), m.w, p.rel)
      ensures m.log == old(m.log) + [Receipt(p.rel, p.state == Resume, DriveOf(old(m.w), id.disk),
                                             if f.Go? then Some(f.value) else None)]
      ensures f == Go(Arrived) ==> p.rel in DriveOf(m.w, id.disk)
      ensures f == Go(Arrived) && p.state != Resume ==> Holds(m.w, id.disk, p.rel, pg[p.rel])
      ensures f == Go(Failed(true)) ==> IsPartial(id, m.w, p.rel)
    {
      assert HasPoint(id, m.w, p.rel) && PointOk(id, m.w, p.rel, pg);
      StartKeepsInv(id, m.w, started, pg, p.rel);
      started := started + {p.rel};
      ghost var w1 := m.w;
      f := m.SendReceive(p.rel, p.state == Resume);
      StreamKeepsInv(id, w1, m.w, p.rel, origin, started, pg);
      NoKeepYet(id, m.w);
    }

    /** Give up a partial receive after its transfer. */
    method Discard(p: Plan) returns (f: Flow<bool>)
      requires Sending() && IsPartial(id, m.w, p.rel)
      modifies m`w, m`trail
      ensures Sending() && m.SameRules() && (f.Cut? ==> m.signals)
      ensures m.w.origin == old(m.w.origin) && OnlyCopy(id, old(m.w), m.w, p.rel)
      ensures f.Go? && !m.flaky ==> f.value
    {
      ghost var w1 := m.w;
      f := Do(AbortPartial(id.disk, p.rel));
      PartialAborted(id, w1, w1, m.w, p.rel);
      if m.w != w1 {
        DriveCmdKeepsPhase(id, w1, m.w, AbortPartial(id.disk, p.rel), pg);
      }
    }

    /** Send one dataset; when what is left of a resumed one can never resume, discard it. */
    method Attempt(p: Plan) returns (f: Flow<Went>, ghost went: Went)
      requires Sending() && origin == m.w.origin && Wanted(id, origin, p.rel)
      requires p.rel in pg && !Holds(m.w, id.disk, p.rel, pg[p.rel])
      modifies this`started, m`w, m`trail, m`log
      ensures Sending() && m.SameRules() && (f.Cut? ==> m.signals) && (f.Go? ==> f.value == went)
      ensures m.w.origin == old(m.w.origin) && OnlyCopy(id, old(m.w), m.w, p.rel)
      ensures went.Tried? && m.log == old(m.log) +
        [Receipt(p.rel, p.state == Resume, DriveOf(old(m.w), id.disk), went.end)]
      ensures went.discarded ==> p.state == Resume && went.end == Some(Failed(true))
      ensures f.Go? && !m.flaky && p.state == Resume && went.end == Some(Failed(true)) ==> went.discarded
      ensures went.Reached() ==> p.rel in DriveOf(m.w, id.disk)
      ensures went.Reached() && p.state != Resume ==> Holds(m.w, id.disk, p.rel, pg[p.rel])
    {
      ghost var w0 := m.w;
      var sent := Transfer(p);
      if sent.Cut? {
        return Cut, Tried(None, false);
      }
      if p.state != Resume || sent.value != Failed(true) {
        return Go(Tried(Some(sent.value), false)), Tried(Some(sent.value), false);
      }
      ghost var w1 := m.w;
      var gone := Discard(p);
      OnlyCopyTransitive(id, w0, w1, m.w, p.rel);
      if gone.Cut? {
        return Cut, Tried(Some(sent.value), false);
      }
      return Go(Tried(Some(sent.value), gone.value)), Tried(Some(sent.value), gone.value);
    }

    /** A dataset of a round, passed over when it is NEW below a failed one. */
    method SendOne(p: Plan, failed: set<Name>) returns (f: Flow<Went>, ghost went: Went, ghost more: seq<Receipt>)
      requires Sending() && origin == m.w.origin && Wanted(id, origin, p.rel)
      requires p.rel in pg && !Holds(m.w, id.disk, p.rel, pg[p.rel])
      modifies this`started, m`w, m`trail, m`log
      ensures Sending() && m.SameRules() && (f.Cut? ==> m.signals) && (f.Go? ==> f.value == went)
      ensures m.w.origin == old(m.w.origin) && OnlyCopy(id, old(m.w), m.w, p.rel) && m.log == old(m.log) + more
      ensures Became(id, p, failed, old(m.w), m.w, went, more, pg)
      ensures f.Go? && !m.flaky ==> GaveUp(p, went)
    {
      var blocked := BlockedByParent(p.rel, failed);
      if p.state == New && blocked {
        return Go(Skipped), Skipped, [];
      }
      more := [Receipt(p.rel, p.state == Resume, DriveOf(m.w, id.disk), None)];
      f, went := Attempt(p);
      more := [more[0].(end := went.end)];
    }

    /** The next dataset of a round. */
    method RoundOne(todo: seq<Plan>, i: nat, failed: set<Name>, ghost outs: seq<Went>, ghost receipts: seq<Receipt>)
      returns (f: Flow<Went>, ghost went: Went, ghost more: seq<Receipt>)
      requires Sending() && origin == m.w.origin && i == |outs| < |todo| && failed == FailedIn(todo, outs, i)
      requires InRound(id, m.w, dest, todo, outs, receipts, pg, containers)
      modifies this`started, m`w, m`trail, m`log
      ensures Sending() && m.SameRules() && (f.Cut? ==> m.signals) && (f.Go? ==> f.value == went)
      ensures m.w.origin == old(m.w.origin) && m.log == old(m.log) + more
      ensures InRound(id, m.w, dest, todo, outs + [went], receipts + more, pg, containers)
      ensures f.Go? && !m.flaky ==> GaveUp(todo[i], went)
    {
      ghost var w1 := m.w;
      InRoundNext(id, w1, dest, todo, outs, receipts, pg, containers);
      f, went, more := SendOne(todo[i], failed);
      InRoundStep(id, w1, m.w, dest, todo, outs, receipts, pg, containers, went, more);
    }

    /** The same, with what the round is to answer. */
    method RoundTurn(todo: seq<Plan>, i: nat, tally: Tally, ghost outs: seq<Went>, ghost receipts: seq<Receipt>,
                     ghost log0: seq<Receipt>)
      returns (f: Flow<Tally>, ghost outs': seq<Went>, ghost receipts': seq<Receipt>)
      requires Sending() && origin == m.w.origin && i == |outs| < |todo| && !tally.enospc
      requires InRound(id, m.w, dest, todo, outs, receipts, pg, containers) && m.log == log0 + receipts
      requires TurnsSay(todo, outs, tally) && (!m.flaky ==> AllGaveUp(todo, outs))
      modifies this`started, m`w, m`trail, m`log
      ensures Sending() && m.SameRules() && (f.Cut? ==> m.signals) && m.w.origin == old(m.w.origin)
      ensures |outs'| == i + 1 && InRound(id, m.w, dest, todo, outs', receipts', pg, containers)
      ensures m.log == log0 + receipts'
      ensures f.Go? ==> TurnsSay(todo, outs', f.value) && (!m.flaky ==> AllGaveUp(todo, outs'))
    {
      ghost var went: Went, more: seq<Receipt>;
      var r: Flow<Went>;
      r, went, more := RoundOne(todo, i, tally.failed, outs, receipts);
      RoundGrows(todo, outs, tally, went);
      Regroup(log0, receipts, more);
      outs', receipts' := outs + [went], receipts + more;
      f := if r.Cut? then Cut else Go(Tallied(tally, todo[i], r.value));
    }

    /** One round over what still needs a transfer, parents first. Each plan gets one stream,
        in that order, but a NEW one below a dataset that failed; running out of space ends
        the round. */
    method Round(todo: seq<Plan>) returns (f: Flow<Tally>, ghost outs: seq<Went>, ghost receipts: seq<Receipt>)
      requires Sending() && origin == m.w.origin && InRound(id, m.w, dest, todo, [], [], pg, containers)
      modifies this`started, m`w, m`trail, m`log
      ensures Sending() && m.SameRules() && (f.Cut? ==> m.signals)
      ensures m.w.origin == old(m.w.origin) && m.log == old(m.log) + receipts
      ensures InRound(id, m.w, dest, todo, outs, receipts, pg, containers)
      ensures f.Go? ==> Answers(todo, outs, f.value.again, f.value.enospc)
      ensures f.Go? && !m.flaky ==> AllGaveUp(todo, outs)
    {
      outs, receipts := [], [];
      f := Go(Tally({}, false, false));
      ghost var log0 := m.log;
      var i := 0;
      while i < |todo| && f.Go? && !f.value.enospc
        invariant Sending() && m.SameRules() && origin == m.w.origin == old(m.w.origin) && (f.Cut? ==> m.signals)
        invariant |outs| == i <= |todo| && InRound(id, m.w, dest, todo, outs, receipts, pg, containers)
        invariant m.log == log0 + receipts
        invariant f.Go? ==> TurnsSay(todo, outs, f.value) && (!m.flaky ==> AllGaveUp(todo, outs))
      {
        f, outs, receipts := RoundTurn(todo, i, f.value, outs, receipts, log0);
        i := i + 1;
      }
    }

    /** Survey, and one round over what is left to do. */
    method NextRound() returns (f: Flow<Next>, ghost bout: Option<Bout>)
      requires Sending()
      requires containers ==> ContainersOn(m.w.origin, DriveOf(m.w, id.disk))
      modifies this`origin, this`dest, this`started, m`w, m`trail, m`log
      ensures Sending() && m.SameRules() && (f.Cut? ==> m.signals)
      ensures containers ==> ContainersOn(m.w.origin, DriveOf(m.w, id.disk))
      ensures m.log == old(m.log) + if bout.Some? then bout.value.receipts else []
      ensures bout.Some? ==> BoutOk(id, bout.value, containers) && bout.value.at == old(m.w)
      ensures f.Go? ==> Found(id, m.w, f.value, bout) && (f.value.Unread? ==> m.flaky)
    {
      ghost var at := m.w;
      bout := None;
      var ps :- Survey();
      if ps.None? {
        return Go(Unread), None;
      }
      var todo := Todo(id, origin, dest, ps.value);
      RoundStarts(id, m.w, ps.value, todo, started, pg, containers);
      if todo == [] {
        return Go(NothingLeft), None;
      }
      var sent: Flow<Tally>;
      ghost var outs: seq<Went>, receipts: seq<Receipt>;
      sent, outs, receipts := Round(todo);
      bout := Some(Bout(at, todo, outs, receipts));
      f := if sent.Cut? then Cut else Go(Did(Sent(sent.value.again, sent.value.enospc)));
    }

    /** One more round, when the one before asked for it. */
    method OneRound(ghost log0: seq<Receipt>, ghost round: nat, ghost last: Next) returns (f: Flow<Next>)
      requires Sending() && m.log == log0 + Streams(bouts) && AreBouts(id, bouts, containers)
      requires Stands(id, m.w, bouts, round, last) && last == Did(Sent(true, false))
      requires containers ==> ContainersOn(m.w.origin, DriveOf(m.w, id.disk))
      modifies this`origin, this`dest, this`started, this`bouts, m`w, m`trail, m`log
      ensures Sending() && m.SameRules() && (f.Cut? ==> m.signals)
      ensures containers ==> ContainersOn(m.w.origin, DriveOf(m.w, id.disk))
      ensures m.log == log0 + Streams(bouts) && AreBouts(id, bouts, containers) && |bouts| <= round + 1
      ensures f.Go? ==> Stands(id, m.w, bouts, round + 1, f.value) && (f.value.Unread? ==> m.flaky)
    {
      ghost var bout: Option<Bout>, was := None, bouts;
      AllAsked(id, m.w, was, round, last);
      f, bout := NextRound();
      BoutsGrow(id, was, bout, containers);
      Regroup(log0, Streams(was), if bout.Some? then bout.value.receipts else []);
      bouts := WithBout(was, bout);
      if f.Go? {
        RoundStands(id, m.w, was, bout, round, f.value);
      }
    }

    /** Every transfer round, at most three. None when a survey cannot read. */
    method Rounds() returns (f: Flow<Option<bool>>)
      requires Early() && Sending() && bouts == [] && !containers
      modifies this`origin, this`dest, this`started, this`bouts, this`containers, this`ended, m`w, m`trail, m`log
      ensures Sending() && m.SameRules() && (f.Cut? ==> m.signals)
      ensures m.log == old(m.log) + Streams(bouts) && AreBouts(id, bouts, containers) && |bouts| <= MAX_ROUNDS
      ensures f.Go? && f.value.None? ==> m.flaky
      ensures f.Go? && f.value.Some? ==> BoutsEnded(id, bouts, m.w, f.value.value) && ended == m.w
    {
      ghost var log0 := m.log;
      var ps :- Survey();
      if ps.None? {
        return Go(None);
      }
      var _ :- EnsureContainers();
      f := RoundsFrom(log0);
    }

    method RoundsFrom(ghost log0: seq<Receipt>) returns (f: Flow<Option<bool>>)
      requires Sending() && bouts == [] && m.log == log0 + Streams(bouts) && AreBouts(id, bouts, containers)
      requires containers ==> ContainersOn(m.w.origin, DriveOf(m.w, id.disk))
      modifies this`origin, this`dest, this`started, this`bouts, this`ended, m`w, m`trail, m`log
      ensures Sending() && m.SameRules() && (f.Cut? ==> m.signals)
      ensures m.log == log0 + Streams(bouts) && AreBouts(id, bouts, containers) && |bouts| <= MAX_ROUNDS
      ensures f.Go? && f.value.None? ==> m.flaky
      ensures f.Go? && f.value.Some? ==> BoutsEnded(id, bouts, m.w, f.value.value) && ended == m.w
    {
      var round, last := 0, Did(Sent(true, false));
      while round < MAX_ROUNDS && last.Did? && last.sent.again && !last.sent.enospc
        invariant Sending() && m.SameRules() && |bouts| <= round <= MAX_ROUNDS
        invariant m.log == log0 + Streams(bouts) && AreBouts(id, bouts, containers)
        invariant containers ==> ContainersOn(m.w.origin, DriveOf(m.w, id.disk))
        invariant Stands(id, m.w, bouts, round, last) && (last.Unread? ==> m.flaky)
        decreases MAX_ROUNDS - round
      {
        last :- OneRound(log0, round, last);
        round := round + 1;
      }
      ended := m.w;
      if !last.Unread? {
        RoundsEnd(id, m.w, bouts, round, last);
      }
      f := Go(if last.Unread? then None else Some(last.Did? && last.sent.enospc));
    }

    // ---- anchors ----------------------------------------------------------

    /** Make a point a drive's anchor: a bookmark, on bpool the point renamed. */
    method AnchorPoint(rel: Name, stamp: nat, disk: Disk) returns (f: Flow<bool>)
      requires Inv() && MayAnchor(id, m.w, rel, stamp, disk)
      modifies m`w, m`trail
      ensures Inv() && m.SameRules() && (f.Cut? ==> m.signals)
      ensures || m.w == old(m.w)
              || (var c := AnchorCmd(rel, stamp, disk); Accepted(old(m.w), c) && m.w == Apply(old(m.w), c))
      ensures f == Go(true) ==> AnchorDone(old(m.w), m.w, rel, stamp, disk) && Anchorable(old(m.w), rel, stamp, disk)
      ensures f == Go(false) ==> m.w == old(m.w)
      ensures EndKept(id, old(m.w), m.w)
      ensures f.Go? && !m.flaky ==> f.value == Anchorable(old(m.w), rel, stamp, disk)
    {
      AnchorAllowed(id, m.w, rel, stamp, disk, origin, started, pg);
      var ok :- DoEnd(AnchorCmd(rel, stamp, disk));
      if ok || IsBpool(rel) {
        return Go(ok);
      }
      // A run cut between its bookmark and the destroy left both.
      f := m.SameGuid(rel, Point(stamp), Anchor(disk, stamp));
    }

    lemma AnchorCmdOnlyAnchors(w: World, w': World, rel: Name, stamp: nat, disk: Disk)
      requires w' == w || (Accepted(w, AnchorCmd(rel, stamp, disk)) && w' == Apply(w, AnchorCmd(rel, stamp, disk)))
      requires rel in w.origin && id.PointName() in w.origin[rel].snaps ==>
        Holds(w, id.disk, rel, w.origin[rel].snaps[id.PointName()].guid)
      ensures OnlyAnchors(id, w, w')
    {
    }

    lemma SettledStays(w: World, w': World, rel: Name)
      requires OnlyAnchors(id, w, w') && Settled(id, w, rel, pg)
      ensures Settled(id, w', rel, pg)
    {
      assert AnchorsGrow(id, rel, w.origin[rel], w'.origin[rel]);
    }

    /** Anchor every dataset at the point, trying each twice. Without spurious
        failures the only ones left are those whose point is gone already. */
    method AnchorAll(at: set<Name>) returns (f: Flow<set<Name>>)
      requires Inv()
      requires forall rel :: rel in at ==> rel in pg && rel in origin && Holds(m.w, id.disk, rel, pg[rel])
      modifies m`w, m`trail
      ensures Inv() && m.SameRules() && (f.Cut? ==> m.signals)
      ensures OnlyAnchors(id, old(m.w), m.w)
      ensures f.Go? ==> Anchored(id, m.w, at, f.value, pg, !m.flaky)
      ensures f.Go? && !m.flaky && NoneGone(id, old(m.w), at) ==> f.value == {}
    {
      var failed, left := {}, at;
      ghost var w0 := m.w;
      while left != {}
        invariant left <= at && Inv() && m.SameRules() && OnlyAnchors(id, w0, m.w)
        invariant Anchored(id, m.w, at - left, failed, pg, !m.flaky)
        invariant !m.flaky && NoneGone(id, w0, at) ==> failed == {} && NoneGone(id, m.w, left)
      {
        var rel :| rel in left;
        ghost var w1 := m.w;
        var r := AnchorTwice(rel);
        OnlyAnchorsTransitive(id, w0, w1, m.w);
        var ok :- r;
        AnchoredOne(id, w1, m.w, at, left, rel, ok, failed, pg, !m.flaky);
        failed, left := if ok then failed else failed + {rel}, left - {rel};
      }
      assert at - left == at;
      f := Go(failed);
    }

    method AnchorTwice(rel: Name) returns (f: Flow<bool>)
      requires Inv() && rel in pg && Holds(m.w, id.disk, rel, pg[rel])
      modifies m`w, m`trail
      ensures Inv() && m.SameRules() && (f.Cut? ==> m.signals)
      ensures OnlyAnchors(id, old(m.w), m.w)
      ensures forall other :: Settled(id, old(m.w), other, pg) ==> Settled(id, m.w, other, pg)
      ensures forall other :: PointGone(id, old(m.w), other) ==> PointGone(id, m.w, other)
      ensures forall other :: other != rel && PointGone(id, m.w, other) ==> PointGone(id, old(m.w), other)
      ensures f == Go(true) ==> Settled(id, m.w, rel, pg)
      ensures f == Go(false) ==> m.w == old(m.w) && (!m.flaky ==> PointGone(id, m.w, rel))
    {
      ghost var w0 := m.w;
      var ok :- AnchorOnce(rel);
      if ok {
        return Go(true);
      }
      ghost var w1 := m.w;
      f := AnchorOnce(rel);
      OnlyAnchorsTransitive(id, w0, w1, m.w);
    }

    method AnchorOnce(rel: Name) returns (f: Flow<bool>)
      requires Inv() && rel in pg && Holds(m.w, id.disk, rel, pg[rel])
      modifies m`w, m`trail
      ensures Inv() && m.SameRules() && (f.Cut? ==> m.signals)
      ensures OnlyAnchors(id, old(m.w), m.w)
      ensures forall other :: Settled(id, old(m.w), other, pg) ==> Settled(id, m.w, other, pg)
      ensures f == Go(true) ==> Settled(id, m.w, rel, pg)
      ensures forall other :: PointGone(id, old(m.w), other) ==> PointGone(id, m.w, other)
      ensures forall other :: other != rel && PointGone(id, m.w, other) ==> PointGone(id, old(m.w), other)
      ensures f == Go(false) ==> m.w == old(m.w) && (!m.flaky ==> PointGone(id, m.w, rel))
    {
      ghost var w0 := m.w;
      assert PointOk(id, w0, rel, pg) && HeldOnce(id, w0, rel, started, pg);
      f := AnchorPoint(rel, id.stamp, id.disk);
      AnchorCmdOnlyAnchors(w0, m.w, rel, id.stamp, id.disk);
      forall other | Settled(id, w0, other, pg)
        ensures Settled(id, m.w, other, pg)
      {
        SettledStays(w0, m.w, other);
      }
    }

    /** Bookmark for this drive the newest snapshot it holds of one dataset. */
    method AnchorNewest(rel: Name, o: OriginDs, d: DriveDs) returns (f: Flow<bool>)
      requires Inv() && Wanted(id, m.w.origin, rel) && o == m.w.origin[rel]
      requires rel in DriveOf(m.w, id.disk) && d == DriveOf(m.w, id.disk)[rel]
      modifies m`w, m`trail
      ensures Inv() && m.SameRules() && (f.Cut? ==> m.signals)
      ensures OnlyMarked(id, old(m.w), m.w, rel)
      ensures f.Go? && !m.flaky ==> HeldExactly(id, old(m.w), m.w, rel)
    {
      var mark := PickNewest(id, rel, o, d);
      if mark.None? {
        NothingToMark(id, m.w, rel);
        return Go(false);
      }
      var (n, name) := mark.value;
      assert rel in pg ==> HeldOnce(id, m.w, rel, started, pg);
      ghost var before := m.w;
      f := Do(MakeBookmark(rel, n, name));
      if m.w != before {
        NewlyMarked(id, before, m.w, rel, n, name);
      }
    }

    /** Anchor the newest snapshot the drive holds of each of these datasets. */
    method AnchorEach(q: seq<Name>, origin: Origin, drive: Drive) returns (f: Flow<set<Name>>)
      requires Inv() && origin == m.w.origin && drive == DriveOf(m.w, id.disk)
      requires (forall rel :: rel in q ==> rel in drive && Wanted(id, origin, rel)) && AllDifferent(q)
      modifies m`w, m`trail
      ensures Inv() && m.SameRules() && (f.Cut? ==> m.signals)
      ensures OnlyAnchors(id, old(m.w), m.w)
      ensures f.Go? ==> HeldLoop(id, old(m.w), m.w, q, |q|, !m.flaky)
    {
      ghost var w0 := m.w;
      var done := {};
      for i := 0 to |q|
        invariant Inv() && m.SameRules() && OnlyAnchors(id, w0, m.w)
        invariant HeldLoop(id, w0, m.w, q, i, !m.flaky)
      {
        var rel := q[i];
        assert rel in q;
        ghost var w1 := m.w;
        var r := AnchorNewest(rel, origin[rel], drive[rel]);
        OthersHeld(id, w1, m.w, rel);
        OnlyAnchorsTransitive(id, w0, w1, m.w);
        var ok :- r;
        HeldLoopStep(id, w0, w1, m.w, q, i, !m.flaky);
        done := if ok then done + {rel} else done;
      }
      f := Go(done);
    }

    /** Anchor the newest snapshot the drive holds of every rpool dataset. It is then
        anchored exactly where it was before or the anchor of its second was not
        another snapshot's. */
    method AnchorHeld() returns (f: Flow<set<Name>>)
      requires Inv()
      modifies m`w, m`trail
      ensures Inv() && m.SameRules() && (f.Cut? ==> m.signals)
      ensures OnlyAnchors(id, old(m.w), m.w)
      ensures f.Go? && !m.flaky ==> forall rel :: rel in m.w.origin ==> HeldExactly(id, old(m.w), m.w, rel)
      ensures f.Go? && !m.flaky ==> AllEndAnchored(id, m.w)
    {
      var ro :- m.ReadOrigin();
      var rd :- m.ReadDrive();
      if ro.None? || rd.None? {
        return Go({});
      }
      var origin, drive := ro.value, rd.value;
      ghost var w0 := m.w;
      var q := Listing(set rel | rel in origin && rel in drive && Wanted(id, origin, rel));
      f := AnchorEach(q, origin, drive);
      if f.Go? && !m.flaky {
        HeldEverywhere(id, w0, m.w, q);
      }
    }

    /** A verdict of this run that condemns its target. */
    ghost predicate Judged(w0: World, v: Verdict)
      reads this
    {
      && IsVerdict(id, w0.origin, DriveOf(w0, id.disk), v) && v.drop
      && (forall rel :: rel in w0.origin ==> PointOk(id, w0, rel, pg))
      && (forall rel :: rel in pg ==> Wanted(id, w0.origin, rel))
    }

    // ---- what may go from origin -------------------------------------------

    /** Judge every candidate against a fresh read of both sides; nothing goes
        when one cannot be read, or when the drive lost a dataset meanwhile. */
    method DropCheck() returns (f: Flow<seq<Verdict>>)
      requires m.run == id
      ensures f.Cut? ==> m.signals
      ensures f.Go? ==> f.value == [] || AreVerdicts(id, m.w.origin, DriveOf(m.w, id.disk), f.value)
      ensures f.Go? && !m.flaky && dest.Keys <= DriveOf(m.w, id.disk).Keys ==>
                AreVerdicts(id, m.w.origin, DriveOf(m.w, id.disk), f.value)
      ensures f.Go? && !(dest.Keys <= DriveOf(m.w, id.disk).Keys) ==> f.value == []
    {
      var ro :- m.ReadOrigin();
      var rd :- m.ReadDrive();
      if ro.None? || rd.None? || !(dest.Keys <= rd.value.Keys) {
        return Go([]);
      }
      var origin, drive := ro.value, rd.value;
      var q := Listing(origin.Keys);
      var vs: seq<Verdict> := [];
      for i := 0 to |q|
        invariant forall v: Verdict :: v in vs <==> v.rel in q[..i] && IsVerdict(id, origin, drive, v)
      {
        assert q[i] in q;
        var more := JudgeDataset(id, origin, drive, q[i]);
        vs := vs + more;
        TakeOne(q, i);
      }
      assert q[..|q|] == q;
      f := Go(vs);
    }

    /** Destroy a condemned reference; a left-over point has its drive's anchor. */
    method DestroyTarget(v: Verdict, ghost w0: World) returns (f: Flow<bool>)
      requires Inv() && Judged(w0, v) && Trimmed(id, w0, m.w)
      requires v.owner.Some? && v.rel in m.w.origin && v.target in m.w.origin[v.rel].snaps ==>
        HasAnchor(m.w, v.rel, v.owner.value, m.w.origin[v.rel].snaps[v.target].guid)
      modifies m`w, m`trail
      ensures Inv() && m.SameRules() && (f.Cut? ==> m.signals)
      ensures Trimmed(id, old(m.w), m.w) && OnlyTarget(old(m.w), m.w, v)
      ensures EndKept(id, old(m.w), m.w)
      ensures f == Go(true) || (f.Go? && !m.flaky) ==> TargetGone(m.w, v)
      ensures m.w == old(m.w) || TargetGone(m.w, v)
    {
      VerdictStands(id, w0, m.w, v, pg);
      ghost var w1 := m.w;
      if v.target.Point? || IsBpool(v.rel) {
        f := DoEnd(DestroySnap(v.rel, v.target));
      } else {
        f := DoEnd(DestroyBookmark(v.rel, v.target));
      }
      TargetDestroyed(id, w1, m.w, v);
    }

    /** The anchor of the drive a left-over point names. */
    method AnchorForOwner(v: Verdict, ghost w0: World) returns (f: Flow<bool>)
      requires Inv() && Judged(w0, v) && v.owner.Some? && Trimmed(id, w0, m.w)
      modifies m`w, m`trail
      ensures Inv() && m.SameRules() && (f.Cut? ==> m.signals)
      ensures Trimmed(id, old(m.w), m.w) && OnlyTarget(old(m.w), m.w, v)
      ensures EndKept(id, old(m.w), m.w)
      ensures f == Go(true) ==> v.rel in m.w.origin && (v.target in m.w.origin[v.rel].snaps ==>
        HasAnchor(m.w, v.rel, v.owner.value, m.w.origin[v.rel].snaps[v.target].guid))
      ensures f == Go(true) && IsBpool(v.rel) ==> TargetGone(m.w, v)
      ensures IsRelease(v) && Carried(old(m.w), m.w, v, false) && (f == Go(true) ==> CanRelease(old(m.w), v))
      ensures f == Go(false) && !m.flaky ==> !CanRelease(old(m.w), v)
    {
      VerdictStands(id, w0, m.w, v, pg);
      ghost var w1 := m.w;
      f := AnchorPoint(v.rel, v.target.stamp, v.owner.value);
      ReleaseAnchors(id, w1, m.w, v);
      AnchorCarried(w1, m.w, v);
      if f == Go(true) {
        AnchoredForOwner(w1, m.w, v);
      }
    }

    /** Take a point another run left out of the way: its drive's anchor first,
        then the destroy; on bpool the rename does both. */
    method ReleasePoint(v: Verdict, ghost w0: World) returns (f: Flow<bool>)
      requires Inv() && Judged(w0, v) && v.owner.Some? && Trimmed(id, w0, m.w)
      modifies m`w, m`trail
      ensures Inv() && m.SameRules() && (f.Cut? ==> m.signals)
      ensures Trimmed(id, old(m.w), m.w) && OnlyTarget(old(m.w), m.w, v)
      ensures EndKept(id, old(m.w), m.w)
      ensures f == Go(true) ==> TargetGone(m.w, v)
      ensures Carried(old(m.w), m.w, v, f.Go? && !m.flaky)
    {
      ghost var w1 := m.w;
      var ok :- AnchorForOwner(v, w0);
      if !ok || IsBpool(v.rel) {
        return Go(ok);
      }
      ghost var w2 := m.w;
      TrimmedTransitive(id, w0, w1, w2);
      f := DestroyTarget(v, w0);
      TrimmedTransitive(id, w1, w2, m.w);
      OnlyTargetTransitive(w1, w2, m.w, v);
    }

    /** Destroy what was condemned, one by one. Whatever fails, nothing else
        goes; without spurious failures what needs no drive's anchor is gone, and
        another drive's point exactly if it could be made its anchor. */
    method Drop(vs: seq<Verdict>) returns (f: Flow<nat>)
      requires Inv() && forall v :: v in vs ==> IsVerdict(id, m.w.origin, DriveOf(m.w, id.disk), v)
      modifies m`w, m`trail
      ensures Inv() && m.SameRules() && (f.Cut? ==> m.signals)
      ensures Trimmed(id, old(m.w), m.w) && Spared(old(m.w), m.w, vs)
      ensures EndKept(id, old(m.w), m.w)
      ensures f.Go? && !m.flaky ==> forall v :: v in vs && Outright(id, old(m.w), v) ==> TargetGone(m.w, v)
      ensures forall v :: v in vs && IsRelease(v) && TargetGone(m.w, v) ==> CanRelease(old(m.w), v)
      ensures f.Go? && !m.flaky ==>
        forall v :: v in vs && IsRelease(v) ==> (TargetGone(m.w, v) <==> CanRelease(old(m.w), v))
      ensures vs == [] ==> m.w == old(m.w)
    {
      ghost var w0 := m.w;
      var dropped := 0;
      for i := 0 to |vs|
        invariant Inv() && m.SameRules() && DropLoop(id, w0, m.w, vs, i, !m.flaky) && EndKept(id, w0, m.w)
        invariant i == 0 ==> m.w == w0
      {
        var v := vs[i];
        assert v in vs;
        ghost var w1 := m.w;
        if v.drop {
          var r := Carry(v, w0);
          if r.Go? || m.signals {
            DropLoopStep(id, w0, w1, m.w, vs, i, !m.flaky && r.Go?);
          }
          var ok :- r;
          dropped := if ok then dropped + 1 else dropped;
        }
      }
      f := Go(dropped);
    }

    /** Judge, then drop: without random failures, and with no dataset lost from the drive,
        what goes from origin is exactly what is to go. */
    method DropPass() returns (f: Flow<nat>)
      requires Inv()
      modifies m`w, m`trail
      ensures Inv() && m.SameRules() && (f.Cut? ==> m.signals)
      ensures Trimmed(id, old(m.w), m.w) && EndKept(id, old(m.w), m.w)
      ensures f.Go? && !(dest.Keys <= DriveOf(old(m.w), id.disk).Keys) ==> m.w == old(m.w)
      ensures f.Go? && !m.flaky && dest.Keys <= DriveOf(m.w, id.disk).Keys ==> DropsExactly(id, old(m.w), m.w)
    {
      ghost var w0 := m.w;
      var vs :- DropCheck();
      f := Drop(vs);
      if f.Go? && !m.flaky && dest.Keys <= DriveOf(m.w, id.disk).Keys {
        DropEffect(id, w0, m.w, vs);
      }
    }

    method Carry(v: Verdict, ghost w0: World) returns (f: Flow<bool>)
      requires Inv() && Judged(w0, v) && Trimmed(id, w0, m.w)
      modifies m`w, m`trail
      ensures Inv() && m.SameRules() && (f.Cut? ==> m.signals)
      ensures Trimmed(id, old(m.w), m.w) && OnlyTarget(old(m.w), m.w, v)
      ensures EndKept(id, old(m.w), m.w)
      ensures f.Go? && !m.flaky && v.owner.None? ==> TargetGone(m.w, v)
      ensures Carried(old(m.w), m.w, v, f.Go? && !m.flaky)
    {
      if v.owner.Some? {
        f := ReleasePoint(v, w0);
      } else {
        f := DestroyTarget(v, w0);
      }
    }

    // ---- a run that did not end normally ------------------------------------

    /** Anchor what the drive holds, and tell which points must stay and which
        were renamed. */
    method UndoAnchors(names: set<Name>, drive: Drive) returns (f: Flow<(set<Name>, set<Name>)>)
      requires Inv() && drive == DriveOf(m.w, id.disk)
      requires names == set rel | rel in origin && Wanted(id, origin, rel)
      modifies m`w, m`trail
      ensures Inv() && m.SameRules() && (f.Cut? ==> m.signals)
      ensures m.w.drives == old(m.w.drives)
      ensures f.Go? ==> UndoPlan(id, m.w, names, f.value.0, f.value.1, !m.flaky) && ResumeKept(id, old(m.w), m.w)
      ensures f.Go? && !m.flaky ==> AllEndAnchored(id, m.w)
    {
      ghost var w0 := m.w;
      var at := set rel | rel in names && IsAtPoint(id, origin, drive, rel);
      AtPointHeld(id, w0, origin, started, pg, at);
      var failed :- AnchorAll(at);
      ghost var w1 := m.w;
      var _ :- AnchorHeld();
      UndoPlanned(id, w0, w1, m.w, origin, started, pg, names, at, failed, !m.flaky);
      OnlyAnchorsTransitive(id, w0, w1, m.w);
      AnchorsKeepPartial(id, w0, m.w, origin, started, pg);
      var partial := set rel | rel in names && rel in drive && drive[rel].token;
      var renamed := set rel | rel in names && rel in at && IsBpool(rel) && rel !in failed;
      f := Go((partial + failed, renamed));
    }

    /** What stays of the point, as far as the drive can be read. */
    method UndoPlanning(names: set<Name>) returns (f: Flow<(set<Name>, set<Name>)>)
      requires Inv() && names == set rel | rel in origin && Wanted(id, origin, rel)
      modifies m`w, m`trail
      ensures Inv() && m.SameRules() && (f.Cut? ==> m.signals)
      ensures m.w.drives == old(m.w.drives)
      ensures f.Go? ==> UndoPlan(id, m.w, names, f.value.0, f.value.1, !m.flaky) && ResumeKept(id, old(m.w), m.w)
      ensures f.Go? && !m.flaky ==> AllEndAnchored(id, m.w)
    {
      var rd :- m.ReadDrive();
      if rd.Some? {
        f := UndoAnchors(names, rd.value);
      } else {
        UnreadDrivePlanned(id, m.w, origin, started, pg, names);
        f := Go((started, {}));
      }
    }

    /** Remove one dataset's point, unless it must stay or is not there. */
    method UndoOne(rel: Name, names: set<Name>, kept: set<Name>, gone: set<Name>,
                   seen: Option<Origin>) returns (f: Flow<bool>)
      requires Inv() && UndoPlan(id, m.w, names, kept, gone, !m.flaky) && Seen(id, m.w, seen) && rel in names
      modifies m`w, m`trail
      ensures Inv() && m.SameRules() && (f.Cut? ==> m.signals)
      ensures m.w.drives == old(m.w.drives)
      ensures EndKept(id, old(m.w), m.w)
      ensures UndoPlan(id, m.w, names, kept, gone, !m.flaky) && Seen(id, m.w, seen)
      ensures NoneReturned(id, old(m.w), m.w) && (!m.flaky ==> ResumeKept(id, old(m.w), m.w))
      ensures f.Go? && !m.flaky ==> OnlyToResume(id, m.w, rel)
    {
      if rel in gone || rel in kept || (seen.Some? && !(rel in seen.value && id.PointName() in seen.value[rel].snaps)) {
        return Go(false);
      }
      ghost var w1 := m.w;
      assert Undoable(id, w1, rel);
      f := DoEnd(DestroySnap(rel, id.PointName()));
      UndoPlanStep(id, w1, m.w, names, kept, gone, !m.flaky, rel);
    }

    /** Undo the point of a run that did not end normally: anchor what the drive
        holds, then remove the point wherever no partial receive needs it. */
    method UndoPoint() returns (f: Flow<nat>)
      requires Inv()
      modifies m`w, m`trail
      ensures Inv() && m.SameRules() && (f.Cut? ==> m.signals)
      ensures m.w.drives == old(m.w.drives)
      ensures f.Go? && !m.flaky ==> PointUndone(id, m.w, pg) && ResumeKept(id, old(m.w), m.w)
      ensures f.Go? && !m.flaky ==> AllEndAnchored(id, m.w)
    {
      var names := set rel | rel in origin && Wanted(id, origin, rel);
      var plan :- UndoPlanning(names);
      var (kept, gone) := plan;
      var seen :- m.ReadOrigin();
      var q := Listing(names);
      var removed := 0;
      for i := 0 to |q|
        invariant Inv() && m.SameRules() && m.w.drives == old(m.w.drives)
        invariant UndoPlan(id, m.w, names, kept, gone, !m.flaky) && Seen(id, m.w, seen)
        invariant !m.flaky ==> Resumable(id, m.w, q[..i]) && ResumeKept(id, old(m.w), m.w) && AllEndAnchored(id, m.w)
      {
        assert q[i] in q;
        ghost var w1 := m.w;
        var ok :- UndoOne(q[i], names, kept, gone, seen);
        if !m.flaky {
          ResumeKeptTransitive(id, old(m.w), w1, m.w);
        }
        OneMore(id, w1, m.w, q, i, !m.flaky);
        removed := if ok then removed + 1 else removed;
      }
      f := Go(removed);
      assert q[..|q|] == q;
      if !m.flaky {
        AllUndone(id, m.w, origin, started, pg, q);
      }
    }

    // ---- the whole run -------------------------------------------------------

    /** The run ended by a drop that took exactly what was to go once everything was
        anchored. */
    ghost predicate Dropped()
      reads m
    {
      exists k: nat :: k < |m.trail| && AllEndAnchored(id, m.trail[k]) && DropsExactly(id, m.trail[k], m.w)
    }

    /** Anchor what reached the point, then drop what may go. */
    method Finish(ps: seq<Plan>) returns (f: Flow<set<Name>>)
      requires Sending() && origin == m.w.origin && dest == DriveOf(m.w, id.disk) && ArePlans(id, origin, dest, ps)
      modifies m`w, m`trail
      ensures Inv() && m.SameRules() && (f.Cut? ==> m.signals)
      ensures f.Go? && !m.flaky ==> PointUndone(id, m.w, pg)
      ensures f.Go? && !m.flaky ==> AllEndAnchored(id, m.w) && Dropped()
      ensures f.Go? ==> FailuresTold(id, m.w, pg, f.value) && (!m.flaky ==> f.value == {})
    {
      var at := set p | p in ps && p.state == AtPoint :: p.rel;
      ghost var w0 := m.w;
      PlansAtPoint(id, w0, origin, started, pg, ps, at);
      NoPlanGone(id, w0, ps, at);
      var failed :- AnchorAll(at);
      ghost var w1 := m.w;
      var _ :- AnchorHeld();
      ghost var w2, k := m.w, |m.trail| - 1;
      FinishAnchored(id, w0, w1, w2, at, failed, pg, !m.flaky);
      var _ :- DropPass();
      FailuresAreTold(id, w0, w2, m.w, started, pg, ps, at, failed, !m.flaky);
      if !m.flaky {
        DropLeaves(id, w0, w2, m.w, origin, started, pg, ps, at, failed);
        assert m.trail[k] == w2;
      }
      f := Go(failed);
    }

    /** Survey, let the user decide, transfer, verify, anchor and drop. Once it
        completes, what a calm drop leaves of the point is what an undo would. */
    method Replicate() returns (f: Flow<Result>)
      requires Early() && Sending() && bouts == [] && !containers
      modifies this`origin, this`dest, this`started, this`bouts, this`containers, this`ended
      modifies m`w, m`trail, m`log, m`decided
      ensures Inv() && m.SameRules() && (f.Cut? ==> m.signals)
      ensures m.log == old(m.log) + Streams(bouts) && AreBouts(id, bouts, containers) && |bouts| <= MAX_ROUNDS
      ensures f.Go? && !f.value.aborted && !f.value.unverified ==> BoutsEnded(id, bouts, ended, f.value.enospc)
      ensures f.Go? && !m.flaky ==> f.value.aborted == !m.willing && !f.value.unverified && f.value.anchorFailed == {}
      ensures f.Go? && !f.value.aborted && !f.value.unverified && !m.flaky ==> PointUndone(id, m.w, pg)
      ensures f.Go? && !f.value.aborted && !f.value.unverified && !m.flaky ==> AllEndAnchored(id, m.w) && Dropped()
      ensures f.Go? && f.value.aborted ==> Early() && Sending()
      ensures f.Go? && !f.value.aborted && !f.value.unverified ==> FailuresTold(id, m.w, pg, f.value.anchorFailed)
    {
      var ps :- Survey();
      if ps.None? {
        return Go(Result(true, false, false, {}));
      }
      var stale :- DiscardStalePartials(ps.value);
      if stale {
        ps :- Survey();
        if ps.None? {
          return Go(Result(true, false, false, {}));
        }
      }
      var go :- Decide();
      if !go {
        return Go(Result(true, false, false, {}));
      }
      f := TransferAll();
    }

    method TransferAll() returns (f: Flow<Result>)
      requires Early() && Sending() && bouts == [] && !containers
      modifies this`origin, this`dest, this`started, this`bouts, this`containers, this`ended
      modifies m`w, m`trail, m`log
      ensures Inv() && m.SameRules() && (f.Cut? ==> m.signals)
      ensures m.log == old(m.log) + Streams(bouts) && AreBouts(id, bouts, containers) && |bouts| <= MAX_ROUNDS
      ensures f.Go? ==> !f.value.aborted
      ensures f.Go? && !f.value.unverified ==> BoutsEnded(id, bouts, ended, f.value.enospc)
      ensures f.Go? && !f.value.unverified ==> FailuresTold(id, m.w, pg, f.value.anchorFailed)
      ensures f.Go? && !m.flaky ==> !f.value.unverified && f.value.anchorFailed == {}
      ensures f.Go? && !f.value.unverified && !m.flaky ==> PointUndone(id, m.w, pg)
      ensures f.Go? && !f.value.unverified && !m.flaky ==> AllEndAnchored(id, m.w) && Dropped()
    {
      var enospc :- Rounds();
      if enospc.None? {
        return Go(Result(false, true, false, {}));
      }
      var ps :- Survey();
      if ps.None? {
        return Go(Result(false, true, enospc.value, {}));
      }
      var failed :- Finish(ps.value);
      return Go(Result(false, false, enospc.value, failed));
    }

  }
}
