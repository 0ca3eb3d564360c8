/** Parents before children: the order of a round's transfers, and what a round did. */
module TransferOrder {
  import opened Replication
  import opened Pools
  import opened Protocol
  import opened RunState
  import opened Machines
  import opened Planning

  predicate HasFailedAncestor(rel: Name, failed: set<Name>) {
    exists k :: 0 < k < |rel| && rel[..k] in failed
  }

  method BlockedByParent(rel: Name, failed: set<Name>) returns (blocked: bool)
    ensures blocked == HasFailedAncestor(rel, failed)
  {
    var up := Parent(rel);
    while up != []
      invariant up <= rel && (up == [] || |up| < |rel|)
      invariant forall k :: |up| < k < |rel| ==> rel[..k] !in failed
      decreases |up|
    {
      assert up == rel[..|up|];
      if up in failed {
        return true;
      }
      up := Parent(up);
    }
    return false;
  }

  method Shallowest(left: set<Plan>) returns (p: Plan)
    requires left != {}
    ensures p in left && forall q :: q in left ==> |p.rel| <= |q.rel|
  {
    p :| p in left;
    var rest := left - {p};
    while rest != {}
      invariant rest <= left && p in left
      invariant forall q :: q in left - rest ==> |p.rel| <= |q.rel|
    {
      var q :| q in rest;
      rest := rest - {q};
      if |q.rel| < |p.rel| {
        p := q;
      }
    }
  }

  ghost predicate DistinctRels(ps: seq<Plan>) {
    forall i, j :: 0 <= i < j < |ps| ==> ps[i].rel != ps[j].rel
  }

  ghost predicate ByDepth(ps: seq<Plan>) {
    forall i, j :: 0 <= i < j < |ps| ==> |ps[i].rel| <= |ps[j].rel|
  }

  /** The plans, parents before children. */
  method DepthOrder(ps: set<Plan>) returns (q: seq<Plan>)
    requires forall p, r :: p in ps && r in ps && p.rel == r.rel ==> p == r
    ensures DistinctRels(q) && ByDepth(q)
    ensures forall p :: p in q <==> p in ps
  {
    q := [];
    var left := ps;
    while left != {}
      invariant left <= ps && forall p :: p in q <==> p in ps - left
      invariant DistinctRels(q) && ByDepth(q)
      invariant forall p, r :: p in q && r in left ==> |p.rel| <= |r.rel|
    {
      var p := Shallowest(left);
      assert forall j :: 0 <= j < |q| ==> q[j] in q;
      q, left := q + [p], left - {p};
    }
  }

  lemma SameRelSamePlan(ps: seq<Plan>, p: Plan, q: Plan)
    requires DistinctRels(ps) && p in ps && q in ps && p.rel == q.rel
    ensures p == q
  {
    var i :| 0 <= i < |ps| && ps[i] == p;
    var j :| 0 <= j < |ps| && ps[j] == q;
    assert i == j;
  }

  lemma NotARoot(r: RunId, origin: Origin, rel: Name)
    requires WellFormed(origin) && Wanted(r, origin, rel)
    ensures |rel| > 1
  {
    assert IsPlaced(origin, rel);
    var root := [rel[0]];
    assert root in STRUCTURAL;
    assert |rel| == 1 ==> rel == root;
  }

  /** The parent of an expected dataset is expected too, or a container. */
  lemma ParentExpected(r: RunId, origin: Origin, rel: Name)
    requires WellFormed(origin) && Wanted(r, origin, rel)
    ensures Parent(rel) in origin && (Parent(rel) in STRUCTURAL || Wanted(r, origin, Parent(rel)))
  {
    NotARoot(r, origin, rel);
    assert IsPlaced(origin, rel);
    var up := Parent(rel);
    assert forall i :: 0 <= i < |up| ==> up[i] == rel[i];
    assert Under(up, KEYSTORE) ==> Under(rel, KEYSTORE);
    assert forall top :: Under(up, top) ==> Under(rel, top);
  }

  /** How far a round got. `before` is the drive its survey read. */
  ghost predicate RoundState(before: Drive, now: Drive, todo: seq<Plan>, i: nat, failed: set<Name>) {
    && (forall rel :: rel in before ==> rel in now || rel in failed)
    && (forall j :: 0 <= j < i && j < |todo| && todo[j].state == New ==> todo[j].rel in now || todo[j].rel in failed)
  }

  /** What a round goes through: every plan that still needs a transfer. */
  ghost predicate IsTodo(r: RunId, origin: Origin, before: Drive, todo: seq<Plan>) {
    && DistinctRels(todo) && ByDepth(todo)
    && (forall p :: p in todo ==> Wanted(r, origin, p.rel) && p.state == PlanState(r, origin[p.rel], before, p.rel))
    && (forall p :: p in todo ==> NeedsSending(p.state))
    && (forall rel :: Wanted(r, origin, rel) && NeedsSending(PlanState(r, origin[rel], before, rel)) ==>
          Plan(rel, PlanState(r, origin[rel], before, rel)) in todo)
  }

  predicate NeedsSending(s: State) {
    s.New? || s.Resume? || s.Incremental? || s.ViaBookmark?
  }

  /** No expected dataset needs a transfer that needs no decision first. */
  ghost predicate NoneLeft(r: RunId, w: World) {
    forall rel :: Wanted(r, w.origin, rel) ==>
      !NeedsSending(PlanState(r, w.origin[rel], DriveOf(w, r.disk), rel))
  }

  predicate ContainersOn(origin: Origin, drive: Drive) {
    forall rel :: rel in STRUCTURAL && rel in origin ==> rel in drive
  }

  /** The parent of the next NEW dataset is on the drive, unless it failed. */
  lemma ParentThere(r: RunId, origin: Origin, before: Drive, now: Drive, todo: seq<Plan>, i: nat, failed: set<Name>)
    requires WellFormed(origin) && IsTodo(r, origin, before, todo) && i < |todo|
    requires RoundState(before, now, todo, i, failed) && ContainersOn(origin, now)
    requires todo[i].state == New && !HasFailedAncestor(todo[i].rel, failed)
    ensures Parent(todo[i].rel) in now
  {
    var rel := todo[i].rel;
    assert todo[i] in todo;
    ParentExpected(r, origin, rel);
    var up := Parent(rel);
    NotARoot(r, origin, rel);
    assert up == rel[..|rel| - 1] && up !in failed;
    if up !in STRUCTURAL && up !in before {
      assert PlanState(r, origin[up], before, up) == New && Plan(up, New) in todo;
      var j :| 0 <= j < |todo| && todo[j] == Plan(up, New);
      assert j < i;
    }
  }

  /** One transfer: a success leaves its dataset on the drive, a failure is
      noted, and no other dataset goes. */
  lemma RoundStep(before: Drive, now: Drive, next: Drive, todo: seq<Plan>, i: nat, failed: set<Name>, ok: bool)
    requires i < |todo| && RoundState(before, now, todo, i, failed)
    requires forall rel :: rel in now ==> rel in next || rel == todo[i].rel
    requires ok ==> todo[i].rel in next
    ensures RoundState(before, next, todo, i + 1, if ok then failed else failed + {todo[i].rel})
  {
  }

  predicate Made(order: seq<Name>, i: nat, origin: Origin, drive: Drive)
    requires i <= |order|
  {
    forall j :: 0 <= j < i && order[j] in origin ==> order[j] in drive
  }

  /** Each name's parent comes before it. */
  ghost predicate ParentsBefore(order: seq<Name>) {
    forall i :: 0 <= i < |order| && Parent(order[i]) != [] ==> Parent(order[i]) in order[..i]
  }

  lemma ContainersInOrder()
    ensures ParentsBefore(CONTAINERS)
  {
    assert CONTAINERS[0] == ["rpool"] && CONTAINERS[3] == ["bpool"];
    assert Parent(CONTAINERS[1]) == ["rpool"] && Parent(CONTAINERS[2]) == ["rpool"];
    assert Parent(CONTAINERS[4]) == ["bpool"];
  }

  /** The next name's parent is made, if it has one. */
  lemma ParentMade(order: seq<Name>, i: nat, origin: Origin, drive: Drive)
    requires i < |order| && WellFormed(origin)
    ensures ParentsBefore(order) && Made(order, i, origin, drive) && order[i] in origin ==>
      Parent(order[i]) == [] || Parent(order[i]) in drive
  {
    if ParentsBefore(order) && order[i] in origin && Parent(order[i]) != [] {
      assert IsPlaced(origin, order[i]);
      var j :| 0 <= j < i && order[..i][j] == Parent(order[i]);
      assert order[j] == Parent(order[i]);
    }
  }

  lemma MadeOne(order: seq<Name>, i: nat, origin: Origin, before: Drive, drive: Drive)
    requires i < |order| && before.Keys <= drive.Keys
    ensures Made(order, i, origin, before) && (order[i] in origin ==> order[i] in drive) ==>
      Made(order, i + 1, origin, drive)
  {
  }

  /** Where a round is: what it went through, and that what is ahead of it lacks
      the point. */
  ghost predicate RoundOk(r: RunId, w: World, before: Drive, todo: seq<Plan>, i: nat, failed: set<Name>,
                          pg: map<Name, Guid>, containers: bool) {
    && i <= |todo| && IsTodo(r, w.origin, before, todo)
    && RoundState(before, DriveOf(w, r.disk), todo, i, failed)
    && (containers ==> ContainersOn(w.origin, DriveOf(w, r.disk)))
    && (forall j :: i <= j < |todo| ==> todo[j].rel in pg && !Holds(w, r.disk, todo[j].rel, pg[todo[j].rel]))
  }

  lemma RoundStarts(r: RunId, w: World, ps: seq<Plan>, todo: seq<Plan>, started: set<Name>, pg: map<Name, Guid>,
                    containers: bool)
    requires RunInv(r, w, w.origin, started, pg) && Taken(r, w) && ArePlans(r, w.origin, DriveOf(w, r.disk), ps)
    requires DistinctRels(todo) && ByDepth(todo)
    requires forall p :: p in todo <==> p in ps && NeedsSending(p.state)
    requires containers ==> ContainersOn(w.origin, DriveOf(w, r.disk))
    ensures RoundOk(r, w, DriveOf(w, r.disk), todo, 0, {}, pg, containers)
    ensures InRound(r, w, DriveOf(w, r.disk), todo, [], [], pg, containers)
    ensures todo == [] ==> NoneLeft(r, w)
  {
    forall j | 0 <= j < |todo|
      ensures todo[j].rel in pg && !Holds(w, r.disk, todo[j].rel, pg[todo[j].rel])
    {
      assert todo[j] in todo;
      assert HasPoint(r, w, todo[j].rel);
      NotAtPoint(r, w, w.origin, started, pg, todo[j].rel);
    }
  }

  lemma RoundAdvances(r: RunId, w: World, w': World, before: Drive, todo: seq<Plan>, i: nat, failed: set<Name>,
                      ok: bool,
                      pg: map<Name, Guid>, containers: bool)
    requires RoundOk(r, w, before, todo, i, failed, pg, containers) && i < |todo|
    requires w'.origin == w.origin && OnlyCopy(r, w, w', todo[i].rel)
    requires ok ==> todo[i].rel in DriveOf(w', r.disk)
    ensures RoundOk(r, w', before, todo, i + 1, if ok then failed else failed + {todo[i].rel}, pg, containers)
  {
    assert todo[i] in todo;
    RoundStep(before, DriveOf(w, r.disk), DriveOf(w', r.disk), todo, i, failed, ok);
    forall j | i < j < |todo|
      ensures todo[j].rel in pg && !Holds(w', r.disk, todo[j].rel, pg[todo[j].rel])
    {
      assert todo[i].rel != todo[j].rel;
    }
  }

  lemma OnlyCopyTransitive(r: RunId, w: World, w1: World, w2: World, rel: Name)
    requires OnlyCopy(r, w, w1, rel) && OnlyCopy(r, w1, w2, rel)
    ensures OnlyCopy(r, w, w2, rel)
  {
  }

  lemma RoundNext(r: RunId, w: World, before: Drive, todo: seq<Plan>, i: nat, failed: set<Name>,
                  pg: map<Name, Guid>, containers: bool)
    requires RoundOk(r, w, before, todo, i, failed, pg, containers) && i < |todo| && WellFormed(w.origin)
    ensures Wanted(r, w.origin, todo[i].rel) && todo[i].rel in pg && !Holds(w, r.disk, todo[i].rel, pg[todo[i].rel])
    ensures todo[i].state == New && containers && !HasFailedAncestor(todo[i].rel, failed) ==>
      Parent(todo[i].rel) in DriveOf(w, r.disk)
  {
    assert todo[i] in todo;
    if todo[i].state == New && containers && !HasFailedAncestor(todo[i].rel, failed) {
      ParentThere(r, w.origin, before, DriveOf(w, r.disk), todo, i, failed);
    }
  }

  lemma PartialAborted(r: RunId, w: World, w1: World, w2: World, rel: Name)
    requires OnlyCopy(r, w, w1, rel)
    requires w2 == w1 || (Accepted(w1, AbortPartial(r.disk, rel)) && w2 == Apply(w1, AbortPartial(r.disk, rel)))
    ensures w2.origin == w1.origin && OnlyCopy(r, w, w2, rel)
  {
    OnlyCopyTransitive(r, w, w1, w2, rel);
  }

  /** The plans that still need a transfer, parents first. */
  method Todo(r: RunId, origin: Origin, drive: Drive, ps: seq<Plan>) returns (todo: seq<Plan>)
    requires ArePlans(r, origin, drive, ps)
    ensures DistinctRels(todo) && ByDepth(todo)
    ensures forall p :: p in todo <==> p in ps && NeedsSending(p.state)
  {
    var pending := set p | p in ps && Transferable(p.state) && p.state != AtPoint;
    forall p, q | p in pending && q in pending && p.rel == q.rel
      ensures p == q
    {
      SameRelSamePlan(ps, p, q);
    }
    todo := DepthOrder(pending);
  }

  // ---- what a round did -----------------------------------------------------------

  /** What became of a plan: passed over, or tried; `end` is how its stream ended unless the
      run was stopped in it, `discarded` that its partial receive was given up after it. */
  datatype Went = Skipped | Tried(end: Option<End>, discarded: bool) {
    predicate Reached() { Tried? && end == Some(Arrived) }
    predicate RanOut() { Tried? && end == Some(NoSpace) }
  }

  /** A resumed receive arrived, or was given up: what it needs now is planned afresh. */
  predicate AsksAgain(p: Plan, x: Went) {
    p.state == Resume && (x.Reached() || (x.Tried? && x.discarded))
  }

  function FailedIn(todo: seq<Plan>, outs: seq<Went>, n: nat): set<Name>
    requires n <= |outs| && n <= |todo|
  {
    set j | 0 <= j < n && !outs[j].Reached() :: todo[j].rel
  }

  /** How many of the first were tried. */
  function Count(outs: seq<Went>, n: nat): (c: nat)
    requires n <= |outs|
    ensures c <= n
  {
    if n == 0 then 0 else Count(outs, n - 1) + if outs[n - 1].Tried? then 1 else 0
  }

  /** Plan `j` was passed over exactly if it is NEW and an ancestor failed before it; else it
      has the next stream, and with every container made a NEW one's parent is there. */
  ghost predicate WentOn(todo: seq<Plan>, outs: seq<Went>, receipts: seq<Receipt>, j: nat, containers: bool)
    requires j < |outs| <= |todo|
  {
    && (outs[j].Skipped? <==> todo[j].state == New && HasFailedAncestor(todo[j].rel, FailedIn(todo, outs, j)))
    && (outs[j].Tried? ==>
          Count(outs, j) < |receipts| && IsSent(todo[j], outs[j], receipts[Count(outs, j)], containers))
  }

  ghost predicate IsSent(p: Plan, x: Went, receipt: Receipt, containers: bool) {
    && x.Tried? && receipt.rel == p.rel && receipt.resume == (p.state == Resume) && receipt.end == x.end
    && (p.state == New && containers ==> Parent(p.rel) in receipt.drive)
    && (x.discarded ==> p.state == Resume && x.end == Some(Failed(true)))
  }

  /** The streams of a round are those of the plans it tried, one each and in their order. */
  ghost predicate RoundRan(todo: seq<Plan>, outs: seq<Went>, receipts: seq<Receipt>, containers: bool) {
    && |outs| <= |todo| && |receipts| == Count(outs, |outs|)
    && forall j: nat {:trigger WentOn(todo, outs, receipts, j, containers)} :: j < |outs| ==>
         WentOn(todo, outs, receipts, j, containers)
  }

  lemma {:induction false} CountSame(outs: seq<Went>, x: Went, n: nat)
    requires n <= |outs|
    ensures Count(outs + [x], n) == Count(outs, n)
  {
    if n > 0 {
      CountSame(outs, x, n - 1);
    }
  }

  lemma FailedSame(todo: seq<Plan>, outs: seq<Went>, x: Went, n: nat)
    requires n <= |outs| < |todo|
    ensures FailedIn(todo, outs + [x], n) == FailedIn(todo, outs, n)
  {
    assert forall j :: 0 <= j < n ==> (outs + [x])[j] == outs[j];
  }

  lemma FailedNext(todo: seq<Plan>, outs: seq<Went>, x: Went)
    requires |outs| < |todo|
    ensures FailedIn(todo, outs + [x], |outs| + 1) ==
      FailedIn(todo, outs, |outs|) + if x.Reached() then {} else {todo[|outs|].rel}
  {
    var all, n := outs + [x], |outs|;
    FailedSame(todo, outs, x, n);
    assert all[n] == x;
  }

  /** One more plan. */
  lemma RanOne(todo: seq<Plan>, outs: seq<Went>, receipts: seq<Receipt>, containers: bool, x: Went, more: seq<Receipt>)
    requires RoundRan(todo, outs, receipts, containers) && |outs| < |todo|
    requires var p := todo[|outs|];
      && (x.Skipped? <==> p.state == New && HasFailedAncestor(p.rel, FailedIn(todo, outs, |outs|)))
      && if x.Skipped? then more == [] else |more| == 1 && IsSent(p, x, more[0], containers)
    ensures RoundRan(todo, outs + [x], receipts + more, containers)
  {
    var all, got, n := outs + [x], receipts + more, |outs|;
    CountSame(outs, x, n);
    forall j: nat | j < |all|
      ensures WentOn(todo, all, got, j, containers)
    {
      FailedSame(todo, outs, x, if j < n then j else n);
      CountSame(outs, x, if j < n then j else n);
      if j < n {
        assert WentOn(todo, outs, receipts, j, containers) && all[j] == outs[j];
      }
    }
  }

  /** What a round answers: whether space ran out, which ends it, and if not, whether another
      is asked for. */
  ghost predicate Answers(todo: seq<Plan>, outs: seq<Went>, again: bool, enospc: bool)
    requires |outs| <= |todo|
  {
    && (enospc <==> |outs| > 0 && outs[|outs| - 1].RanOut())
    && (forall j :: 0 <= j < |outs| - 1 ==> !outs[j].RanOut())
    && (!enospc ==> |outs| == |todo| && (again <==> exists j :: 0 <= j < |outs| && AsksAgain(todo[j], outs[j])))
  }

  /** What arrived is at the point, but for what was only resumed. */
  ghost predicate AtPointSoFar(r: RunId, w: World, todo: seq<Plan>, outs: seq<Went>, pg: map<Name, Guid>)
    requires |outs| <= |todo|
  {
    forall j :: 0 <= j < |outs| && outs[j].Reached() && todo[j].state != Resume ==>
      todo[j].rel in pg && Holds(w, r.disk, todo[j].rel, pg[todo[j].rel])
  }

  lemma AtPointNext(r: RunId, w: World, w': World, todo: seq<Plan>, outs: seq<Went>, x: Went, pg: map<Name, Guid>)
    requires |outs| < |todo| && DistinctRels(todo) && AtPointSoFar(r, w, todo, outs, pg)
    requires OnlyCopy(r, w, w', todo[|outs|].rel)
    requires x.Reached() && todo[|outs|].state != Resume ==>
      todo[|outs|].rel in pg && Holds(w', r.disk, todo[|outs|].rel, pg[todo[|outs|].rel])
    ensures AtPointSoFar(r, w', todo, outs + [x], pg)
  {
    var all := outs + [x];
    forall j | 0 <= j < |all| && all[j].Reached() && todo[j].state != Resume
      ensures todo[j].rel in pg && Holds(w', r.disk, todo[j].rel, pg[todo[j].rel])
    {
      if j < |outs| {
        assert all[j] == outs[j] && todo[j].rel != todo[|outs|].rel;
      }
    }
  }

  lemma AskedSoFar(todo: seq<Plan>, outs: seq<Went>, x: Went)
    requires |outs| < |todo|
    ensures (exists j :: 0 <= j < |outs + [x]| && AsksAgain(todo[j], (outs + [x])[j])) <==>
      (exists j :: 0 <= j < |outs| && AsksAgain(todo[j], outs[j])) || AsksAgain(todo[|outs|], x)
  {
    var all := outs + [x];
    assert all[|outs|] == x;
    if j :| 0 <= j < |outs| && AsksAgain(todo[j], outs[j]) {
      assert all[j] == outs[j];
    }
    if j :| 0 <= j < |all| && AsksAgain(todo[j], all[j]) {
      assert j < |outs| ==> all[j] == outs[j];
    }
  }

  // ---- steps of a round -------------------------------------------------------------

  /** Where a round is, and what it did so far. */
  ghost predicate InRound(r: RunId, w: World, before: Drive, todo: seq<Plan>, outs: seq<Went>, receipts: seq<Receipt>,
                          pg: map<Name, Guid>, containers: bool) {
    && |outs| <= |todo| && RoundRan(todo, outs, receipts, containers)
    && RoundOk(r, w, before, todo, |outs|, FailedIn(todo, outs, |outs|), pg, containers)
    && AtPointSoFar(r, w, todo, outs, pg)
    && if outs == [] then DriveOf(w, r.disk) == before else receipts != [] && receipts[0].drive == before
  }

  lemma InRoundNext(r: RunId, w: World, before: Drive, todo: seq<Plan>, outs: seq<Went>, receipts: seq<Receipt>,
                    pg: map<Name, Guid>, containers: bool)
    requires InRound(r, w, before, todo, outs, receipts, pg, containers) && |outs| < |todo|
    ensures var rel := todo[|outs|].rel; Wanted(r, w.origin, rel) && rel in pg && !Holds(w, r.disk, rel, pg[rel])
  {
    assert todo[|outs|] in todo;
  }

  /** What became of one plan: its stream, if it was not to be passed over, and where its
      dataset is then. */
  ghost predicate Became(r: RunId, p: Plan, failed: set<Name>, w: World, w': World, went: Went, more: seq<Receipt>,
                          pg: map<Name, Guid>) {
    && (went.Skipped? <==> p.state == New && HasFailedAncestor(p.rel, failed))
    && more == (if went.Skipped? then [] else [Receipt(p.rel, p.state == Resume, DriveOf(w, r.disk), went.end)])
    && (went.Tried? && went.discarded ==> p.state == Resume && went.end == Some(Failed(true)))
    && (went.Reached() ==> p.rel in DriveOf(w', r.disk))
    && (went.Reached() && p.state != Resume ==> p.rel in pg && Holds(w', r.disk, p.rel, pg[p.rel]))
  }

  /** Without random failures, what is left partial and can never be resumed is given up. */
  predicate GaveUp(p: Plan, went: Went) {
    went.Tried? ==> (went.discarded <==> p.state == Resume && went.end == Some(Failed(true)))
  }

  ghost predicate AllGaveUp(todo: seq<Plan>, outs: seq<Went>) {
    |outs| <= |todo| && forall j :: 0 <= j < |outs| ==> GaveUp(todo[j], outs[j])
  }

  lemma InRoundStep(r: RunId, w: World, w': World, before: Drive, todo: seq<Plan>, outs: seq<Went>,
                    receipts: seq<Receipt>, pg: map<Name, Guid>, containers: bool, went: Went, more: seq<Receipt>)
    requires InRound(r, w, before, todo, outs, receipts, pg, containers) && |outs| < |todo| && WellFormed(w.origin)
    requires Became(r, todo[|outs|], FailedIn(todo, outs, |outs|), w, w', went, more, pg)
    requires w'.origin == w.origin && OnlyCopy(r, w, w', todo[|outs|].rel)
    ensures InRound(r, w', before, todo, outs + [went], receipts + more, pg, containers)
  {
    var i, failed := |outs|, FailedIn(todo, outs, |outs|);
    RoundNext(r, w, before, todo, i, failed, pg, containers);
    RanOne(todo, outs, receipts, containers, went, more);
    FailedNext(todo, outs, went);
    AtPointNext(r, w, w', todo, outs, went, pg);
    RoundAdvances(r, w, w', before, todo, i, failed, went.Reached(), pg, containers);
  }

  /** So far nothing ran out of space, and another round is asked for or not. */
  ghost predicate Asked(todo: seq<Plan>, outs: seq<Went>, again: bool) {
    && |outs| <= |todo| && (forall j :: 0 <= j < |outs| ==> !outs[j].RanOut())
    && (again <==> exists j :: 0 <= j < |outs| && AsksAgain(todo[j], outs[j]))
  }

  /** What a round keeps count of: what failed, whether another round is asked for, and
      whether space ran out. */
  datatype Tally = Tally(failed: set<Name>, again: bool, enospc: bool)

  function Tallied(tally: Tally, p: Plan, went: Went): Tally {
    Tally(if went.Reached() then tally.failed else tally.failed + {p.rel},
          tally.again || AsksAgain(p, went), went.RanOut())
  }

  ghost predicate TurnsSay(todo: seq<Plan>, outs: seq<Went>, tally: Tally) {
    && |outs| <= |todo| && tally.failed == FailedIn(todo, outs, |outs|)
    && if tally.enospc then Answers(todo, outs, tally.again, true) else Asked(todo, outs, tally.again)
  }

  lemma RoundGrows(todo: seq<Plan>, outs: seq<Went>, tally: Tally, went: Went)
    requires |outs| < |todo| && TurnsSay(todo, outs, tally) && !tally.enospc
    ensures TurnsSay(todo, outs + [went], Tallied(tally, todo[|outs|], went))
    ensures AllGaveUp(todo, outs) && GaveUp(todo[|outs|], went) ==> AllGaveUp(todo, outs + [went])
  {
    FailedNext(todo, outs, went);
    AskedSoFar(todo, outs, went);
  }

  // ---- all the rounds -------------------------------------------------------------

  /** What a round answers: whether another is asked for, and whether space ran out. */
  datatype Sent = Sent(again: bool, enospc: bool)

  /** What a round found: origin or the drive unreadable, nothing left to send, or how the
      sends went. */
  datatype Next = Unread | NothingLeft | Did(sent: Sent)

  /** The first of these streams was sent onto this drive. */
  predicate OntoDrive(receipts: seq<Receipt>, drive: Drive) {
    receipts != [] ==> receipts[0].drive == drive
  }

  /** One round: the state its survey read, its plans, what became of them, its streams. */
  datatype Bout = Bout(at: World, todo: seq<Plan>, outs: seq<Went>, receipts: seq<Receipt>)

  ghost predicate BoutOk(r: RunId, b: Bout, containers: bool) {
    && IsTodo(r, b.at.origin, DriveOf(b.at, r.disk), b.todo) && b.todo != []
    && RoundRan(b.todo, b.outs, b.receipts, containers)
    && OntoDrive(b.receipts, DriveOf(b.at, r.disk))
  }

  /** A round's answer, when it came to one. */
  ghost predicate Said(b: Bout, sent: Sent) {
    |b.outs| <= |b.todo| && Answers(b.todo, b.outs, sent.again, sent.enospc)
  }

  ghost predicate Found(r: RunId, w: World, next: Next, bout: Option<Bout>) {
    match next
    case Unread => bout.None?
    case NothingLeft => bout.None? && NoneLeft(r, w)
    case Did(sent) => bout.Some? && Said(bout.value, sent)
  }

  function Streams(bouts: seq<Bout>): seq<Receipt> {
    if bouts == [] then [] else Streams(bouts[..|bouts| - 1]) + bouts[|bouts| - 1].receipts
  }

  ghost predicate AllGoOn(bouts: seq<Bout>) {
    forall k :: 0 <= k < |bouts| ==> Said(bouts[k], Sent(true, false))
  }

  /** The rounds so far: each complete for what its survey read, and each but the last asked
      for another, with space left. */
  ghost predicate AreBouts(r: RunId, bouts: seq<Bout>, containers: bool) {
    && (forall b :: b in bouts ==> BoutOk(r, b, containers))
    && (bouts != [] ==> AllGoOn(bouts[..|bouts| - 1]))
  }

  function WithBout(bouts: seq<Bout>, bout: Option<Bout>): seq<Bout> {
    if bout.Some? then bouts + [bout.value] else bouts
  }

  lemma BoutsGrow(r: RunId, bouts: seq<Bout>, bout: Option<Bout>, containers: bool)
    requires AreBouts(r, bouts, containers) && AllGoOn(bouts)
    requires bout.Some? ==> BoutOk(r, bout.value, containers)
    ensures AreBouts(r, WithBout(bouts, bout), containers)
    ensures Streams(WithBout(bouts, bout)) == Streams(bouts) + if bout.Some? then bout.value.receipts else []
  {
    if bout.Some? {
      assert (bouts + [bout.value])[..|bouts|] == bouts;
    }
  }

  /** After `round` rounds, the last of which found `last`. */
  ghost predicate Stands(r: RunId, w: World, bouts: seq<Bout>, round: nat, last: Next) {
    match last
    case Unread => true
    case NothingLeft => AllGoOn(bouts) && NoneLeft(r, w)
    case Did(sent) =>
      && |bouts| == round && (round == 0 ==> sent == Sent(true, false))
      && (round > 0 ==> AllGoOn(bouts[..round - 1]) && Said(bouts[round - 1], sent))
  }

  lemma AllAsked(r: RunId, w: World, bouts: seq<Bout>, round: nat, last: Next)
    requires Stands(r, w, bouts, round, last) && last == Did(Sent(true, false))
    ensures AllGoOn(bouts) && |bouts| == round
  {
  }

  lemma RoundStands(r: RunId, w: World, bouts: seq<Bout>, bout: Option<Bout>, round: nat, next: Next)
    requires AllGoOn(bouts) && |bouts| == round && Found(r, w, next, bout)
    ensures Stands(r, w, WithBout(bouts, bout), round + 1, next)
  {
    if bout.Some? {
      assert (bouts + [bout.value])[..round] == bouts;
    }
  }

  /** They ended: nothing was left to send when the run was at `w`, or three were done, or the
      last one asked for no more or ran out of space. Before that none did. */
  ghost predicate BoutsEnded(r: RunId, bouts: seq<Bout>, w: World, enospc: bool) {
    && |bouts| <= 3 && (bouts != [] ==> AllGoOn(bouts[..|bouts| - 1]))
    && ((!enospc && AllGoOn(bouts) && NoneLeft(r, w))
        || (bouts != [] && exists again :: Said(bouts[|bouts| - 1], Sent(again, enospc))
                                           && (|bouts| == 3 || !again || enospc)))
  }

  lemma RoundsEnd(r: RunId, w: World, bouts: seq<Bout>, round: nat, last: Next)
    requires Stands(r, w, bouts, round, last) && |bouts| <= round <= 3 && !last.Unread?
    requires last.Did? ==> round == 3 || !last.sent.again || last.sent.enospc
    ensures BoutsEnded(r, bouts, w, last.Did? && last.sent.enospc)
  {
    if last.Did? {
      assert Said(bouts[|bouts| - 1], Sent(last.sent.again, last.sent.enospc));
    }
  }
}
