/** The shell a run works through: each command takes effect or fails, and the
    run may be stopped at any of them. */
module Machines {
  import opened Replication
  import opened Pools
  import opened Protocol
  import opened RunState

  /** What a step returns to the code after it, unless a signal stops the run
      there: `:-` then unwinds, as the exception does. */
  datatype Flow<+T> = Go(value: T) | Cut {
    predicate IsFailure() { Cut? }
    function PropagateFailure<U>(): Flow<U> requires Cut? { Cut }
    function Extract(): T requires Go? { value }
  }

  /** A command's effect and answer. A cut one may or may not have taken effect;
      without spurious failures it succeeds exactly when ZFS accepts it. */
  ghost predicate Ran(w: World, w': World, c: Cmd, f: Flow<bool>, flaky: bool, signals: bool) {
    && (w' == w || (Accepted(w, c) && w' == Apply(w, c)))
    && (f == Go(true) ==> Accepted(w, c) && w' == Apply(w, c))
    && (f == Go(false) ==> w' == w)
    && (f.Cut? ==> signals)
    && (!flaky && f.Go? ==> f.value == Accepted(w, c))
  }

  ghost predicate AllowedAt(r: RunId, t: seq<World>, i: nat)
    requires i + 1 < |t|
  {
    Allowed(r, t[i], t[i + 1])
  }

  /** Streams a receive can carry: origin's snapshots of the dataset; the point,
      which ends every stream, comes last and leaves nothing partial. */
  predicate IsStream(r: RunId, w: World, rel: Name, got: seq<Guid>, token: bool) {
    && rel in w.origin
    && (forall g :: g in got ==> exists n :: n in w.origin[rel].snaps && w.origin[rel].snaps[n].guid == g)
    && (r.PointName() in w.origin[rel].snaps ==>
          var g := w.origin[rel].snaps[r.PointName()].guid;
          (forall i :: 0 <= i < |got| && got[i] == g ==> i == |got| - 1) && (g in got ==> !token))
  }

  predicate EndsAtPoint(r: RunId, w: World, rel: Name, got: seq<Guid>) {
    && rel in w.origin && r.PointName() in w.origin[rel].snaps
    && got != [] && got[|got| - 1] == w.origin[rel].snaps[r.PointName()].guid
  }

  /** What a receive did: nothing, or some stream arrived. */
  ghost predicate Streamed(r: RunId, w: World, w': World, rel: Name) {
    w' == w || exists got, token ::
      IsStream(r, w, rel, got, token) && w' == Apply(w, Receive(r.disk, rel, got, token))
  }

  lemma StreamKeepsInv(r: RunId, w: World, w': World, rel: Name, cached: Origin, started: set<Name>,
                       pg: map<Name, Guid>)
    requires Streamed(r, w, w', rel) && RunInv(r, w, cached, started, pg) && SendingOk(r, w)
    requires rel in started && rel in pg && !Holds(w, r.disk, rel, pg[rel]) && Wanted(r, w.origin, rel)
    ensures RunInv(r, w', cached, started, pg) && SendingOk(r, w') && w'.origin == w.origin && OnlyCopy(r, w, w', rel)
  {
    if w' != w {
      var got, token :| IsStream(r, w, rel, got, token) && w' == Apply(w, Receive(r.disk, rel, got, token));
      assert PointOk(r, w, rel, pg) && HasPoint(r, w, rel);
      forall other | other in w.origin
        ensures NoKeepIn(r, w'.origin[other]) && HasPoint(r, w', other)
      {
        assert NoKeepIn(r, w.origin[other]) && HasPoint(r, w, other);
      }
      ReceiveKeepsInv(r, w, w', rel, got, token, cached, started, pg);
    }
  }

  function Guids(w: World): (all: set<Guid>) {
    (set disk, rel, k | disk in w.drives && rel in w.drives[disk] && 0 <= k < |w.drives[disk][rel].snaps| ::
       w.drives[disk][rel].snaps[k]) +
    (set rel, n | rel in w.origin && n in w.origin[rel].snaps :: w.origin[rel].snaps[n].guid) +
    (set rel, n | rel in w.origin && n in w.origin[rel].bookmarks :: w.origin[rel].bookmarks[n])
  }

  method Above(all: set<Guid>) returns (top: Guid)
    ensures forall g :: g in all ==> g < top
  {
    top := 0;
    var left := all;
    while left != {}
      invariant left <= all && forall g :: g in all - left ==> g < top
    {
      var g :| g in left;
      assert forall x :: x in all - (left - {g}) ==> x in all - left || x == g;
      left := left - {g};
      top := if g < top then top else g + 1;
    }
    assert all - left == all;
  }

  lemma AboveIsFresh(w: World, g: Guid)
    requires forall x :: x in Guids(w) ==> x < g
    ensures FreshGuid(w, g)
  {
    var all := Guids(w);
    forall disk, rel | disk in w.drives && rel in w.drives[disk]
      ensures g !in w.drives[disk][rel].snaps
    {
      var snaps := w.drives[disk][rel].snaps;
      assert forall k :: 0 <= k < |snaps| ==> snaps[k] in all;
    }
    forall rel, n | rel in w.origin && n in w.origin[rel].snaps
      ensures w.origin[rel].snaps[n].guid != g
    {
      assert w.origin[rel].snaps[n].guid in all;
    }
    forall rel, n | rel in w.origin && n in w.origin[rel].bookmarks
      ensures w.origin[rel].bookmarks[n] != g
    {
      assert w.origin[rel].bookmarks[n] in all;
    }
  }

  /** The guids ZFS draws for new snapshots: any that nothing has. */
  method DrawGuids(w: World, names: set<Name>) returns (guids: map<Name, Guid>)
    ensures guids.Keys == names && forall rel :: rel in guids ==> FreshGuid(w, guids[rel])
  {
    var top := Above(Guids(w));
    guids := map[];
    var left := names;
    while left != {}
      invariant left <= names && guids.Keys == names - left
      invariant forall rel :: rel in guids ==> FreshGuid(w, guids[rel])
    {
      var rel :| rel in left;
      var g: nat :| g >= top;
      AboveIsFresh(w, g);
      guids, left := guids[rel := g], left - {rel};
    }
  }

  /** How a stream ended. After a failure, whether a partial receive is left that can never
      be resumed. */
  datatype End = Arrived | NoSpace | Failed(stale: bool)

  /** A stream that was sent: onto which drive, and how it ended unless the run was stopped
      in it. */
  datatype Receipt = Receipt(rel: Name, resume: bool, drive: Drive, end: Option<End>)

  /** One run's view of the system. `trail` keeps every state it went through, `decided` the
      one the user's last decision left, `log` every stream. */
  class Machine {
    const run: RunId
    var w: World
    var flaky: bool    // commands and reads may fail for no reason ZFS gives
    var signals: bool  // the run may be stopped
    const willing: bool  // the user lets the backup go on
    ghost var log: seq<Receipt>
    ghost var trail: seq<World>
    ghost var decided: nat

    constructor (run: RunId, w: World, flaky: bool, signals: bool, willing: bool)
      ensures this.run == run && this.w == w && this.flaky == flaky && this.signals == signals
      ensures this.willing == willing
      ensures trail == [w] && decided == 0 && log == [] && Valid()
    {
      this.run, this.w, this.flaky, this.signals, this.willing := run, w, flaky, signals, willing;
      trail, decided, log := [w], 0, [];
    }

    ghost predicate Valid()
      reads this
    {
      && decided < |trail| && trail[|trail| - 1] == w
      && (forall i: nat :: i + 1 < |trail| ==> AllowedAt(run, trail, i))
      && (forall i: nat :: decided <= i && i + 1 < |trail| ==> SafeAt(run, trail, i))
    }

    /** What a caller may rely on about the fields no command touches. */
    twostate predicate SameRules()
      reads this
    {
      flaky == old(flaky) && signals == old(signals) && old(trail) <= trail
    }

    /** Every state since the user's decisions shares a base with the drive for
        every expected dataset that had one at any earlier of them. */
    lemma BaseKept(i: nat, j: nat, rel: Name)
      requires Valid() && decided <= i <= j < |trail|
      requires Wanted(run, trail[i].origin, rel) && HasBase(trail[i], run.disk, rel)
      ensures HasBase(trail[j], run.disk, rel)
    {
      var t := trail[decided..];
      forall k: nat | k + 1 < |t|
        ensures SafeAt(run, t, k)
      {
        assert SafeAt(run, trail, decided + k);
      }
      BasePreserved(run, t, i - decided, j - decided, rel);
    }

    /** And every one that origin could send on to at an earlier of them. */
    lemma NotSetBack(i: nat, j: nat, rel: Name)
      requires Valid() && decided <= i <= j < |trail|
      requires Wanted(run, trail[i].origin, rel) && SendsOn(trail[i], run.disk, rel)
      ensures SendsOn(trail[j], run.disk, rel)
    {
      var t := trail[decided..];
      forall k: nat | k + 1 < |t|
        ensures SafeAt(run, t, k)
      {
        assert SafeAt(run, trail, decided + k);
      }
      NeverSetBack(run, t, i - decided, j - decided, rel);
    }

    /** The states a run went through are a history of that run. */
    lemma IsHistory()
      requires Valid()
      ensures History(seq(|trail| - 1, _ => Some(run)), trail)
    {
      var who: seq<Option<RunId>> := seq(|trail| - 1, _ => Some(run));
      forall i: nat | i < |who|
        ensures HistoryAt(who, trail, i)
      {
        assert AllowedAt(run, trail, i);
      }
    }

    ghost method Record()
      requires decided < |trail| && Safe(run, trail[|trail| - 1], w)
      requires forall i: nat :: i + 1 < |trail| ==> AllowedAt(run, trail, i)
      requires forall i: nat :: decided <= i && i + 1 < |trail| ==> SafeAt(run, trail, i)
      modifies this`trail
      ensures Valid() && trail == old(trail) + [w]
    {
      var before := trail;
      trail := trail + [w];
      forall i: nat | i + 1 < |trail|
        ensures AllowedAt(run, trail, i) && (decided <= i ==> SafeAt(run, trail, i))
      {
        if i + 1 < |before| {
          assert AllowedAt(run, before, i);
          assert decided <= i ==> SafeAt(run, before, i);
        }
      }
    }

    /** One `zfs` command. What it demands is the run's safety argument: in this
        state, this command is one the run may issue. */
    method Zfs(c: Cmd) returns (f: Flow<bool>)
      requires Valid() && (Accepted(w, c) ==> Guard(run, w, c))
      modifies this`w, this`trail
      ensures Valid() && SameRules()
      ensures Ran(old(w), w, c, f, flaky, signals)
    {
      var cut: bool, fail: bool := *, *;
      ghost var before := w;
      if Accepted(w, c) && !(fail && (flaky || (cut && signals))) {
        w := Apply(w, c);
        f := Go(true);
        assert IsStep(run, before, w, c);
      } else {
        f := Go(false);
      }
      if cut && signals {
        f := Cut;
      }
      Record();
    }

    /** A change the user decided on, before anything is sent. */
    method Decision(c: Cmd) returns (f: Flow<bool>)
      requires Valid() && (Accepted(w, c) ==> DecisionGuard(run, w, c))
      modifies this`w, this`trail, this`decided
      ensures Valid() && SameRules()
      ensures Ran(old(w), w, c, f, flaky, signals)
    {
      var cut: bool, fail: bool := *, *;
      ghost var before, t := w, trail;
      if Accepted(w, c) && !(fail && (flaky || (cut && signals))) {
        w := Apply(w, c);
        f := Go(true);
        assert IsDecision(run, before, w, c);
      } else {
        f := Go(false);
      }
      if cut && signals {
        f := Cut;
      }
      trail, decided := trail + [w], |trail|;
      forall i: nat | i + 1 < |trail|
        ensures AllowedAt(run, trail, i)
      {
        if i + 1 < |t| {
          assert AllowedAt(run, t, i);
        }
      }
    }

    method ReadOrigin() returns (f: Flow<Option<Origin>>)
      ensures f.Cut? ==> signals
      ensures f.Go? && f.value.Some? ==> f.value.value == w.origin
      ensures f.Go? && !flaky ==> f.value.Some?
    {
      var cut: bool, fail: bool := *, *;
      f := if cut && signals then Cut else if fail && flaky then Go(None) else Go(Some(w.origin));
    }

    method ReadDrive() returns (f: Flow<Option<Drive>>)
      ensures f.Cut? ==> signals
      ensures f.Go? && f.value.Some? ==> f.value.value == DriveOf(w, run.disk)
      ensures f.Go? && !flaky ==> f.value.Some?
    {
      var cut: bool, fail: bool := *, *;
      f := if cut && signals then Cut else if fail && flaky then Go(None) else Go(Some(DriveOf(w, run.disk)));
    }

    /** `zfs get guid` of a snapshot and a bookmark: whether both exist and agree. */
    method SameGuid(rel: Name, snap: RefName, mark: RefName) returns (f: Flow<bool>)
      ensures f.Cut? ==> signals
      ensures f.Go? && (f.value || !flaky) ==>
        (f.value <==>
         && rel in w.origin && snap in w.origin[rel].snaps && mark in w.origin[rel].bookmarks
         && w.origin[rel].snaps[snap].guid == w.origin[rel].bookmarks[mark])
    {
      var cut: bool, fail: bool := *, *;
      if cut && signals {
        return Cut;
      }
      f := Go(
        && !(fail && flaky)
        && rel in w.origin && snap in w.origin[rel].snaps && mark in w.origin[rel].bookmarks
        && w.origin[rel].snaps[snap].guid == w.origin[rel].bookmarks[mark]);
    }

    /** `zfs send | zfs receive`: whatever it answers, some prefix of the stream
        may have arrived; when it succeeds the dataset is there, at the point
        unless the stream only resumed an earlier one. */
    method SendReceive(rel: Name, resume: bool) returns (f: Flow<End>)
      requires Valid() && Wanted(run, w.origin, rel)
      modifies this`w, this`trail, this`log
      ensures Valid() && SameRules()
      ensures f.Cut? ==> signals
      ensures Streamed(run, old(w), w, rel)
      ensures log == old(log) +
        [Receipt(rel, resume, DriveOf(old(w), run.disk), if f.Go? then Some(f.value) else None)]
      ensures f == Go(Arrived) ==> rel in DriveOf(w, run.disk)
      ensures f == Go(Arrived) && !resume && run.PointName() in w.origin[rel].snaps ==>
                Holds(w, run.disk, rel, w.origin[rel].snaps[run.PointName()].guid)
      ensures f == Go(Failed(true)) ==> rel in DriveOf(w, run.disk) && DriveOf(w, run.disk)[rel].token
    {
      var got: seq<Guid>, token: bool, end: End, cut: bool := *, *, *, *;
      ghost var before := w;
      if IsStream(run, w, rel, got, token)
         && (!end.Arrived? || (!token && (resume || EndsAtPoint(run, w, rel, got)))) {
        var c := Receive(run.disk, rel, got, token);
        w := Apply(w, c);
        assert IsStep(run, before, w, c);
      } else if end.Arrived? {
        end := Failed(true);
      }
      if end == Failed(true) && !(rel in DriveOf(w, run.disk) && DriveOf(w, run.disk)[rel].token) {
        end := Failed(false);
      }
      f := if cut && signals then Cut else Go(end);
      log := log + [Receipt(rel, resume, DriveOf(before, run.disk), if f.Go? then Some(f.value) else None)];
      Record();
    }
  }
}
