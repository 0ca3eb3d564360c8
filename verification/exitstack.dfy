/** The whole run with its exit stack: what a run that is stopped, aborted or
    fails leaves to its cleanup, and how often the point is undone. */
module ExitStack {
  import opened Replication
  import opened Pools
  import opened Protocol
  import opened RunState
  import opened Machines
  import opened Undoing
  import opened Engine

  /** The two actions of a run, and those others track. */
  datatype Action = ResumeSanoid | UndoThePoint | AnotherAction(n: nat)

  function Reversed(s: seq<Action>): seq<Action> {
    if s == [] then [] else Reversed(s[1..]) + [s[0]]
  }

  lemma {:induction false} InReversed(s: seq<Action>)
    ensures forall a :: a in Reversed(s) <==> a in s
  {
    if s != [] {
      InReversed(s[1..]);
      assert s == [s[0]] + s[1..];
    }
  }

  function Without(s: seq<Action>, a: Action): seq<Action> {
    if s == [] then [] else if s[0] == a then s[1..] else [s[0]] + Without(s[1..], a)
  }

  lemma {:induction false} WithoutOne(s: seq<Action>, a: Action)
    requires AllDifferent(s)
    ensures AllDifferent(Without(s, a)) && forall b :: b in Without(s, a) <==> b in s && b != a
  {
    if s != [] {
      assert s == [s[0]] + s[1..];
      assert AllDifferent(s[1..]) by {
        assert forall i :: 0 <= i < |s[1..]| ==> s[1..][i] == s[i + 1];
      }
      if s[0] == a {
        assert forall b :: b in s[1..] ==> b != a;
      } else {
        WithoutOne(s[1..], a);
        assert forall b :: b in s[1..] ==> b != s[0];
        PrependDiffers(s[0], Without(s[1..], a));
      }
    }
  }

  lemma PrependDiffers(a: Action, s: seq<Action>)
    requires AllDifferent(s) && a !in s
    ensures AllDifferent([a] + s)
  {
    forall i, j | 0 <= i < j < |[a] + s|
      ensures ([a] + s)[i] != ([a] + s)[j]
    {
      assert s[j - 1] in s;
    }
  }

  /** Actions to run when the command ends, newest first. */
  class Cleanup {
    var actions: seq<Action>

    constructor ()
      ensures actions == [] && Valid()
    {
      actions := [];
    }

    ghost predicate Valid()
      reads this
    {
      AllDifferent(actions)
    }

    method TrackAction(a: Action)
      requires Valid()
      modifies this
      ensures Valid() && actions == if a in old(actions) then old(actions) else old(actions) + [a]
    {
      if a !in actions {
        actions := actions + [a];
      }
    }

    method UntrackAction(a: Action)
      requires Valid()
      modifies this
      ensures Valid() && actions == Without(old(actions), a)
      ensures forall b :: b in actions <==> b in old(actions) && b != a
    {
      WithoutOne(actions, a);
      actions := Without(actions, a);
    }
  }

  /** How the run ended: it returned, or an exception went on. */
  datatype Ending = Returned(res: Result) | Raised

  predicate Completed(e: Ending) {
    e.Returned? && !e.res.aborted
  }

  /** One command: its run, its cleanup, and what is counted of them. */
  class Session {
    const run: Run
    const m: Machine
    const cleanup: Cleanup
    const calm: bool          // an undo meets no spurious failure
    const pauses: bool        // sanoid stops when asked to
    const copies: bool        // what is done before the point succeeds
    ghost var undos: nat      // how often the point was undone
    ghost var resumes: nat    // how often sanoid's timer was resumed
    ghost var atPoint: bool   // the run came as far as taking its point
    ghost var taken: bool     // it took its point on every expected dataset
    ghost var aborted: bool   // the run gave up and undid its point itself
    ghost var undoCut: bool   // an undo was itself stopped
    ghost var ran: seq<Action>  // what the cleanup ran, in order

    constructor (m: Machine, calm: bool, pauses: bool, copies: bool)
      requires m.Valid() && FreshStamp(m.run, m.w) && WellFormed(m.w.origin)
      ensures this.m == m && this.calm == calm && this.pauses == pauses && this.copies == copies
      ensures fresh(run) && fresh(cleanup)
      ensures Ready() && cleanup.actions == []
    {
      this.m, this.calm, this.pauses, this.copies := m, calm, pauses, copies;
      run := new Run(m);
      cleanup := new Cleanup();
      undos, resumes, atPoint, ran := 0, 0, false, [];
      taken, aborted, undoCut := false, false, false;
    }

    ghost predicate Valid()
      reads this, run, m, cleanup
    {
      run.m == m && run.Inv() && cleanup.Valid()
    }

    ghost predicate Ready()
      reads this, run, m, cleanup
    {
      && Valid() && run.Early() && Unnamed()
      && run.pg == map[] && run.bouts == [] && !run.containers
      && UndoThePoint !in cleanup.actions && undos == 0 && resumes == 0
      && !atPoint && !taken && !aborted && !undoCut
    }

    /** Nothing in origin is named after this run. */
    ghost predicate Unnamed()
      reads this, run, m
    {
      FreshStamp(run.id, m.w)
    }

    /** The point was undone to the end with nothing in the way. */
    ghost predicate Undone()
      reads this, run, m
    {
      calm && !undoCut ==> IsUndone()
    }

    ghost predicate IsUndone()
      reads this, run, m
    {
      PointUndone(run.id, m.w, run.pg)
    }

    /** An undo that did nothing left the point as it was: no dataset had it but for a
        partial receive, or it was not undone. */
    ghost predicate PointAsBefore()
      reads this, run, m
    {
      && (IsUndone() <==> AllToResume(run.id, m.w))
      && (taken ==> Taken(run.id, m.w))
    }

    /** With `stop`, a signal comes as the undo begins, if any can. */
    method Undo(stop: bool) returns (f: Flow<nat>)
      requires Valid()
      modifies this`undos, this`undoCut, m`w, m`trail, m`flaky
      ensures Valid() && undos == old(undos) + 1 && old(m.trail) <= m.trail && m.signals == old(m.signals)
      ensures f.Cut? ==> m.signals && undoCut
      ensures f.Go? ==> undoCut == old(undoCut) && Undone()
      ensures stop && m.signals ==> f.Cut? && m.w == old(m.w)
    {
      undos := undos + 1;
      if stop && m.signals {
        undoCut := true;
        return Cut;
      }
      m.flaky := !calm;
      f := run.UndoPoint();
      undoCut := undoCut || f.Cut?;
    }

    /** An aborted run undoes its point itself. Nothing is tracked for it any more, so a
        signal during this undo leaves the rest of the point. */
    method Abort(res: Result, stop: bool) returns (e: Ending)
      requires Valid() && run.Early() && res.aborted && undos == 0 && !undoCut
      requires taken ==> Taken(run.id, m.w)
      modifies this`undos, this`undoCut, this`aborted, cleanup, m`w, m`trail, m`flaky
      ensures Valid() && undos == 1 && aborted && !Completed(e) && UndoThePoint !in cleanup.actions && Undone()
      ensures undoCut ==> m.signals && e == Raised
      ensures e.Raised? ==> m.signals
      ensures stop && m.signals ==> undoCut && PointAsBefore()
      ensures old(m.trail) <= m.trail && m.signals == old(m.signals)
      ensures forall a :: a != UndoThePoint ==> (a in cleanup.actions <==> a in old(cleanup.actions))
    {
      cleanup.UntrackAction(UndoThePoint);
      UnheldUndone(run.id, m.w, run.pg);
      aborted := true;
      var f := Undo(stop);
      e := if f.Cut? then Raised else Returned(res);
    }

    /** The point is taken: replicate, and undo it if that was aborted. */
    method AfterPoint(stop: bool) returns (e: Ending)
      requires Valid() && run.Early() && run.Sending() && run.bouts == [] && !run.containers
      requires UndoThePoint in cleanup.actions && undos == 0 && taken && !aborted && !undoCut
      modifies this`undos, this`undoCut, this`aborted
      modifies cleanup, run, m`w, m`trail, m`decided, m`log, m`flaky
      ensures Valid() && old(m.trail) <= m.trail && m.signals == old(m.signals)
      ensures undos + (if UndoThePoint in cleanup.actions then 1 else 0) == (if Completed(e) then 0 else 1)
      ensures e.Returned? ==> UndoThePoint !in cleanup.actions
      ensures forall a :: a != UndoThePoint ==> (a in cleanup.actions <==> a in old(cleanup.actions))
      ensures (aborted <==> undos == 1) && (aborted ==> Undone()) && (undoCut ==> aborted && m.signals && e == Raised)
      ensures aborted && stop && m.signals ==> undoCut && PointAsBefore()
      ensures e.Raised? ==> m.signals
      ensures e.Returned? && !old(m.flaky) ==> Completed(e) == m.willing && (Completed(e) ==> !e.res.unverified)
    {
      var done := run.Replicate();
      var cut: bool := *;
      if done.Cut? || (cut && m.signals) {
        return Raised;  // stopped in it, or just after it
      }
      if done.value.aborted {
        e := Abort(done.value, stop);
      } else {
        cleanup.UntrackAction(UndoThePoint);
        e := Returned(done.value);
      }
    }

    /** From the point on: whatever way this ends, the undo is tracked until it
        was run or is not needed. */
    method FromPoint(stop: bool) returns (e: Ending)
      requires Ready()
      modifies this`undos, this`undoCut, this`atPoint, this`taken, this`aborted
      modifies cleanup, run, m`w, m`trail, m`decided, m`log, m`flaky
      ensures Valid() && old(m.trail) <= m.trail && m.signals == old(m.signals) && atPoint && resumes == old(resumes)
      ensures undos + (if UndoThePoint in cleanup.actions then 1 else 0) == (if Completed(e) then 0 else 1)
      ensures e.Returned? ==> UndoThePoint !in cleanup.actions
      ensures forall a :: a != UndoThePoint ==> (a in cleanup.actions <==> a in old(cleanup.actions))
      ensures (aborted <==> undos == 1) && (aborted ==> Undone()) && (undoCut ==> aborted && m.signals && e == Raised)
      ensures aborted && stop && m.signals ==> undoCut && PointAsBefore()
      ensures e.Raised? ==> m.signals
      ensures e.Returned? && !old(m.flaky) ==> Completed(e) == m.willing && (Completed(e) ==> !e.res.unverified)
    {
      cleanup.TrackAction(UndoThePoint);
      atPoint := true;
      var took := run.TakePoint();
      if took.Cut? {
        return Raised;
      }
      if took.value {
        taken := true;
        e := AfterPoint(stop);
      } else {
        e := Abort(Result(true, false, false, {}), stop);
      }
    }

    /** The whole run: pause sanoid, take the point, replicate, resume. */
    method Execute(stop: bool) returns (e: Ending)
      requires Ready() && ResumeSanoid !in cleanup.actions
      modifies this, cleanup, run, m
      ensures Valid() && old(m.trail) <= m.trail && resumes == 1 && ran == old(ran)
      ensures ResumeSanoid !in cleanup.actions && (UndoThePoint in cleanup.actions ==> e == Raised)
      ensures forall n :: AnotherAction(n) in cleanup.actions <==> AnotherAction(n) in old(cleanup.actions)
      ensures undos + (if UndoThePoint in cleanup.actions then 1 else 0) == (if atPoint && !Completed(e) then 1 else 0)
      ensures (aborted <==> undos == 1) && (aborted ==> atPoint && Undone())
      ensures undoCut ==> aborted && old(m.signals) && e == Raised
      ensures aborted && stop && old(m.signals) ==> undoCut && PointAsBefore()
      ensures !atPoint ==> Unnamed() && !Completed(e)
      ensures e.Raised? ==> old(m.signals)
      ensures e.Returned? && !old(m.flaky) ==> Completed(e) == (pauses && copies && m.willing)
      ensures Completed(e) && !old(m.flaky) ==> !e.res.unverified
    {
      cleanup.TrackAction(ResumeSanoid);
      var cut: bool := *;
      if cut && m.signals {
        e := Raised;
      } else if !pauses || !copies {
        e := Returned(Result(true, false, false, {}));
      } else {
        e := FromPoint(stop);
      }
      cleanup.UntrackAction(ResumeSanoid);
      resumes := resumes + 1;
    }

    /** One action of the cleanup. */
    method RunAction(a: Action)
      requires Valid() && !m.signals
      modifies this`undos, this`undoCut, this`resumes, this`ran, m
      ensures Valid() && old(m.trail) <= m.trail && !m.signals && ran == old(ran) + [a]
      ensures undos == old(undos) + (if a == UndoThePoint then 1 else 0)
      ensures resumes == old(resumes) + (if a == ResumeSanoid then 1 else 0)
      ensures if a == UndoThePoint then old(!undoCut) ==> !undoCut && Undone()
              else undoCut == old(undoCut) && m.w == old(m.w) && Undone() == old(Undone())
    {
      ran := ran + [a];
      if a == UndoThePoint {
        var _ := Undo(false);
      } else if a == ResumeSanoid {
        resumes := resumes + 1;
      }
    }

    /** What runs at exit, the exit signals ignored: each action, newest first. */
    method RunCleanup()
      requires Valid()
      modifies this`undos, this`undoCut, this`resumes, this`ran, cleanup, m
      ensures Valid() && old(m.trail) <= m.trail && cleanup.actions == []
      ensures ran == old(ran) + Reversed(old(cleanup.actions))
      ensures undos == old(undos) + (if UndoThePoint in old(cleanup.actions) then 1 else 0)
      ensures resumes == old(resumes) + (if ResumeSanoid in old(cleanup.actions) then 1 else 0)
      ensures if UndoThePoint in old(cleanup.actions) then old(!undoCut) ==> !undoCut && Undone()
              else undoCut == old(undoCut) && m.w == old(m.w)
    {
      m.signals := false;
      var actions := cleanup.actions;
      cleanup.actions := [];
      var i := |actions|;
      while i > 0
        invariant 0 <= i <= |actions| && Valid() && old(m.trail) <= m.trail && cleanup.actions == [] && !m.signals
        invariant ran == old(ran) + Reversed(actions[i..])
        invariant undos == old(undos) + (if UndoThePoint in actions[i..] then 1 else 0)
        invariant resumes == old(resumes) + (if ResumeSanoid in actions[i..] then 1 else 0)
        invariant if UndoThePoint in actions[i..] then old(!undoCut) ==> !undoCut && Undone()
                  else undoCut == old(undoCut) && m.w == old(m.w)
      {
        i := i - 1;
        assert actions[i..] == [actions[i]] + actions[i + 1..];
        RunAction(actions[i]);
      }
      assert actions[0..] == actions;
    }

    /** The command from start to exit. The point is undone exactly once when the
        run came to take it and did not complete, and never otherwise; undone
        calmly, it is left only where a partial receive needs it, and what the
        drive holds of it is anchored. That can fail in one way: the run aborted
        and a signal stopped the undo it had begun itself. */
    method Command(stop: bool) returns (e: Ending)
      requires Ready() && ResumeSanoid !in cleanup.actions
      modifies this, cleanup, run, m
      ensures Valid() && old(m.trail) <= m.trail && cleanup.actions == []
      ensures undos == (if atPoint && !Completed(e) then 1 else 0)
      ensures undos == 1 && calm && (!aborted || !old(m.signals) || e.Returned?) ==> IsUndone()
      ensures old(ran) <= ran
      ensures aborted && stop && old(m.signals) ==>
        e == Raised && UndoThePoint !in ran[|old(ran)|..] && PointAsBefore()
      ensures !atPoint ==> Unnamed()
      ensures resumes >= 1
      ensures !old(m.signals) ==> e.Returned?
      ensures e.Returned? && !old(m.flaky) ==> Completed(e) == (pauses && copies && m.willing)
      ensures Completed(e) && !old(m.flaky) ==> !e.res.unverified
    {
      e := Execute(stop);
      ghost var tracked := cleanup.actions;
      RunCleanup();
      InReversed(tracked);
    }
  }
}
