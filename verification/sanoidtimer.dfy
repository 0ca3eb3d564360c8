/** sanoid's timer across runs, kills, power cuts and boots: every command a step, the
    user free to start and stop the timer between any two of them. */
module SanoidTimer {

  /** Where the process that holds zark's lock is. A run: asked whether the timer is
      active; about to write the marker, to stop the timer; paused, with the flag that
      makes it start the timer again; about to start it, to remove the marker. */
  datatype Phase =
    | Idle
    | Asked(wasActive: bool)
    | WillMark
    | WillStop
    | Paused(flag: bool)
    | WillStart
    | WillUnlink
    | CleanAsked(wasActive: bool)

  /** The timer, the marker in /run, the live process; `ours` remembers that the timer is
      down because zark stopped it. */
  datatype State = State(active: bool, marker: bool, phase: Phase, ours: bool)

  datatype Event =
    | Ask
    | Look
    | Write
    | Stop(ok: bool)
    | Resume
    | Start(ok: bool)
    | Unlink
    | CleanAsk
    | CleanLook
    | Interrupt
    | Kill
    | Boot(enabled: bool)
    | UserStart
    | UserStop

  const FRESH := State(true, false, Idle, false)

  /** Whether the process will start the timer when it ends. */
  predicate Flagged(p: Phase) {
    p.WillMark? || p.WillStop? || (p.Paused? && p.flag)
  }

  predicate Enabled(s: State, e: Event) {
    match e
    case Ask => s.phase == Idle
    case Look => s.phase.Asked?
    case Write => s.phase == WillMark
    case Stop(_) => s.phase == WillStop
    case Resume => s.phase.Paused?
    case Start(_) => s.phase == WillStart
    case Unlink => s.phase == WillUnlink
    case CleanAsk => s.phase == Idle
    case CleanLook => s.phase.CleanAsked?
    case Interrupt => s.phase.Asked? || s.phase.WillMark? || s.phase.WillStop? || s.phase.Paused?
    case _ => true
  }

  function Next(s: State, e: Event): State
    requires Enabled(s, e)
  {
    match e
    case Ask => s.(phase := Asked(s.active))
    case Look => s.(phase := if s.phase.wasActive then WillMark else Paused(s.marker))
    case Write => s.(marker := true, phase := WillStop)
    case Stop(ok) => if ok && s.active then State(false, s.marker, Paused(true), true) else s.(phase := Paused(true))
    case Resume => s.(phase := if s.phase.flag then WillStart else Idle)
    case Start(ok) => if ok then State(true, s.marker, WillUnlink, false) else s.(phase := Idle)
    case Unlink => s.(marker := false, phase := Idle)
    case CleanAsk => s.(phase := CleanAsked(s.active))
    case CleanLook => s.(phase := if s.marker && !s.phase.wasActive then WillStart else Idle)
    case Interrupt => s.(phase := if Flagged(s.phase) then WillStart else Idle)
    case Kill => s.(phase := Idle)
    case Boot(enabled) => State(enabled, false, Idle, false)
    case UserStart => s.(active := true, ours := false)
    case UserStop => s.(active := false)
  }

  /** Some events, one after another. */
  ghost predicate Steps(s: State, es: seq<Event>, t: State)
    decreases |es|
  {
    if es == [] then t == s else Enabled(s, es[0]) && Steps(Next(s, es[0]), es[1..], t)
  }

  ghost predicate Reachable(t: State) {
    exists es :: Steps(FRESH, es, t)
  }

  // ---- a timer zark stopped is never lost ---------------------------------------------

  predicate Covered(s: State) {
    && (s.ours ==> !s.active && s.marker)
    && (s.phase == WillStop ==> s.marker)
    && (s.phase == WillUnlink ==> !s.ours)
  }

  lemma NextCovered(s: State, e: Event)
    requires Covered(s) && Enabled(s, e)
    ensures Covered(Next(s, e))
  {
  }

  lemma {:induction false} StepsCovered(s: State, es: seq<Event>, t: State)
    requires Covered(s) && Steps(s, es, t)
    ensures Covered(t)
    decreases |es|
  {
    if es != [] {
      NextCovered(s, es[0]);
      StepsCovered(Next(s, es[0]), es[1..], t);
    }
  }

  /** In every reachable state a timer that zark stopped is down, and the marker says so. */
  lemma NeverLost(s: State)
    requires Reachable(s)
    ensures s.ours ==> !s.active && s.marker
  {
    var es :| Steps(FRESH, es, s);
    StepsCovered(FRESH, es, s);
  }

  const NEXT_RUN: seq<Event> := [Ask, Look, Resume, Start(true), Unlink]
  const CLEAN: seq<Event> := [CleanAsk, CleanLook, Start(true), Unlink]

  lemma StepsOne(s: State, e: Event, es: seq<Event>, t: State)
    requires Enabled(s, e) && Steps(Next(s, e), es, t)
    ensures Steps(s, [e] + es, t)
  {
    assert ([e] + es)[1..] == es;
  }

  /** A start that succeeds, and the marker's removal. */
  lemma StartRestores(s: State)
    requires s.phase == WillStart
    ensures Steps(s, [Start(true), Unlink], FRESH)
  {
    assert Steps(FRESH, [], FRESH);
    StepsOne(Next(s, Start(true)), Unlink, [], FRESH);
    StepsOne(s, Start(true), [Unlink], FRESH);
  }

  /** A run that is to start the timer again does so at any ending it can still act on: stopped
      anywhere from the marker on, or once it is done, it leaves all as it was. */
  lemma InterruptRestores(s: State)
    requires Flagged(s.phase)
    ensures Steps(s, [Interrupt, Start(true), Unlink], FRESH)
    ensures s.phase.Paused? ==> Steps(s, [Resume, Start(true), Unlink], FRESH)
  {
    StartRestores(s.(phase := WillStart));
    StepsOne(s, Interrupt, [Start(true), Unlink], FRESH);
    if s.phase.Paused? {
      StepsOne(s, Resume, [Start(true), Unlink], FRESH);
    }
  }

  /** One that is not leaves timer and marker alone. */
  lemma UnflaggedLeaves(s: State)
    requires Enabled(s, Interrupt) && !Flagged(s.phase)
    ensures Steps(s, [Interrupt], s.(phase := Idle))
  {
    assert Steps(Next(s, Interrupt), [], s.(phase := Idle));
    StepsOne(s, Interrupt, [], s.(phase := Idle));
  }

  /** Once the process is gone, the next run whose start succeeds brings it back, and
      takes the marker away. */
  lemma RunRestores(s: State)
    requires Reachable(s) && s.ours && s.phase == Idle
    ensures Steps(s, NEXT_RUN, FRESH)
  {
    NeverLost(s);
    StartRestores(s.(phase := WillStart));
    StepsOne(s.(phase := Paused(true)), Resume, [Start(true), Unlink], FRESH);
    StepsOne(s.(phase := Asked(false)), Look, [Resume, Start(true), Unlink], FRESH);
    StepsOne(s, Ask, [Look, Resume, Start(true), Unlink], FRESH);
  }

  /** And so does `clean`. */
  lemma CleanRestores(s: State)
    requires Reachable(s) && s.ours && s.phase == Idle
    ensures Steps(s, CLEAN, FRESH)
  {
    NeverLost(s);
    StartRestores(s.(phase := WillStart));
    StepsOne(s.(phase := CleanAsked(false)), CleanLook, [Start(true), Unlink], FRESH);
    StepsOne(s, CleanAsk, [CleanLook, Start(true), Unlink], FRESH);
  }

  // ---- a timer zark did not stop ----------------------------------------------------------

  /** zark starts a timer that is down for another reason. */
  predicate StartsOthers(s: State, e: Event) {
    e == Start(true) && s.phase == WillStart && !s.active && !s.ours
  }

  /** A moment at which stopping the timer by hand is taken for zark's own stop: the marker
      is there, or a run has found the timer active and not yet started it again. */
  predicate TakenForOurs(s: State) {
    s.marker || Flagged(s.phase) || s.phase == WillStart || s.phase == Asked(true)
  }

  /** No timer is stopped by hand at such a moment. */
  ghost predicate Undisturbed(s: State, es: seq<Event>)
    decreases |es|
  {
    || es == []
    || (Enabled(s, es[0]) && !(es[0] == UserStop && s.active && TakenForOurs(s))
        && Undisturbed(Next(s, es[0]), es[1..]))
  }

  /** Down at such a moment means stopped by zark. */
  predicate OursOnly(s: State) {
    TakenForOurs(s) && !s.active ==> s.ours
  }

  lemma NextOursOnly(s: State, e: Event)
    requires OursOnly(s) && Enabled(s, e) && !(e == UserStop && s.active && TakenForOurs(s))
    ensures OursOnly(Next(s, e)) && !StartsOthers(s, e)
  {
  }

  ghost predicate NeverStartsOthers(s: State, es: seq<Event>)
    decreases |es|
  {
    es == [] || (Enabled(s, es[0]) && !StartsOthers(s, es[0]) && NeverStartsOthers(Next(s, es[0]), es[1..]))
  }

  /** While nobody stops the timer by hand at such a moment, zark starts only what it
      stopped. */
  lemma {:induction false} StartsOnlyOurs(s: State, es: seq<Event>)
    requires OursOnly(s) && Undisturbed(s, es)
    ensures NeverStartsOthers(s, es)
    decreases |es|
  {
    if es != [] {
      NextOursOnly(s, es[0]);
      StartsOnlyOurs(Next(s, es[0]), es[1..]);
    }
  }

  /** And only then: stopped by hand at such a moment, it can be started by zark. */
  lemma StoppedByHand(s: State) returns (es: seq<Event>)
    requires Covered(s) && s.active && TakenForOurs(s)
    ensures Enabled(s, UserStop) && !NeverStartsOthers(Next(s, UserStop), es)
    ensures forall e :: e in es ==> e !in {UserStop, UserStart}
  {
    var t := Next(s, UserStop);
    var start := State(false, s.marker, WillStart, false);
    assert StartsOthers(start, Start(true));
    assert !NeverStartsOthers(start, [Start(true)]);
    if s.marker {
      es := [Kill, Ask, Look, Resume, Start(true)];
      NotOne(t.(phase := Paused(true)), Resume, [Start(true)]);
      NotOne(t.(phase := Asked(false)), Look, [Resume, Start(true)]);
      NotOne(t.(phase := Idle), Ask, [Look, Resume, Start(true)]);
      NotOne(t, Kill, [Ask, Look, Resume, Start(true)]);
    } else if s.phase == WillStart {
      es := [Start(true)];
    } else if s.phase == Asked(true) {
      es := [Look, Interrupt, Start(true)];
      assert Next(Next(t, Look), Interrupt) == start;
      NotOne(Next(t, Look), Interrupt, [Start(true)]);
      NotOne(t, Look, [Interrupt, Start(true)]);
    } else {
      es := [Interrupt, Start(true)];
      assert Next(t, Interrupt) == start;
      NotOne(t, Interrupt, [Start(true)]);
    }
  }

  lemma NotOne(s: State, e: Event, es: seq<Event>)
    requires Enabled(s, e) && !NeverStartsOthers(Next(s, e), es)
    ensures !NeverStartsOthers(s, [e] + es)
  {
    assert ([e] + es)[1..] == es;
  }

  /** The marker can be there with the timer running: a run killed after writing it, or
      after the start and before the removal. */
  lemma MarkerLeftBehind()
    ensures Reachable(State(true, true, Idle, false))
  {
    var s := State(true, true, Idle, false);
    var a := FRESH.(phase := Asked(true));
    var b := FRESH.(phase := WillMark);
    var c := State(true, true, WillStop, false);
    assert Steps(s, [], s);
    StepsOne(c, Kill, [], s);
    StepsOne(b, Write, [Kill], s);
    StepsOne(a, Look, [Write, Kill], s);
    StepsOne(FRESH, Ask, [Look, Write, Kill], s);
  }
}
