/** The self-test record: a few entries, updated by every run, that say of the whole
    history of runs what coverage and the warnings need. */
module Certificates {

  datatype Outcome = Pass | Fail | Skip

  /** One check of a run, and what depends on it. */
  datatype Result = Result(id: string, outcome: Outcome, depends: seq<string>)

  datatype Failed = Failed(id: string, depends: seq<string>)

  /** What a run was: `checks` are its results by key (id and revision). */
  datatype Run = Run(place: string, level: nat, partial: bool, series: map<string, string>, date: nat,
                     checks: map<string, Outcome>, results: seq<Result>)

  /** What the record keeps of a run. */
  datatype Entry = Entry(place: string, level: nat, partial: bool, series: map<string, string>, date: nat,
                         checks: map<string, Outcome>, failed: seq<Failed>)

  /** The platform asked about. */
  datatype Facts = Facts(place: string, series: map<string, string>)

  predicate Passed(run: Run, id: string) {
    exists i :: 0 <= i < |run.results| && run.results[i].id == id && run.results[i].outcome == Pass
  }

  function FailsOf(results: seq<Result>): seq<Failed> {
    if results == [] then []
    else
      var last := results[|results| - 1];
      var rest := FailsOf(results[..|results| - 1]);
      if last.outcome == Fail then rest + [Failed(last.id, last.depends)] else rest
  }

  predicate SameSlot(e: Entry, run: Run) {
    e.place == run.place && e.level == run.level && e.partial == run.partial
  }

  predicate Clears(run: Run, e: Entry) {
    !e.partial && e.place == run.place && e.series == run.series
  }

  function NotPassed(failed: seq<Failed>, run: Run): seq<Failed> {
    if failed == [] then []
    else
      var last := failed[|failed| - 1];
      var rest := NotPassed(failed[..|failed| - 1], run);
      if Passed(run, last.id) then rest else rest + [last]
  }

  function Cleared(e: Entry, run: Run): Entry {
    if Clears(run, e) then e.(failed := NotPassed(e.failed, run)) else e
  }

  function EntryOf(run: Run, failed: seq<Failed>): Entry {
    Entry(run.place, run.level, run.partial, run.series, run.date, run.checks, failed)
  }

  /** The entries a run leaves of those before it. */
  function Kept(entries: seq<Entry>, run: Run): seq<Entry> {
    if entries == [] then []
    else
      var last := entries[|entries| - 1];
      var rest := Kept(entries[..|entries| - 1], run);
      if SameSlot(last, run) then rest else rest + [Cleared(last, run)]
  }

  function Added(entries: seq<Entry>, run: Run): seq<Entry> {
    Kept(entries, run) + [EntryOf(run, FailsOf(run.results))]
  }

  // ---- what the record stands for ---------------------------------------------------

  predicate SameRun(a: Run, b: Run) {
    a.place == b.place && a.level == b.level && a.partial == b.partial
  }

  /** No later run was of the same place, level and completeness. */
  predicate Stands(runs: seq<Run>, i: nat)
    requires i < |runs|
  {
    forall j :: i < j < |runs| ==> !SameRun(runs[j], runs[i])
  }

  /** A later run of the same place and series passed the check. */
  predicate PassedLater(runs: seq<Run>, i: nat, id: string)
    requires i < |runs|
  {
    exists j ::
      && i < j < |runs| && runs[j].place == runs[i].place && runs[j].series == runs[i].series
      && Passed(runs[j], id)
  }

  /** The failures of a run that still count. */
  function StillFailed(failed: seq<Failed>, runs: seq<Run>, i: nat): seq<Failed>
    requires i < |runs|
  {
    if failed == [] then []
    else
      var last := failed[|failed| - 1];
      var rest := StillFailed(failed[..|failed| - 1], runs, i);
      if !runs[i].partial && PassedLater(runs, i, last.id) then rest else rest + [last]
  }

  function StandingEntry(runs: seq<Run>, i: nat): Entry
    requires i < |runs|
  {
    EntryOf(runs[i], StillFailed(FailsOf(runs[i].results), runs, i))
  }

  /** The record of a history, said without running it: one entry for each run that
      stands, oldest first. */
  function RecordOf(runs: seq<Run>, n: nat): seq<Entry>
    requires n <= |runs|
  {
    if n == 0 then []
    else if Stands(runs, n - 1) then RecordOf(runs, n - 1) + [StandingEntry(runs, n - 1)]
    else RecordOf(runs, n - 1)
  }

  lemma {:induction false} StillFailedNext(failed: seq<Failed>, runs: seq<Run>, run: Run, i: nat)
    requires i < |runs|
    ensures StillFailed(failed, runs + [run], i) ==
      if !runs[i].partial && run.place == runs[i].place && run.series == runs[i].series
      then NotPassed(StillFailed(failed, runs, i), run) else StillFailed(failed, runs, i)
  {
    if failed != [] {
      var last, rest := failed[|failed| - 1], failed[..|failed| - 1];
      StillFailedNext(rest, runs, run, i);
      PassedNext(runs, run, i, last.id);
      NotPassedOne(StillFailed(rest, runs, i), last, run);
      assert (runs + [run])[i] == runs[i];
    }
  }

  lemma NotPassedOne(failed: seq<Failed>, last: Failed, run: Run)
    ensures NotPassed(failed + [last], run) ==
      if Passed(run, last.id) then NotPassed(failed, run) else NotPassed(failed, run) + [last]
  {
    assert (failed + [last])[..|failed|] == failed;
  }

  lemma KeptOne(entries: seq<Entry>, last: Entry, run: Run)
    ensures Kept(entries + [last], run) ==
      if SameSlot(last, run) then Kept(entries, run) else Kept(entries, run) + [Cleared(last, run)]
  {
    assert (entries + [last])[..|entries|] == entries;
  }

  lemma PassedNext(runs: seq<Run>, run: Run, i: nat, id: string)
    requires i < |runs|
    ensures PassedLater(runs + [run], i, id) <==>
      PassedLater(runs, i, id) || (run.place == runs[i].place && run.series == runs[i].series && Passed(run, id))
  {
    var all := runs + [run];
    assert all[|runs|] == run;
    if PassedLater(runs, i, id) {
      var j :| i < j < |runs| && runs[j].place == runs[i].place && runs[j].series == runs[i].series
               && Passed(runs[j], id);
      assert all[j] == runs[j];
    }
    if PassedLater(all, i, id) {
      var j :| i < j < |all| && all[j].place == all[i].place && all[j].series == all[i].series && Passed(all[j], id);
      assert j < |runs| ==> all[j] == runs[j];
    }
  }

  lemma StandsNext(runs: seq<Run>, run: Run, i: nat)
    requires i < |runs|
    ensures Stands(runs + [run], i) <==> Stands(runs, i) && !SameRun(run, runs[i])
  {
    var all := runs + [run];
    assert all[|runs|] == run;
    assert forall j :: 0 <= j < |runs| ==> all[j] == runs[j];
  }

  lemma {:induction false} RecordNext(runs: seq<Run>, run: Run, n: nat)
    requires n <= |runs|
    ensures RecordOf(runs + [run], n) == Kept(RecordOf(runs, n), run)
  {
    if n > 0 {
      var i := n - 1;
      RecordNext(runs, run, i);
      StandsNext(runs, run, i);
      StillFailedNext(FailsOf(runs[i].results), runs, run, i);
      var e := StandingEntry(runs, i);
      assert (runs + [run])[i] == runs[i];
      KeptOne(RecordOf(runs, i), e, run);
      assert Cleared(e, run) == StandingEntry(runs + [run], i);
    }
  }

  lemma {:induction false} NoLater(failed: seq<Failed>, runs: seq<Run>, i: nat)
    requires i + 1 == |runs|
    ensures StillFailed(failed, runs, i) == failed
  {
    if failed != [] {
      NoLater(failed[..|failed| - 1], runs, i);
      assert failed == failed[..|failed| - 1] + [failed[|failed| - 1]];
    }
  }

  /** One more run: the record of the longer history. */
  lemma AddedIsRecord(runs: seq<Run>, run: Run)
    ensures Added(RecordOf(runs, |runs|), run) == RecordOf(runs + [run], |runs| + 1)
  {
    var all := runs + [run];
    RecordNext(runs, run, |runs|);
    assert all[|runs|] == run;
    NoLater(FailsOf(run.results), all, |runs|);
  }

  /** The record, kept by every run in turn. */
  class Record {
    var entries: seq<Entry>
    ghost var runs: seq<Run>

    ghost predicate Valid()
      reads this
    {
      entries == RecordOf(runs, |runs|)
    }

    constructor ()
      ensures Valid() && runs == []
    {
      entries, runs := [], [];
    }

    /** A run's report added: the failures it passed leave the entries they are in, and
        its own entry takes the place of the one before it. */
    method Add(run: Run)
      requires Valid()
      modifies this
      ensures Valid() && runs == old(runs) + [run]
    {
      var i := 0;
      while i < |entries|
        invariant 0 <= i <= |entries| == |old(entries)| && runs == old(runs)
        invariant forall j :: 0 <= j < |entries| ==>
          entries[j] == if j < i then Cleared(old(entries)[j], run) else old(entries)[j]
      {
        var e := entries[i];
        if !e.partial && e.place == run.place && e.series == run.series {
          var failed := Still(e.failed, run);
          entries := entries[i := e.(failed := failed)];
        }
        i := i + 1;
      }
      var keep := Others(entries, run, old(entries));
      var failed := Fails(run.results);
      AddedIsRecord(runs, run);
      entries := keep + [EntryOf(run, failed)];
      runs := runs + [run];
    }
  }

  /** What is kept of the cleared entries. */
  method Others(cleared: seq<Entry>, run: Run, ghost was: seq<Entry>) returns (keep: seq<Entry>)
    requires |cleared| == |was| && forall j :: 0 <= j < |was| ==> cleared[j] == Cleared(was[j], run)
    ensures keep == Kept(was, run)
  {
    keep := [];
    for i := 0 to |cleared|
      invariant keep == Kept(was[..i], run)
    {
      assert was[..i + 1] == was[..i] + [was[i]];
      KeptOne(was[..i], was[i], run);
      if !SameSlot(cleared[i], run) {
        keep := keep + [cleared[i]];
      }
    }
    assert was[..|was|] == was;
  }

  method Still(failed: seq<Failed>, run: Run) returns (still: seq<Failed>)
    ensures still == NotPassed(failed, run)
  {
    still := [];
    for i := 0 to |failed|
      invariant still == NotPassed(failed[..i], run)
    {
      assert failed[..i + 1][..i] == failed[..i];
      if !Passed(run, failed[i].id) {
        still := still + [failed[i]];
      }
    }
    assert failed[..|failed|] == failed;
  }

  method Fails(results: seq<Result>) returns (failed: seq<Failed>)
    ensures failed == FailsOf(results)
  {
    failed := [];
    for i := 0 to |results|
      invariant failed == FailsOf(results[..i])
    {
      assert results[..i + 1][..i] == results[..i];
      if results[i].outcome == Fail {
        failed := failed + [Failed(results[i].id, results[i].depends)];
      }
    }
    assert results[..|results|] == results;
  }

  // ---- coverage ------------------------------------------------------------------------

  predicate Matches(e: Entry, facts: Facts) {
    !e.partial && e.place == facts.place && e.series == facts.series
  }

  predicate PassedKey(checks: map<string, Outcome>, key: string) {
    key in checks && checks[key] == Pass
  }

  predicate CoveredIn(entries: seq<Entry>, facts: Facts, key: string) {
    exists i :: 0 <= i < |entries| && Matches(entries[i], facts) && PassedKey(entries[i].checks, key)
  }

  /** The check keys that some matching entry has as passed. */
  method Covered(facts: Facts, entries: seq<Entry>) returns (keys: set<string>)
    ensures forall key :: key in keys <==> CoveredIn(entries, facts, key)
  {
    keys := {};
    for i := 0 to |entries|
      invariant forall key :: key in keys <==> CoveredIn(entries[..i], facts, key)
    {
      ghost var was := keys;
      if Matches(entries[i], facts) {
        keys := keys + set k | k in entries[i].checks && entries[i].checks[k] == Pass;
      }
      forall key
        ensures CoveredIn(entries[..i + 1], facts, key) <==>
          CoveredIn(entries[..i], facts, key) || (Matches(entries[i], facts) && PassedKey(entries[i].checks, key))
      {
        CoveredNext(entries, facts, key, i);
      }
    }
    assert entries[..|entries|] == entries;
  }

  lemma CoveredNext(entries: seq<Entry>, facts: Facts, key: string, i: nat)
    requires i < |entries|
    ensures CoveredIn(entries[..i + 1], facts, key) <==>
      CoveredIn(entries[..i], facts, key) || (Matches(entries[i], facts) && PassedKey(entries[i].checks, key))
  {
    assert entries[..i + 1] == entries[..i] + [entries[i]];
    CoveredOne(entries[..i], entries[i], facts, key);
  }

  lemma CoveredOne(entries: seq<Entry>, e: Entry, facts: Facts, key: string)
    ensures CoveredIn(entries + [e], facts, key) <==>
      CoveredIn(entries, facts, key) || (Matches(e, facts) && PassedKey(e.checks, key))
  {
    var all := entries + [e];
    assert all[|entries|] == e;
    if j :| 0 <= j < |entries| && Matches(entries[j], facts) && PassedKey(entries[j].checks, key) {
      assert all[j] == entries[j];
    }
    if j :| 0 <= j < |all| && Matches(all[j], facts) && PassedKey(all[j].checks, key) {
      assert j < |entries| ==> entries[j] == all[j];
    }
  }

  /** Whether a run of the history covers a check: complete, on this platform, passed, and
      no later complete run of its place and level. */
  predicate RunCovers(runs: seq<Run>, i: nat, facts: Facts, key: string)
    requires i < |runs|
  {
    && Stands(runs, i) && !runs[i].partial
    && runs[i].place == facts.place && runs[i].series == facts.series && PassedKey(runs[i].checks, key)
  }

  ghost predicate HistoryCovers(runs: seq<Run>, n: nat, facts: Facts, key: string) {
    exists i: nat :: i < n <= |runs| && RunCovers(runs, i, facts, key)
  }

  /** Coverage read from the record is what the history says. */
  lemma {:induction false} CoverageIsHistory(runs: seq<Run>, n: nat, facts: Facts, key: string)
    requires n <= |runs|
    ensures CoveredIn(RecordOf(runs, n), facts, key) <==> HistoryCovers(runs, n, facts, key)
  {
    if n > 0 {
      var i := n - 1;
      CoverageIsHistory(runs, i, facts, key);
      CoveredOne(RecordOf(runs, i), StandingEntry(runs, i), facts, key);
      assert HistoryCovers(runs, n, facts, key) <==>
        HistoryCovers(runs, i, facts, key) || RunCovers(runs, i, facts, key);
    }
  }

  /** A partial or stopped run never changes coverage. */
  lemma PartialChangesNothing(runs: seq<Run>, run: Run, facts: Facts, key: string)
    requires run.partial
    ensures HistoryCovers(runs + [run], |runs| + 1, facts, key) <==> HistoryCovers(runs, |runs|, facts, key)
  {
    var all := runs + [run];
    forall i: nat | i < |runs|
      ensures RunCovers(all, i, facts, key) <==> RunCovers(runs, i, facts, key)
    {
      StandsNext(runs, run, i);
      assert all[i] == runs[i];
    }
    assert all[|runs|] == run;
    if HistoryCovers(runs, |runs|, facts, key) {
      var i: nat :| i < |runs| && RunCovers(runs, i, facts, key);
      assert RunCovers(all, i, facts, key);
    }
  }

  // ---- failures ------------------------------------------------------------------------

  predicate HasFailure(e: Entry, facts: Facts) {
    Matches(e, facts) && e.failed != []
  }

  /** The newest entry for this platform with a failure, the first of that day. */
  method NewestFailure(facts: Facts, record: seq<Entry>) returns (at: int)
    ensures at == -1 <==> forall i :: 0 <= i < |record| ==> !HasFailure(record[i], facts)
    ensures at != -1 ==> 0 <= at < |record| && HasFailure(record[at], facts)
    ensures at != -1 ==> forall i :: 0 <= i < |record| && HasFailure(record[i], facts) ==>
      record[i].date < record[at].date || (record[i].date == record[at].date && at <= i)
  {
    at := -1;
    for i := 0 to |record|
      invariant at == -1 || 0 <= at < i
      invariant at == -1 <==> forall j :: 0 <= j < i ==> !HasFailure(record[j], facts)
      invariant at != -1 ==> HasFailure(record[at], facts)
      invariant at != -1 ==> forall j :: 0 <= j < i && HasFailure(record[j], facts) ==>
        record[j].date < record[at].date || (record[j].date == record[at].date && at <= j)
    {
      if HasFailure(record[i], facts) && (at == -1 || record[i].date > record[at].date) {
        at := i;
      }
    }
  }

  /** Result `k` of run `i` is a failure that still counts: it was one, and, if the run was
      complete, no later run of its place and series passed the check. */
  predicate StillFails(runs: seq<Run>, i: nat, k: nat)
    requires i < |runs| && k < |runs[i].results|
  {
    && runs[i].results[k].outcome == Fail
    && (runs[i].partial || !PassedLater(runs, i, runs[i].results[k].id))
  }

  /** `ks` are the first results' indices, in order, that still fail. */
  ghost predicate ArePicked(runs: seq<Run>, i: nat, n: nat, ks: seq<int>)
    requires i < |runs| && n <= |runs[i].results|
  {
    && (forall j :: 0 <= j < |ks| ==> 0 <= ks[j] < n)
    && (forall j, l :: 0 <= j < l < |ks| ==> ks[j] < ks[l])
    && (forall k: nat :: k < n ==> (k in ks <==> StillFails(runs, i, k)))
  }

  ghost predicate AreFailures(runs: seq<Run>, i: nat, ks: seq<int>, failed: seq<Failed>)
    requires i < |runs| && forall j :: 0 <= j < |ks| ==> 0 <= ks[j] < |runs[i].results|
  {
    && |failed| == |ks|
    && forall j :: 0 <= j < |ks| ==>
         failed[j].id == runs[i].results[ks[j]].id && failed[j].depends == runs[i].results[ks[j]].depends
  }

  /** An entry is that of a run: what the run was, and its failures that still count, each
      once and in order, with what depends on them. */
  ghost predicate TellsOf(e: Entry, runs: seq<Run>, i: nat)
    requires i < |runs|
  {
    && e.place == runs[i].place && e.level == runs[i].level && e.partial == runs[i].partial
    && e.series == runs[i].series && e.date == runs[i].date && e.checks == runs[i].checks
    && exists ks :: ArePicked(runs, i, |runs[i].results|, ks) && AreFailures(runs, i, ks, e.failed)
  }

  lemma {:induction false} PickNext(runs: seq<Run>, i: nat, m: nat, ks: seq<int>)
    requires i < |runs| && m < |runs[i].results| && ArePicked(runs, i, m, ks)
    ensures ArePicked(runs, i, m + 1, if StillFails(runs, i, m) then ks + [m] else ks)
  {
  }

  lemma {:induction false} FailuresPicked(runs: seq<Run>, i: nat, n: nat) returns (ks: seq<int>)
    requires i < |runs| && n <= |runs[i].results|
    ensures ArePicked(runs, i, n, ks)
    ensures AreFailures(runs, i, ks, StillFailed(FailsOf(runs[i].results[..n]), runs, i))
  {
    if n == 0 {
      return [];
    }
    var m := n - 1;
    var before := FailuresPicked(runs, i, m);
    PickNext(runs, i, m, before);
    FailuresNext(runs, i, m, before);
    ks := if StillFails(runs, i, m) then before + [m] else before;
  }

  lemma {:induction false} FailuresNext(runs: seq<Run>, i: nat, m: nat, ks: seq<int>)
    requires i < |runs| && m < |runs[i].results| && ArePicked(runs, i, m, ks)
    requires AreFailures(runs, i, ks, StillFailed(FailsOf(runs[i].results[..m]), runs, i))
    ensures var next := if StillFails(runs, i, m) then ks + [m] else ks;
      && ArePicked(runs, i, m + 1, next)
      && AreFailures(runs, i, next, StillFailed(FailsOf(runs[i].results[..m + 1]), runs, i))
  {
    PickNext(runs, i, m, ks);
    FailedNext(runs, i, m);
  }

  lemma FailedNext(runs: seq<Run>, i: nat, m: nat)
    requires i < |runs| && m < |runs[i].results|
    ensures var last := Failed(runs[i].results[m].id, runs[i].results[m].depends);
      StillFailed(FailsOf(runs[i].results[..m + 1]), runs, i) ==
      StillFailed(FailsOf(runs[i].results[..m]), runs, i) + if StillFails(runs, i, m) then [last] else []
  {
    var results := runs[i].results;
    assert results[..m + 1][..m] == results[..m] && results[..m + 1][m] == results[m];
    if results[m].outcome == Fail {
      StillFailedOne(FailsOf(results[..m]), Failed(results[m].id, results[m].depends), runs, i);
    }
  }

  lemma StillFailedOne(failed: seq<Failed>, last: Failed, runs: seq<Run>, i: nat)
    requires i < |runs|
    ensures StillFailed(failed + [last], runs, i) ==
      StillFailed(failed, runs, i) + if !runs[i].partial && PassedLater(runs, i, last.id) then [] else [last]
  {
    assert (failed + [last])[..|failed|] == failed;
  }

  lemma EntryTells(runs: seq<Run>, i: nat)
    requires i < |runs|
    ensures TellsOf(StandingEntry(runs, i), runs, i)
  {
    var n := |runs[i].results|;
    var ks := FailuresPicked(runs, i, n);
    assert runs[i].results[..n] == runs[i].results;
  }

  /** `at` are the first runs, in order, that stand. */
  ghost predicate AreStanding(runs: seq<Run>, n: nat, at: seq<int>)
    requires n <= |runs|
  {
    && (forall j :: 0 <= j < |at| ==> 0 <= at[j] < n)
    && (forall j, l :: 0 <= j < l < |at| ==> at[j] < at[l])
    && (forall i: nat :: i < n ==> (i in at <==> Stands(runs, i)))
  }

  ghost predicate AreOf(entries: seq<Entry>, runs: seq<Run>, at: seq<int>) {
    |at| == |entries| && forall j :: 0 <= j < |at| ==> 0 <= at[j] < |runs| && TellsOf(entries[j], runs, at[j])
  }

  lemma StandingNext(runs: seq<Run>, n: nat, at: seq<int>)
    requires n < |runs| && AreStanding(runs, n, at)
    ensures AreStanding(runs, n + 1, if Stands(runs, n) then at + [n] else at)
  {
  }

  lemma OneMoreEntry(entries: seq<Entry>, runs: seq<Run>, at: seq<int>, e: Entry, i: nat)
    requires AreOf(entries, runs, at) && i < |runs| && TellsOf(e, runs, i)
    ensures AreOf(entries + [e], runs, at + [i])
  {
    var all, where := entries + [e], at + [i];
    forall j | 0 <= j < |where|
      ensures 0 <= where[j] < |runs| && TellsOf(all[j], runs, where[j])
    {
      if j < |at| {
        assert all[j] == entries[j] && where[j] == at[j];
      }
    }
  }

  /** The record is that of the runs that stand, in their order, one entry for each, with
      what it tells of it. */
  lemma {:induction false} RecordTells(runs: seq<Run>, n: nat) returns (at: seq<int>)
    requires n <= |runs|
    ensures AreStanding(runs, n, at) && AreOf(RecordOf(runs, n), runs, at)
  {
    at := [];
    if n > 0 {
      var i := n - 1;
      var before := RecordTells(runs, i);
      StandingNext(runs, i, before);
      EntryTells(runs, i);
      OneMoreEntry(RecordOf(runs, i), runs, before, StandingEntry(runs, i), i);
      at := if Stands(runs, i) then before + [i] else before;
    }
  }

  /** A failure that still counts: of a complete run that stands, on this platform, not
      passed by any later run of its place and series. */
  ghost predicate RunFails(runs: seq<Run>, i: nat, facts: Facts, k: nat)
    requires i < |runs|
  {
    && Stands(runs, i) && !runs[i].partial && runs[i].place == facts.place && runs[i].series == facts.series
    && k < |runs[i].results| && runs[i].results[k].outcome == Fail && !PassedLater(runs, i, runs[i].results[k].id)
  }

  /** An entry has a failure for this platform exactly when its run has one that counts. */
  lemma EntryWarns(e: Entry, runs: seq<Run>, i: nat, facts: Facts)
    requires i < |runs| && TellsOf(e, runs, i) && Stands(runs, i)
    ensures HasFailure(e, facts) <==> exists k: nat :: RunFails(runs, i, facts, k)
  {
    var ks: seq<int> :| ArePicked(runs, i, |runs[i].results|, ks) && AreFailures(runs, i, ks, e.failed);
    if HasFailure(e, facts) {
      var k := ks[0];
      assert k in ks && StillFails(runs, i, k);
      assert RunFails(runs, i, facts, k);
    }
    if k: nat :| RunFails(runs, i, facts, k) {
      assert StillFails(runs, i, k) && k in ks;
    }
  }

  /** The record warns exactly when some failure of the history still counts. */
  lemma WarningIsHistory(runs: seq<Run>, n: nat, facts: Facts)
    requires n <= |runs|
    ensures (exists e :: e in RecordOf(runs, n) && HasFailure(e, facts)) <==>
      (exists i: nat, k: nat :: i < n && RunFails(runs, i, facts, k))
  {
    var entries := RecordOf(runs, n);
    var at := RecordTells(runs, n);
    if e :| e in entries && HasFailure(e, facts) {
      var j :| 0 <= j < |at| && entries[j] == e;
      assert at[j] in at;
      EntryWarns(e, runs, at[j], facts);
    }
    if i: nat, k: nat :| i < n && RunFails(runs, i, facts, k) {
      assert i in at;
      var j :| 0 <= j < |at| && at[j] == i;
      EntryWarns(entries[j], runs, i, facts);
    }
  }
}
