/** Exclusions: subtrees left out of backups, of snapshots, or of both, and the mark
    that tells later what a point left out. */
module Exclusions {
  import opened Replication

  // ---- subtrees and what covers them ------------------------------------------------

  predicate IsNearest(rel: Name, tops: set<Name>, top: Name) {
    top in tops && Under(rel, top) && forall t :: t in tops && Under(rel, t) ==> Under(top, t)
  }

  /** The exclusion that covers a dataset: the nearest top above it. */
  method Covering(rel: Name, tops: set<Name>) returns (best: Name)
    requires [] !in tops
    ensures best == [] <==> !UnderAny(rel, tops)
    ensures best != [] ==> IsNearest(rel, tops, best)
  {
    best := [];
    var left := tops;
    while left != {}
      invariant left <= tops && (best != [] ==> best in tops && Under(rel, best))
      invariant forall t :: t in tops - left && Under(rel, t) ==> |t| <= |best|
    {
      var top :| top in left;
      if Under(rel, top) && |top| > |best| {
        best := top;
      }
      left := left - {top};
    }
    assert tops - left == tops;
    forall t | t in tops && Under(rel, t)
      ensures best != [] && Under(best, t)
    {
      Nearer(rel, best, t);
    }
  }

  lemma Nearer(rel: Name, best: Name, t: Name)
    requires Under(rel, best) && Under(rel, t) && |t| <= |best|
    ensures Under(best, t)
  {
    AboveSame(rel, best, t);
  }

  /** The datasets that no other one of them covers. */
  function Minimal(rels: set<Name>): set<Name> {
    set r | r in rels && !exists t :: t in rels - {r} && Under(r, t)
  }

  lemma MinimalApart(rels: set<Name>, s: Name, t: Name)
    requires s in Minimal(rels) && t in Minimal(rels) && Under(s, t)
    ensures s == t
  {
    assert s != t ==> t in rels - {s};
  }

  /** The topmost of some datasets above one of them. */
  lemma {:induction false} TopAbove(rels: set<Name>, r: Name) returns (t: Name)
    requires r in rels
    ensures t in Minimal(rels) && Under(r, t)
    decreases |r|
  {
    if r in Minimal(rels) {
      t := r;
    } else {
      var s :| s in rels - {r} && Under(r, s);
      BelowIsLonger(r, s);
      t := TopAbove(rels, s);
    }
  }

  /** Leaving out what another one covers changes nothing that is covered. */
  lemma MinimalCovers(rels: set<Name>, rel: Name)
    ensures UnderAny(rel, Minimal(rels)) <==> UnderAny(rel, rels)
  {
    if r :| r in rels && Under(rel, r) {
      var t := TopAbove(rels, r);
      assert Under(rel, t);
    }
  }

  // ---- what is declared ---------------------------------------------------------------

  datatype Exclusion = Exclusion(replicate: bool, snapshot: bool)

  /** What `zark exclude` calls each pair of flags. */
  datatype Flags = Backups | Snapshots | Both

  datatype Declared = Declared(tops: map<Name, Exclusion>) {
    function BackupTops(): set<Name> { set t | t in tops && tops[t].replicate }

    function SnapshotTops(): set<Name> { set t | t in tops && tops[t].snapshot }

    /** The subtree tops left out of backups. */
    function NoBackup(): set<Name> { Minimal(BackupTops()) }

    /** The subtree tops left out of sanoid's snapshots. */
    function NoSnapshot(): set<Name> { Minimal(SnapshotTops()) }

    function FlagsOf(top: Name): Flags {
      if top in tops && tops[top].snapshot then Both else Backups
    }
  }

  /** The two properties as they are set on a dataset. */
  datatype Values = Values(replicate: Option<string>, snapshot: Option<string>)

  /** A dataset that no exclusion may hold, whatever it is. */
  predicate NeverByName(rel: Name) {
    Under(rel, ["rpool", "ROOT"]) || IsBpool(rel) || Under(rel, KEYSTORE) || rel in STRUCTURAL || IsArchived(rel)
  }

  predicate NeverExcluded(rel: Name, origin: map<Name, Kind>) {
    || NeverByName(rel)
    || (rel in origin && origin[rel] == Volume)
    || (exists x :: x in origin && x != rel && Under(x, rel) && NeverByName(x))
  }

  function DeclaredOf(values: map<Name, Values>, origin: map<Name, Kind>): Declared {
    Declared(map rel | rel in values
               && (values[rel].replicate == Some("no") || values[rel].snapshot == Some("no"))
               && !NeverExcluded(rel, origin)
               :: Exclusion(values[rel].replicate == Some("no"), values[rel].snapshot == Some("no")))
  }

  predicate SetsNo(values: map<Name, Values>, rel: Name, backups: bool) {
    rel in values && (if backups then values[rel].replicate else values[rel].snapshot) == Some("no")
  }

  /** A property set to `no` excludes, each for its own purpose, the dataset and all below it,
      unless the dataset is one that is never excluded; nothing else does. */
  lemma DeclaredSays(values: map<Name, Values>, origin: map<Name, Kind>, rel: Name)
    ensures var d := DeclaredOf(values, origin);
      && (rel in d.BackupTops() <==> SetsNo(values, rel, true) && !NeverExcluded(rel, origin))
      && (rel in d.SnapshotTops() <==> SetsNo(values, rel, false) && !NeverExcluded(rel, origin))
      && (UnderAny(rel, d.NoBackup()) <==>
            exists t :: SetsNo(values, t, true) && !NeverExcluded(t, origin) && Under(rel, t))
      && (UnderAny(rel, d.NoSnapshot()) <==>
            exists t :: SetsNo(values, t, false) && !NeverExcluded(t, origin) && Under(rel, t))
  {
    var d := DeclaredOf(values, origin);
    assert forall t :: t in d.BackupTops() <==> SetsNo(values, t, true) && !NeverExcluded(t, origin);
    assert forall t :: t in d.SnapshotTops() <==> SetsNo(values, t, false) && !NeverExcluded(t, origin);
    MinimalCovers(d.BackupTops(), rel);
    MinimalCovers(d.SnapshotTops(), rel);
  }

  /** No boot environment, boot pool, keystore, container or archived lineage of the
      system is ever left out, whatever the properties say; and no volume is a top. */
  lemma NeverLeftOut(values: map<Name, Values>, origin: map<Name, Kind>, rel: Name)
    requires rel in origin
    ensures var d := DeclaredOf(values, origin);
      && (NeverByName(rel) ==> !UnderAny(rel, d.NoBackup()) && !UnderAny(rel, d.NoSnapshot()))
      && (origin[rel] == Volume ==> rel !in d.NoBackup() && rel !in d.NoSnapshot())
  {
    var d := DeclaredOf(values, origin);
    if NeverByName(rel) {
      forall t | t in d.tops
        ensures !Under(rel, t)
      {
        if rel != t && Under(rel, t) {
          assert NeverExcluded(t, origin);
        }
      }
    }
  }

  // ---- the mark of a point ------------------------------------------------------------

  datatype Mount = Mount(canmount: string, mountpoint: string)

  /** What a point left out. */
  datatype PointMark = PointMark(tops: map<Name, Flags>, datasets: map<Name, Mount>) {
    function LeftOut(): set<Name> { set t | t in tops && tops[t] != Snapshots }

    /** The tops excluded from snapshots, alone or with backups. */
    function NotSnapshot(): set<Name> { set t | t in tops && tops[t] != Backups }

    ghost predicate Covers(rel: Name) { rel in datasets || UnderAny(rel, LeftOut()) }
  }

  function MarkOf(declared: Declared, origin: map<Name, Mount>): PointMark {
    var backup, snapshot := declared.NoBackup(), declared.NoSnapshot();
    PointMark(
      map t | t in backup + snapshot :: if t in backup then declared.FlagsOf(t) else Snapshots,
      map rel | rel in origin && (exists t :: t in backup && Under(rel, t)) :: origin[rel])
  }

  /** What the mark calls a top: left out of both where the snapshot exclusion is set on that
      top itself. */
  lemma MarkSays(declared: Declared, origin: map<Name, Mount>, t: Name)
    ensures var mark := MarkOf(declared, origin);
      && (t in mark.tops <==> t in declared.NoBackup() || t in declared.NoSnapshot())
      && (t in mark.tops && mark.tops[t] == Both <==>
            t in declared.NoBackup() && t in declared.tops && declared.tops[t].snapshot)
      && (t in mark.tops && mark.tops[t] == Snapshots <==> t in declared.NoSnapshot() && t !in declared.NoBackup())
      && (t in mark.datasets <==> t in origin && UnderAny(t, declared.NoBackup()))
      && (t in mark.datasets ==> mark.datasets[t] == origin[t])
  {
  }

  /** The mark covers exactly what was declared left out of the backup. */
  lemma MarkCovers(declared: Declared, origin: map<Name, Mount>, rel: Name)
    ensures MarkOf(declared, origin).Covers(rel) <==> UnderAny(rel, declared.BackupTops())
  {
    var mark := MarkOf(declared, origin);
    assert mark.LeftOut() == declared.NoBackup();
    MinimalCovers(declared.BackupTops(), rel);
  }

  /** And for snapshots too, so that a recovery sets again what origin had. */
  lemma MarkSnapshots(declared: Declared, origin: map<Name, Mount>, rel: Name)
    ensures UnderAny(rel, MarkOf(declared, origin).NotSnapshot()) <==> UnderAny(rel, declared.SnapshotTops())
  {
    var mark := MarkOf(declared, origin);
    MinimalCovers(declared.SnapshotTops(), rel);
    assert declared.NoSnapshot() <= mark.NotSnapshot() <= declared.SnapshotTops();
    if t :| t in declared.NoSnapshot() && Under(rel, t) {
      assert t in mark.NotSnapshot();
    }
    if t :| t in mark.NotSnapshot() && Under(rel, t) {
      assert t in declared.SnapshotTops();
    }
  }
}
