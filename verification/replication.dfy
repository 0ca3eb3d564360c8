/** Names and references as zark's planner reads them: dataset names, the three
    kinds of snapshot and bookmark names, and which datasets a backup expects. */
module Replication {

  /** A dataset name, one element per path component: `rpool/var` is
      `["rpool", "var"]`. "At or below" is then sequence prefix. */
  type Name = seq<string>
  type Guid = nat
  type Disk = nat

  datatype Option<+T> = None | Some(value: T)

  /** What a snapshot or bookmark name says: a backup point, a drive's anchor
      (both carry a UTC second), or anything else (sanoid's, the user's). */
  datatype RefName = Point(stamp: nat) | Anchor(disk: Disk, at: nat) | Other(text: string)

  datatype Kind = Filesystem | Volume

  const ARCHIVE_MARK := ".archived-"
  const KEYSTORE: Name := ["rpool", "keystore"]
  /** The structural containers, parents first: made on a drive, never sent. */
  const CONTAINERS: seq<Name> :=
    [["rpool"], ["rpool", "ROOT"], ["rpool", "USERDATA"], ["bpool"], ["bpool", "BOOT"]]
  const STRUCTURAL: set<Name> := set rel | rel in CONTAINERS

  predicate Under(rel: Name, top: Name) {
    top <= rel
  }

  predicate UnderAny(rel: Name, tops: set<Name>) {
    exists t :: t in tops && Under(rel, t)
  }

  lemma UnderBoth(rel: Name, mid: Name, top: Name)
    requires Under(rel, mid) && Under(mid, top)
    ensures Under(rel, top)
  {
  }

  lemma BelowIsLonger(rel: Name, top: Name)
    requires Under(rel, top) && rel != top
    ensures |top| < |rel|
  {
    assert rel == top + rel[|top|..];
  }

  /** Two names above the same dataset are one above the other. */
  lemma AboveSame(rel: Name, s: Name, t: Name)
    requires Under(rel, s) && Under(rel, t)
    ensures Under(s, t) || Under(t, s)
  {
  }

  /** No dataset is in both pools. */
  lemma PoolsApart()
    ensures forall rel :: Under(rel, ["rpool"]) ==> !Under(rel, ["bpool"])
  {
    forall rel: Name | Under(rel, ["rpool"])
      ensures !Under(rel, ["bpool"])
    {
      assert rel[0] == "rpool" && |"rpool"| == 5 && "rpool"[0] == 'r' && "bpool"[0] == 'b';
    }
  }

  predicate IsBpool(rel: Name) {
    Under(rel, ["bpool"])
  }

  /** The empty name stands for "no parent". */
  function Parent(rel: Name): Name {
    if |rel| <= 1 then [] else rel[..|rel| - 1]
  }

  /** Whether a component holds the mark of an archived lineage. */
  predicate HasMark(part: string) {
    ARCHIVE_MARK <= part || (part != "" && HasMark(part[1..]))
  }

  /** A component without the mark and what follows it. */
  function StripMark(part: string): string {
    if ARCHIVE_MARK <= part || part == "" then "" else [part[0]] + StripMark(part[1..])
  }

  predicate IsArchived(rel: Name) {
    exists i :: 0 <= i < |rel| && HasMark(rel[i])
  }

  /** Whether a backup must bring the dataset to the point. */
  predicate IsExpected(rel: Name, kind: Kind, skip: set<Name>) {
    && !Under(rel, KEYSTORE)
    && kind != Volume
    && rel !in STRUCTURAL
    && !IsArchived(rel)
    && !UnderAny(rel, skip)
  }

  lemma {:induction false} SubsetSize<T>(a: set<T>, b: set<T>)
    requires a <= b
    ensures |a| <= |b|
    decreases |a|
  {
    if a != {} {
      var x :| x in a;
      SubsetSize(a - {x}, b - {x});
    }
  }

  lemma TakeOne<T>(q: seq<T>, i: nat)
    requires i < |q|
    ensures q[..i + 1] == q[..i] + [q[i]]
  {
  }

  lemma Regroup<T>(a: seq<T>, b: seq<T>, c: seq<T>)
    ensures a + b + c == a + (b + c)
  {
  }

  lemma SplitLast<T>(q: seq<T>)
    requires q != []
    ensures q == q[..|q| - 1] + [q[|q| - 1]]
  {
  }

  /** A listing of a set, in whatever order it comes. */
  method Listing<T(==)>(s: set<T>) returns (q: seq<T>)
    ensures forall x :: x in q <==> x in s
    ensures AllDifferent(q)
  {
    q := [];
    var left := s;
    while left != {}
      invariant left <= s && (forall x :: x in q <==> x in s - left) && AllDifferent(q)
    {
      var x :| x in left;
      AppendDiffers(q, x);
      q, left := q + [x], left - {x};
    }
  }

  ghost predicate AllDifferent<T>(q: seq<T>) {
    forall i, j :: 0 <= i < j < |q| ==> q[i] != q[j]
  }

  lemma AppendDiffers<T>(q: seq<T>, x: T)
    requires AllDifferent(q) && x !in q
    ensures AllDifferent(q + [x])
  {
    forall i, j | 0 <= i < j < |q + [x]|
      ensures (q + [x])[i] != (q + [x])[j]
    {
      assert q[i] in q;
    }
  }
}
