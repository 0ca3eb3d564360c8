/** The record on each point of a drive: one property value, or a pointer with a digest
    and the record in parts; written over whatever was there, and read back after
    writes that were torn. */
module PointRecords {
  import opened Replication
  import opened Exclusions

  const MARK_LIMIT := 8191
  const MAX_PARTS := 64

  /** JSON as far as the records use it; an object's keys are words or dataset names,
      and a word is a name of one component. */
  datatype Json =
    | Null
    | Bool(b: bool)
    | Int(n: int)
    | Text(s: string)
    | Pair(first: string, second: string)
    | Object(fields: map<Name, Json>)

  const TOPS: Name := ["tops"]
  const DATASETS: Name := ["datasets"]
  const PARTS: Name := ["parts"]
  const SHA256: Name := ["sha256"]

  /** The encoder, its reader and the digest. */
  datatype Codec = Codec(dumps: Json -> string, loads: string -> Option<Json>, digest: string -> string) {
    /** What was encoded is read back, and no two texts have one digest. */
    ghost predicate Valid() {
      && (forall j :: loads(dumps(j)) == Some(j))
      && (forall s, t :: digest(s) == digest(t) ==> s == t)
    }
  }

  // ---- the mark as text -------------------------------------------------------------

  function WordOf(flags: Flags): string {
    match flags
    case Backups => "backups"
    case Snapshots => "snapshots"
    case Both => "both"
  }

  function FlagsOf(word: string): Option<Flags> {
    if word == "backups" then Some(Backups)
    else if word == "snapshots" then Some(Snapshots)
    else if word == "both" then Some(Both)
    else None
  }

  function JsonOf(mark: PointMark): Json {
    Object(map[
      TOPS := Object(map t | t in mark.tops :: Text(WordOf(mark.tops[t]))),
      DATASETS := Object(map rel | rel in mark.datasets ::
        Pair(mark.datasets[rel].canmount, mark.datasets[rel].mountpoint))])
  }

  function Dump(c: Codec, mark: PointMark): string {
    (c.dumps)(JsonOf(mark))
  }

  /** What the record says of a top, in the words a reader finds. */
  lemma RecordSays(declared: Declared, origin: map<Name, Mount>, t: Name)
    ensures var j := JsonOf(MarkOf(declared, origin));
      && j.Object? && TOPS in j.fields && DATASETS in j.fields && j.fields[TOPS].Object? && j.fields[DATASETS].Object?
      && var rows, names := j.fields[TOPS].fields, j.fields[DATASETS].fields;
      && (t in rows <==> t in declared.NoBackup() || t in declared.NoSnapshot())
      && (t in rows && rows[t] == Text("both") <==>
            t in declared.NoBackup() && t in declared.tops && declared.tops[t].snapshot)
      && (t in rows && rows[t] == Text("snapshots") <==> t in declared.NoSnapshot() && t !in declared.NoBackup())
      && (t in names <==> t in origin && UnderAny(t, declared.NoBackup()))
      && (t in names ==> names[t] == Pair(origin[t].canmount, origin[t].mountpoint))
  {
    MarkSays(declared, origin, t);
    WordsDiffer();
  }

  lemma WordsDiffer()
    ensures "backups" != "snapshots" && "backups" != "both" && "snapshots" != "both"
  {
  }

  /** The entries under a key: none when it is missing; only an object has any. */
  function RowsOf(fields: map<Name, Json>, key: Name): Option<map<Name, Json>> {
    if key !in fields then Some(map[]) else if fields[key].Object? then Some(fields[key].fields) else None
  }

  predicate IsFlag(j: Json) {
    j.Text? && FlagsOf(j.s).Some?
  }

  /** A point's mark from its record; entries it cannot read are passed over. */
  function ParseMark(c: Codec, value: string): Option<PointMark> {
    match (c.loads)(value)
    case Some(Object(fields)) =>
      var tops, datasets := RowsOf(fields, TOPS), RowsOf(fields, DATASETS);
      if tops.None? || datasets.None? then None
      else Some(PointMark(
        map t | t in tops.value && IsFlag(tops.value[t]) :: FlagsOf(tops.value[t].s).value,
        map rel | rel in datasets.value && datasets.value[rel].Pair?
          :: Mount(datasets.value[rel].first, datasets.value[rel].second)))
    case _ => None
  }

  lemma WordBack(flags: Flags)
    ensures FlagsOf(WordOf(flags)) == Some(flags)
  {
  }

  lemma TopsBack(tops: map<Name, Flags>, rows: map<Name, Json>)
    requires rows.Keys == tops.Keys && forall t :: t in tops ==> rows[t] == Text(WordOf(tops[t]))
    ensures (map t | t in rows && IsFlag(rows[t]) :: FlagsOf(rows[t].s).value) == tops
  {
    forall t | t in tops
      ensures IsFlag(rows[t]) && FlagsOf(rows[t].s).value == tops[t]
    {
      WordBack(tops[t]);
    }
  }

  lemma ParseDump(c: Codec, mark: PointMark)
    requires c.Valid()
    ensures ParseMark(c, Dump(c, mark)) == Some(mark)
  {
    var j := JsonOf(mark);
    assert (c.loads)((c.dumps)(j)) == Some(j);
    TopsBack(mark.tops, j.fields[TOPS].fields);
    var read := ParseMark(c, Dump(c, mark)).value;
    assert read.datasets == mark.datasets;
  }

  /** What a point's record says is left out is what was declared. */
  lemma RecordCovers(c: Codec, declared: Declared, origin: map<Name, Mount>, rel: Name)
    requires c.Valid()
    ensures var read := ParseMark(c, Dump(c, MarkOf(declared, origin)));
      read.Some? && (read.value.Covers(rel) <==> UnderAny(rel, declared.BackupTops()))
  {
    ParseDump(c, MarkOf(declared, origin));
    MarkCovers(declared, origin, rel);
  }

  // ---- one value or parts ---------------------------------------------------------------

  datatype Prop = Mark | Part(i: nat)

  /** The local properties of a snapshot. */
  type Props = map<Prop, string>

  function Pieces(mark: string): seq<string> {
    if |mark| <= MARK_LIMIT then (if mark == "" then [] else [mark])
    else [mark[..MARK_LIMIT]] + Pieces(mark[MARK_LIMIT..])
  }

  function Joined(pieces: seq<string>): string {
    if pieces == [] then "" else pieces[0] + Joined(pieces[1..])
  }

  function PartsNeeded(mark: string): nat {
    var n := (|mark| + MARK_LIMIT - 1) / MARK_LIMIT;
    if n < 1 then 1 else n
  }

  function PointerTo(c: Codec, mark: string): string {
    (c.dumps)(Object(map[PARTS := Int(|Pieces(mark)|), SHA256 := Text((c.digest)(mark))]))
  }

  /** The properties that hold a record. */
  function RecordProps(c: Codec, mark: string): Props {
    if |mark| <= MARK_LIMIT then map[Mark := mark]
    else map p: Prop | p in PartProps(|Pieces(mark)|) + {Mark} :: ValueAt(c, mark, p)
  }

  function ValueAt(c: Codec, mark: string, p: Prop): string {
    if p == Mark then PointerTo(c, mark) else PieceAt(mark, p)
  }

  function PartProps(n: nat): set<Prop> {
    set i | 1 <= i <= n :: Part(i)
  }

  function PieceAt(mark: string, p: Prop): string {
    if p.Part? && 1 <= p.i <= |Pieces(mark)| then Pieces(mark)[p.i - 1] else ""
  }

  datatype Pointer = NoPointer | Broken | Points(parts: nat, digest: string)

  /** Whether a value points to parts: a record of its own does not; a pointer that
      cannot be followed is broken. */
  function PointerOf(c: Codec, value: string): Pointer {
    match (c.loads)(value)
    case Some(Object(fields)) =>
      if PARTS !in fields then NoPointer
      else if !fields[PARTS].Int? || !(1 <= fields[PARTS].n <= MAX_PARTS) then Broken
      else if SHA256 !in fields || !fields[SHA256].Text? then Broken
      else Points(fields[PARTS].n, fields[SHA256].s)
    case _ => NoPointer
  }

  /** Parts one to `n`, as far as they are set. */
  function PartsOf(props: Props, n: nat): seq<string> {
    if n == 0 then [] else PartsOf(props, n - 1) + if Part(n) in props then [props[Part(n)]] else []
  }

  predicate AllSet(props: Props, n: nat) {
    forall i :: 1 <= i <= n ==> Part(i) in props
  }

  /** What a snapshot's properties say: nothing, a record, or one that is incomplete. */
  datatype Reading = NoRecord | Incomplete | Complete(text: string)

  function Reads(c: Codec, props: Props): Reading {
    if Mark !in props then NoRecord
    else match PointerOf(c, props[Mark])
      case NoPointer => Complete(props[Mark])
      case Broken => Incomplete
      case Points(n, digest) =>
        var text := Joined(PartsOf(props, n));
        if AllSet(props, n) && (c.digest)(text) == digest then Complete(text) else Incomplete
  }

  /** Reading one snapshot's record, part by part. */
  method ReadRecord(c: Codec, props: Props) returns (r: Reading)
    ensures r == Reads(c, props)
  {
    if Mark !in props {
      return NoRecord;
    }
    var pointer := PointerOf(c, props[Mark]);
    if pointer.NoPointer? {
      return Complete(props[Mark]);
    }
    if pointer.Broken? {
      return Incomplete;
    }
    var joined, whole := "", true;
    for i := 0 to pointer.parts
      invariant joined == Joined(PartsOf(props, i)) && (whole <==> AllSet(props, i))
    {
      if Part(i + 1) in props {
        JoinedOne(PartsOf(props, i), props[Part(i + 1)]);
        joined := joined + props[Part(i + 1)];
      } else {
        assert PartsOf(props, i + 1) == PartsOf(props, i);
        whole := false;
      }
    }
    r := if whole && (c.digest)(joined) == pointer.digest then Complete(joined) else Incomplete;
  }

  function ValueOf(props: Props, i: nat): string {
    if Part(i) in props then props[Part(i)] else ""
  }

  /** Nothing is read of a snapshot without a first value; a value that is no pointer is the
      record; else the record is its parts, joined, if none is missing and the digest agrees. */
  lemma ReadsSay(c: Codec, props: Props)
    ensures Reads(c, props) == NoRecord <==> Mark !in props
    ensures Mark in props && PointerOf(c, props[Mark]) == NoPointer ==> Reads(c, props) == Complete(props[Mark])
    ensures Mark in props && PointerOf(c, props[Mark]) == Broken ==> Reads(c, props) == Incomplete
    ensures Mark in props && PointerOf(c, props[Mark]).Points? ==>
      var p := PointerOf(c, props[Mark]);
      var joined := Joined(seq(p.parts, i requires 0 <= i < p.parts => ValueOf(props, i + 1)));
      Reads(c, props) ==
        if (forall i :: 1 <= i <= p.parts ==> Part(i) in props) && (c.digest)(joined) == p.digest
        then Complete(joined) else Incomplete
  {
    if Mark in props && PointerOf(c, props[Mark]).Points? {
      var p := PointerOf(c, props[Mark]);
      if AllSet(props, p.parts) {
        PartsInOrder(props, p.parts);
        assert PartsOf(props, p.parts) == seq(p.parts, i requires 0 <= i < p.parts => ValueOf(props, i + 1));
      }
    }
  }

  lemma {:induction false} PartsInOrder(props: Props, n: nat)
    requires AllSet(props, n)
    ensures |PartsOf(props, n)| == n && forall i :: 0 <= i < n ==> PartsOf(props, n)[i] == props[Part(i + 1)]
  {
    if n > 0 {
      PartsInOrder(props, n - 1);
    }
  }

  lemma {:induction false} JoinedOne(pieces: seq<string>, last: string)
    ensures Joined(pieces + [last]) == Joined(pieces) + last
  {
    if pieces != [] {
      assert (pieces + [last])[1..] == pieces[1..] + [last];
      JoinedOne(pieces[1..], last);
      assert pieces[0] + (Joined(pieces[1..]) + last) == pieces[0] + Joined(pieces[1..]) + last;
    } else {
      assert [last][1..] == [];
    }
  }

  // ---- what was written is read ----------------------------------------------------------

  lemma {:induction false} PiecesJoin(mark: string)
    ensures Joined(Pieces(mark)) == mark
  {
    if |mark| > MARK_LIMIT {
      PiecesJoin(mark[MARK_LIMIT..]);
      assert Pieces(mark)[1..] == Pieces(mark[MARK_LIMIT..]);
    } else if mark != "" {
      assert [mark][1..] == [];
    }
  }

  /** Every piece fits in a value, and there are as many as said. */
  lemma {:induction false} PiecesFit(mark: string)
    ensures forall i :: 0 <= i < |Pieces(mark)| ==> 0 < |Pieces(mark)[i]| <= MARK_LIMIT
    ensures PartsNeeded(mark) == if mark == "" then 1 else |Pieces(mark)|
  {
    if |mark| > MARK_LIMIT {
      PiecesFit(mark[MARK_LIMIT..]);
    }
  }

  /** The values that hold a record, without the pointer: as many as needed. */
  lemma ValuesHeld(c: Codec, mark: string)
    ensures |RecordProps(c, mark).Keys| == if |mark| <= MARK_LIMIT then PartsNeeded(mark) else PartsNeeded(mark) + 1
  {
    PiecesFit(mark);
    if |mark| > MARK_LIMIT {
      var n := |Pieces(mark)|;
      assert RecordProps(c, mark).Keys == PartProps(n) + {Mark};
      PartPropsSize(n);
      assert Mark !in PartProps(n);
    } else {
      assert RecordProps(c, mark).Keys == {Mark};
    }
  }

  lemma {:induction false} PartPropsSize(n: nat)
    ensures |PartProps(n)| == n
  {
    if n > 0 {
      PartPropsSize(n - 1);
      assert PartProps(n) == PartProps(n - 1) + {Part(n)};
    } else {
      assert PartProps(0) == {};
    }
  }

  /** No record of a point is ever taken for a pointer. */
  lemma DumpIsNoPointer(c: Codec, mark: PointMark)
    requires c.Valid()
    ensures PointerOf(c, Dump(c, mark)) == NoPointer
  {
    assert (c.loads)((c.dumps)(JsonOf(mark))) == Some(JsonOf(mark));
  }

  /** A pointer written is followed exactly when it names no more parts than one may. */
  lemma PointerIsRead(c: Codec, mark: string)
    requires c.Valid() && |mark| > MARK_LIMIT
    ensures PointerOf(c, PointerTo(c, mark)) ==
      if PartsNeeded(mark) <= MAX_PARTS then Points(PartsNeeded(mark), (c.digest)(mark)) else Broken
  {
    var j := Object(map[PARTS := Int(|Pieces(mark)|), SHA256 := Text((c.digest)(mark))]);
    assert (c.loads)((c.dumps)(j)) == Some(j);
    PiecesFit(mark);
  }

  predicate HoldsPiece(now: Props, pieces: seq<string>, i: nat) {
    1 <= i <= |pieces| && Part(i) in now && now[Part(i)] == pieces[i - 1]
  }

  lemma {:induction false} PartsRead(now: Props, pieces: seq<string>, n: nat)
    requires n <= |pieces| && forall i :: 1 <= i <= n ==> HoldsPiece(now, pieces, i)
    ensures AllSet(now, n) && PartsOf(now, n) == pieces[..n]
  {
    if n > 0 {
      PartsRead(now, pieces, n - 1);
      assert HoldsPiece(now, pieces, n);
      assert pieces[..n] == pieces[..n - 1] + [pieces[n - 1]];
    }
  }

  lemma PartWritten(c: Codec, mark: string, props: Props, n: nat)
    requires |mark| > MARK_LIMIT && 1 <= n <= |Pieces(mark)|
    ensures HoldsPiece(props + RecordProps(c, mark), Pieces(mark), n)
  {
    assert Part(n) in PartProps(|Pieces(mark)|);
    assert PieceAt(mark, Part(n)) == Pieces(mark)[n - 1];
  }

  /** A record written over whatever was there is read back, exactly when it takes no more
      parts than one may point to. */
  lemma RoundTrip(c: Codec, mark: PointMark, props: Props)
    requires c.Valid()
    ensures var text := Dump(c, mark);
      Reads(c, props + RecordProps(c, text)) == if PartsNeeded(text) <= MAX_PARTS then Complete(text) else Incomplete
  {
    var text := Dump(c, mark);
    PiecesFit(text);
    if |text| <= MARK_LIMIT {
      DumpIsNoPointer(c, mark);
    } else {
      PointerIsRead(c, text);
      var n := |Pieces(text)|;
      forall i | 1 <= i <= n
        ensures HoldsPiece(props + RecordProps(c, text), Pieces(text), i)
      {
        PartWritten(c, text, props, i);
      }
      PartsRead(props + RecordProps(c, text), Pieces(text), n);
      assert Pieces(text)[..n] == Pieces(text);
      PiecesJoin(text);
    }
  }

  /** Writing a point's record: refused, with nothing written, when it takes more parts
      than one may point to. Whatever is written is read back as the mark. */
  method WriteRecord(c: Codec, mark: PointMark, props: Props) returns (after: Option<Props>)
    requires c.Valid()
    ensures after.None? <==> PartsNeeded(Dump(c, mark)) > MAX_PARTS
    ensures after.Some? ==> Reads(c, after.value) == Complete(Dump(c, mark))
    ensures after.Some? ==> ParseMark(c, Reads(c, after.value).text) == Some(mark)
    ensures after.Some? ==> forall p :: p in props && p !in RecordProps(c, Dump(c, mark)) ==> p in after.value
  {
    var text := Dump(c, mark);
    if PartsNeeded(text) > MAX_PARTS {
      return None;
    }
    RoundTrip(c, mark, props);
    ParseDump(c, mark);
    return Some(props + RecordProps(c, text));
  }

  // ---- torn writes ------------------------------------------------------------------------

  /** Some of a record's properties landed, the others did not. */
  ghost predicate Torn(c: Codec, before: Props, text: string, landed: set<Prop>, after: Props) {
    && landed <= RecordProps(c, text).Keys
    && after.Keys == before.Keys + landed
    && (forall p :: p in after ==> after[p] == if p in landed then RecordProps(c, text)[p] else before[p])
  }

  /** Whatever parts are set: with a record's own first value in place, the reader gives
      that record or none. */
  lemma ReadsOwnOrNone(c: Codec, mark: PointMark, props: Props)
    requires c.Valid() && Mark in props && props[Mark] == RecordProps(c, Dump(c, mark))[Mark]
    ensures Reads(c, props) in {Complete(Dump(c, mark)), Incomplete}
  {
    var text := Dump(c, mark);
    if |text| <= MARK_LIMIT {
      DumpIsNoPointer(c, mark);
    } else {
      PointerIsRead(c, text);
    }
  }

  /** Writes of one record after another, each torn anywhere. */
  ghost predicate IsRewriting(c: Codec, states: seq<Props>, marks: seq<PointMark>, landed: seq<set<Prop>>) {
    && |states| == |marks| == |landed| && |marks| >= 1
    && Mark in states[0] && states[0][Mark] == RecordProps(c, Dump(c, marks[0]))[Mark]
    && forall k: nat :: 1 <= k < |marks| ==> TornAt(c, states, marks, landed, k)
  }

  ghost predicate TornAt(c: Codec, states: seq<Props>, marks: seq<PointMark>, landed: seq<set<Prop>>, k: nat)
    requires |states| == |marks| == |landed| && 1 <= k < |marks|
  {
    Torn(c, states[k - 1], Dump(c, marks[k]), landed[k], states[k])
  }

  /** Of the writes up to `k`, the last whose first value landed (the first of all was
      there from the start). */
  predicate LastLanded(landed: seq<set<Prop>>, j: nat, k: nat) {
    && j <= k < |landed| && (j == 0 || Mark in landed[j])
    && forall i :: j < i <= k ==> Mark !in landed[i]
  }

  /** The first value in place is that of the last record whose own landed. */
  lemma {:induction false} MarkInPlace(c: Codec, states: seq<Props>, marks: seq<PointMark>, landed: seq<set<Prop>>,
                                       k: nat)
    returns (j: nat)
    requires IsRewriting(c, states, marks, landed) && k < |marks|
    ensures LastLanded(landed, j, k)
    ensures Mark in states[k] && states[k][Mark] == RecordProps(c, Dump(c, marks[j]))[Mark]
  {
    if k == 0 {
      j := 0;
    } else {
      assert TornAt(c, states, marks, landed, k);
      if Mark in landed[k] {
        j := k;
      } else {
        j := MarkInPlace(c, states, marks, landed, k - 1);
      }
    }
  }

  /** However many writes were torn, and wherever: the reader gives the last record whose
      first value landed, or none; never anything else. */
  lemma TornWrites(c: Codec, states: seq<Props>, marks: seq<PointMark>, landed: seq<set<Prop>>, k: nat)
    requires c.Valid() && IsRewriting(c, states, marks, landed) && k < |marks|
    ensures exists j: nat ::
      LastLanded(landed, j, k) && Reads(c, states[k]) in {Complete(Dump(c, marks[j])), Incomplete}
  {
    var j := MarkInPlace(c, states, marks, landed, k);
    ReadsOwnOrNone(c, marks[j], states[k]);
  }
}
