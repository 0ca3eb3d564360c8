/** The rewrites recover makes when /boot is a new file system, and the readers that
    judge them. Text is lines of pieces: a UUID that stands alone is one piece, whatever
    case it is written in; any other character is one. */
module BootRewrite {
  import opened Replication

  datatype Piece = Uuid(id: nat, spelling: nat) | Char(c: char)

  type Line = seq<Piece>

  function Plain(s: string): (line: Line)
    ensures |line| == |s| && forall i :: 0 <= i < |s| ==> line[i] == Char(s[i])
  {
    seq(|s|, i requires 0 <= i < |s| => Char(s[i]))
  }

  predicate IsBlank(p: Piece) {
    p == Char(' ') || p == Char('\t')
  }

  predicate Names(line: Line, id: nat) {
    exists i :: 0 <= i < |line| && line[i].Uuid? && line[i].id == id
  }

  // ---- a line's fields ----------------------------------------------------------------

  function WordEnd(line: Line): (n: nat)
    ensures n <= |line|
    ensures line != [] && !IsBlank(line[0]) ==> n > 0
  {
    if line == [] || IsBlank(line[0]) then 0 else 1 + WordEnd(line[1..])
  }

  function Words(line: Line): (words: seq<Line>)
    ensures forall i :: 0 <= i < |words| ==> words[i] != []
  {
    if line == [] then []
    else if IsBlank(line[0]) then Words(line[1..])
    else [line[..WordEnd(line)]] + Words(line[WordEnd(line)..])
  }

  /** None for a comment or a blank line. */
  function Fields(line: Line): seq<Line> {
    var words := Words(line);
    if words == [] || words[0][0] == Char('#') then [] else words
  }

  // ---- replacing one UUID ----------------------------------------------------------------

  function SwapPiece(p: Piece, prior: nat, to: Piece): Piece {
    if p.Uuid? && p.id == prior then to else p
  }

  function Swap(line: Line, prior: nat, to: Piece): (r: Line)
    ensures |r| == |line| && forall i :: 0 <= i < |line| ==> r[i] == SwapPiece(line[i], prior, to)
  {
    seq(|line|, i requires 0 <= i < |line| => SwapPiece(line[i], prior, to))
  }

  function SwapAll(lines: seq<Line>, prior: nat, to: Piece): (r: seq<Line>)
    ensures |r| == |lines| && forall i :: 0 <= i < |lines| ==> r[i] == Swap(lines[i], prior, to)
  {
    seq(|lines|, i requires 0 <= i < |lines| => Swap(lines[i], prior, to))
  }

  lemma {:induction false} SwapWordEnd(line: Line, prior: nat, to: Piece)
    requires to.Uuid?
    ensures WordEnd(Swap(line, prior, to)) == WordEnd(line)
  {
    if line != [] {
      assert Swap(line, prior, to)[1..] == Swap(line[1..], prior, to);
      SwapWordEnd(line[1..], prior, to);
    }
  }

  lemma {:induction false} SwapWords(line: Line, prior: nat, to: Piece)
    requires to.Uuid?
    ensures Words(Swap(line, prior, to)) == SwapAll(Words(line), prior, to)
    decreases |line|
  {
    if line != [] {
      var r := Swap(line, prior, to);
      if IsBlank(line[0]) {
        assert r[1..] == Swap(line[1..], prior, to);
        SwapWords(line[1..], prior, to);
      } else {
        var n := WordEnd(line);
        SwapWordEnd(line, prior, to);
        assert r[..n] == Swap(line[..n], prior, to) && r[n..] == Swap(line[n..], prior, to);
        SwapWords(line[n..], prior, to);
      }
    }
  }

  /** The fields of a line keep their places. */
  lemma SwapFields(line: Line, prior: nat, to: Piece)
    requires to.Uuid?
    ensures Fields(Swap(line, prior, to)) == SwapAll(Fields(line), prior, to)
  {
    SwapWords(line, prior, to);
  }

  lemma SwapNames(line: Line, prior: nat, to: Piece, id: nat)
    requires to.Uuid?
    ensures Names(Swap(line, prior, to), id) <==>
      (id != prior && Names(line, id)) || (id == to.id && Names(line, prior))
  {
    var r := Swap(line, prior, to);
    if Names(line, id) && id != prior {
      var i :| 0 <= i < |line| && line[i].Uuid? && line[i].id == id;
      assert r[i] == line[i];
    }
    if id == to.id && Names(line, prior) {
      var i :| 0 <= i < |line| && line[i].Uuid? && line[i].id == prior;
      assert r[i] == to;
    }
  }

  lemma SwapNothing(line: Line, prior: nat, to: Piece)
    requires !Names(line, prior)
    ensures Swap(line, prior, to) == line
  {
  }

  // ---- fstab --------------------------------------------------------------------------

  const BOOT := "/boot"
  const UUID_SPEC := "UUID="
  const BY_UUID := "/dev/disk/by-uuid/"

  /** /boot's line, with the old UUID in its first field. */
  predicate IsOldBoot(line: Line, prior: nat) {
    var f := Fields(line);
    |f| >= 2 && f[1] == Plain(BOOT) && Names(f[0], prior)
  }

  function FstabLine(line: Line, prior: nat, to: Piece): Line {
    if IsOldBoot(line, prior) then Swap(line, prior, to) else line
  }

  /** The UUID of a field that names a file system by it. */
  function SpecUuid(spec: Line): Option<nat> {
    var rest :=
      if Plain(UUID_SPEC) <= spec then spec[|UUID_SPEC|..]
      else if Plain(BY_UUID) <= spec then spec[|BY_UUID|..]
      else [];
    if |rest| == 1 && rest[0].Uuid? then Some(rest[0].id) else None
  }

  datatype BootFs = BootFs(id: nat, kind: Line)

  function BootOf(line: Line): Option<BootFs> {
    var f := Fields(line);
    if |f| >= 3 && f[1] == Plain(BOOT) && SpecUuid(f[0]).Some? then Some(BootFs(SpecUuid(f[0]).value, f[2])) else None
  }

  /** /boot's file system in an fstab, by its first line that says so. */
  function FstabBoot(text: seq<Line>): Option<BootFs> {
    if text == [] then None
    else if BootOf(text[0]).Some? then BootOf(text[0])
    else FstabBoot(text[1..])
  }

  lemma SwapSpec(spec: Line, prior: nat, to: Piece)
    requires to.Uuid?
    ensures SpecUuid(Swap(spec, prior, to)) == if SpecUuid(spec) == Some(prior) then Some(to.id) else SpecUuid(spec)
  {
    var r := Swap(spec, prior, to);
    SwapPrefix(spec, prior, to, UUID_SPEC);
    SwapPrefix(spec, prior, to, BY_UUID);
  }

  lemma SwapPrefix(spec: Line, prior: nat, to: Piece, s: string)
    requires to.Uuid?
    ensures Plain(s) <= Swap(spec, prior, to) <==> Plain(s) <= spec
    ensures Plain(s) <= spec ==> Swap(spec, prior, to)[|s|..] == Swap(spec[|s|..], prior, to)
  {
    var r := Swap(spec, prior, to);
    if |s| <= |spec| {
      assert forall i :: 0 <= i < |s| ==> (r[i] == Char(s[i]) <==> spec[i] == Char(s[i]));
      assert Plain(s) <= spec <==> forall i :: 0 <= i < |s| ==> spec[i] == Char(s[i]);
      assert Plain(s) <= r <==> forall i :: 0 <= i < |s| ==> r[i] == Char(s[i]);
    }
  }

  lemma SwapPlain(line: Line, prior: nat, to: Piece, s: string)
    requires to.Uuid?
    ensures Swap(line, prior, to) == Plain(s) <==> line == Plain(s)
  {
    SwapPrefix(line, prior, to, s);
  }

  lemma SpecIsNamed(spec: Line)
    ensures SpecUuid(spec).Some? ==> Names(spec, SpecUuid(spec).value)
  {
    if SpecUuid(spec).Some? {
      var last := spec[|spec| - 1];
      assert last.Uuid? && last.id == SpecUuid(spec).value;
    }
  }

  /** What /boot's line says after the rewrite: nothing if it said nothing; the new UUID
      for the old one, in the type too. */
  lemma BootRewritten(line: Line, prior: nat, to: Piece)
    requires to.Uuid?
    ensures BootOf(line).None? ==> BootOf(FstabLine(line, prior, to)).None?
    ensures BootOf(line).Some? && BootOf(line).value.id == prior ==>
      BootOf(FstabLine(line, prior, to)) == Some(BootFs(to.id, Swap(BootOf(line).value.kind, prior, to)))
  {
    var f := Fields(line);
    if |f| >= 2 {
      SpecIsNamed(f[0]);
      SwapFields(line, prior, to);
      SwapSpec(f[0], prior, to);
      SwapPlain(f[1], prior, to, BOOT);
    }
  }

  function FstabRewritten(text: seq<Line>, prior: nat, to: Piece): (r: seq<Line>)
    ensures |r| == |text| && forall i :: 0 <= i < |text| ==> r[i] == FstabLine(text[i], prior, to)
  {
    seq(|text|, i requires 0 <= i < |text| => FstabLine(text[i], prior, to))
  }

  predicate IsComment(line: Line) {
    exists n :: 0 <= n < |line| && line[n] == Char('#') && forall i :: 0 <= i < n ==> IsBlank(line[i])
  }

  lemma {:induction false} CommentFields(line: Line)
    requires IsComment(line)
    ensures Words(line) != [] && Words(line)[0][0] == Char('#')
  {
    if IsBlank(line[0]) {
      var n :| 0 <= n < |line| && line[n] == Char('#') && forall i :: 0 <= i < n ==> IsBlank(line[i]);
      assert line[1..][n - 1] == Char('#');
      CommentFields(line[1..]);
    }
  }

  /** What the rewrite does to a line: nothing to a comment or a line whose second field is not
      /boot, or whose first does not name the old UUID; else the old UUID is replaced wherever
      it stands. */
  lemma FstabOthers(text: seq<Line>, prior: nat, to: Piece, i: nat)
    requires i < |text|
    ensures var was, now, f := text[i], FstabRewritten(text, prior, to)[i], Fields(text[i]);
      && (IsComment(was) || |f| < 2 || f[1] != Plain("/boot") || !Names(f[0], prior) ==> now == was)
      && (|f| >= 2 && f[1] == Plain("/boot") && Names(f[0], prior) ==>
            |now| == |was| && forall k :: 0 <= k < |was| ==>
              now[k] == if was[k].Uuid? && was[k].id == prior then to else was[k])
  {
    if IsComment(text[i]) {
      CommentFields(text[i]);
    }
  }

  lemma {:induction false} FstabReadSwapped(text: seq<Line>, prior: nat, to: Piece)
    requires to.Uuid? && FstabBoot(text).Some? && FstabBoot(text).value.id == prior
    ensures FstabBoot(FstabRewritten(text, prior, to)) ==
      Some(BootFs(to.id, Swap(FstabBoot(text).value.kind, prior, to)))
  {
    BootRewritten(text[0], prior, to);
    if BootOf(text[0]).None? {
      assert FstabRewritten(text, prior, to)[1..] == FstabRewritten(text[1..], prior, to);
      FstabReadSwapped(text[1..], prior, to);
    }
  }

  /** Where /boot was read as the old UUID, it is read as the new one; with the same type
      exactly when the type does not name the old one. */
  lemma FstabRead(text: seq<Line>, prior: nat, to: Piece)
    requires to.Uuid? && to.id != prior && FstabBoot(text).Some? && FstabBoot(text).value.id == prior
    ensures var now := FstabBoot(FstabRewritten(text, prior, to));
      && now.Some? && now.value.id == to.id
      && (now.value.kind == FstabBoot(text).value.kind <==> !Names(FstabBoot(text).value.kind, prior))
  {
    var kind := FstabBoot(text).value.kind;
    FstabReadSwapped(text, prior, to);
    if Names(kind, prior) {
      var i :| 0 <= i < |kind| && kind[i].Uuid? && kind[i].id == prior;
      assert Swap(kind, prior, to)[i] == to;
    } else {
      SwapNothing(kind, prior, to);
    }
  }

  /** How many of the lines are others than before. */
  function Changed(was: seq<Line>, now: seq<Line>): nat
    requires |was| == |now|
  {
    if was == [] then 0
    else Changed(was[..|was| - 1], now[..|now| - 1]) + if was[|was| - 1] != now[|now| - 1] then 1 else 0
  }

  lemma {:induction false} NoneChanged(was: seq<Line>)
    ensures Changed(was, was) == 0
  {
    if was != [] {
      NoneChanged(was[..|was| - 1]);
    }
  }

  lemma ChangedNext(was: seq<Line>, now: seq<Line>, a: Line, b: Line)
    requires |was| == |now|
    ensures Changed(was + [a], now + [b]) == Changed(was, now) + if a != b then 1 else 0
  {
    assert (was + [a])[..|was|] == was && (now + [b])[..|now|] == now;
  }

  method RewriteFstab(text: seq<Line>, prior: nat, to: Piece) returns (out: seq<Line>, changed: nat)
    ensures out == FstabRewritten(text, prior, to) && changed == Changed(text, out)
  {
    out, changed := [], 0;
    for i := 0 to |text|
      invariant out == FstabRewritten(text[..i], prior, to) && changed == Changed(text[..i], out)
    {
      var line := text[i];
      if IsOldBoot(line, prior) {
        line := Swap(line, prior, to);
      }
      ChangedNext(text[..i], out, text[i], line);
      FstabNext(text, prior, to, i);
      changed := changed + if line != text[i] then 1 else 0;
      out := out + [line];
    }
    assert text[..|text|] == text;
  }

  lemma FstabNext(text: seq<Line>, prior: nat, to: Piece, i: nat)
    requires i < |text|
    ensures text[..i + 1] == text[..i] + [text[i]]
    ensures FstabRewritten(text[..i + 1], prior, to) ==
      FstabRewritten(text[..i], prior, to) + [FstabLine(text[i], prior, to)]
  {
  }

  /** A second pass changes nothing. */
  lemma FstabTwice(text: seq<Line>, prior: nat, to: Piece)
    requires to.Uuid? && to.id != prior
    ensures var once := FstabRewritten(text, prior, to);
      FstabRewritten(once, prior, to) == once && Changed(once, FstabRewritten(once, prior, to)) == 0
  {
    var once := FstabRewritten(text, prior, to);
    forall i | 0 <= i < |text|
      ensures FstabLine(once[i], prior, to) == once[i]
    {
      if IsOldBoot(text[i], prior) {
        SwapNames(text[i], prior, to, prior);
        SwapNothing(once[i], prior, to);
      }
    }
    assert FstabRewritten(once, prior, to) == once;
    NoneChanged(once);
  }

  // ---- grub.cfg -------------------------------------------------------------------------

  const SEARCH := "search"
  const SEARCH_DOT := "search."

  /** A GRUB search command. */
  predicate IsSearch(line: Line) {
    var words := Words(line);
    words != [] && (words[0] == Plain(SEARCH) || Plain(SEARCH_DOT) <= words[0])
  }

  function GrubLine(line: Line, prior: nat, to: Piece): Line {
    if IsSearch(line) && Names(line, prior) then Swap(line, prior, to) else line
  }

  function GrubRewritten(text: seq<Line>, prior: nat, to: Piece): (r: seq<Line>)
    ensures |r| == |text| && forall i :: 0 <= i < |text| ==> r[i] == GrubLine(text[i], prior, to)
  {
    seq(|text|, i requires 0 <= i < |text| => GrubLine(text[i], prior, to))
  }

  method RewriteGrub(text: seq<Line>, prior: nat, to: Piece) returns (out: seq<Line>, changed: nat)
    ensures out == GrubRewritten(text, prior, to) && changed == Changed(text, out)
  {
    out, changed := [], 0;
    for i := 0 to |text|
      invariant out == GrubRewritten(text[..i], prior, to) && changed == Changed(text[..i], out)
    {
      var line := text[i];
      if IsSearch(line) && Names(line, prior) {
        line := Swap(line, prior, to);
      }
      ChangedNext(text[..i], out, text[i], line);
      GrubNext(text, prior, to, i);
      changed := changed + if line != text[i] then 1 else 0;
      out := out + [line];
    }
    assert text[..|text|] == text;
  }

  lemma GrubNext(text: seq<Line>, prior: nat, to: Piece, i: nat)
    requires i < |text|
    ensures text[..i + 1] == text[..i] + [text[i]]
    ensures GrubRewritten(text[..i + 1], prior, to) ==
      GrubRewritten(text[..i], prior, to) + [GrubLine(text[i], prior, to)]
  {
  }

  predicate TextNames(text: seq<Line>, id: nat) {
    exists i :: 0 <= i < |text| && Names(text[i], id)
  }

  predicate SearchNames(text: seq<Line>, id: nat) {
    exists i :: 0 <= i < |text| && IsSearch(text[i]) && Names(text[i], id)
  }

  /** The checker's clauses on grub.cfg: the old UUID nowhere, the new one in a search. */
  predicate GrubPasses(text: seq<Line>, prior: nat, next: nat) {
    !TextNames(text, prior) && SearchNames(text, next)
  }

  lemma GrubLineIs(line: Line, prior: nat, to: Piece)
    requires to.Uuid? && to.id != prior
    ensures IsSearch(GrubLine(line, prior, to)) <==> IsSearch(line)
    ensures Names(GrubLine(line, prior, to), prior) <==> Names(line, prior) && !IsSearch(line)
    ensures Names(GrubLine(line, prior, to), to.id) <==> Names(line, to.id) || (IsSearch(line) && Names(line, prior))
  {
    SwapWords(line, prior, to);
    if Words(line) != [] {
      SwapPlain(Words(line)[0], prior, to, SEARCH);
      SwapPrefix(Words(line)[0], prior, to, SEARCH_DOT);
    }
    SwapNames(line, prior, to, prior);
    SwapNames(line, prior, to, to.id);
  }

  /** A rewritten grub.cfg passes exactly when no other line than a search named the old
      UUID, and some search named the old one or the new one. */
  lemma GrubPassesExactly(text: seq<Line>, prior: nat, to: Piece)
    requires to.Uuid? && to.id != prior
    ensures GrubPasses(GrubRewritten(text, prior, to), prior, to.id) <==>
      && (forall i :: 0 <= i < |text| && Names(text[i], prior) ==> IsSearch(text[i]))
      && (SearchNames(text, prior) || SearchNames(text, to.id))
  {
    var r := GrubRewritten(text, prior, to);
    forall i | 0 <= i < |text|
      ensures IsSearch(r[i]) <==> IsSearch(text[i])
      ensures Names(r[i], prior) <==> Names(text[i], prior) && !IsSearch(text[i])
      ensures Names(r[i], to.id) <==> Names(text[i], to.id) || (IsSearch(text[i]) && Names(text[i], prior))
    {
      GrubLineIs(text[i], prior, to);
    }
    if SearchNames(text, prior) {
      var i :| 0 <= i < |text| && IsSearch(text[i]) && Names(text[i], prior);
      assert IsSearch(r[i]) && Names(r[i], to.id);
    }
    if SearchNames(text, to.id) {
      var i :| 0 <= i < |text| && IsSearch(text[i]) && Names(text[i], to.id);
      assert IsSearch(r[i]) && Names(r[i], to.id);
    }
  }

  /** Lines that are no search for the old UUID stay as they are; a second pass changes
      nothing. */
  lemma GrubTwice(text: seq<Line>, prior: nat, to: Piece)
    requires to.Uuid? && to.id != prior
    ensures var once := GrubRewritten(text, prior, to);
      && GrubRewritten(once, prior, to) == once && Changed(once, GrubRewritten(once, prior, to)) == 0
      && (forall i :: 0 <= i < |text| && !(IsSearch(text[i]) && Names(text[i], prior)) ==> once[i] == text[i])
  {
    var once := GrubRewritten(text, prior, to);
    forall i | 0 <= i < |text|
      ensures GrubLine(once[i], prior, to) == once[i]
    {
      GrubLineIs(text[i], prior, to);
    }
    assert GrubRewritten(once, prior, to) == once;
    NoneChanged(once);
  }
}
