/** Every history of a drive keeps what decides which destroys are offered, received
    clones included. */
module ReceiptHistory {
  import opened Replication
  import opened Dependents
  import opened Lineages
  import opened Branching
  import opened Rollbacks
  import opened Receipts

  /** What leads to a live dataset is an archive of it. */
  lemma LeadsFromArchive(d: Tree, s: Name, live: Name)
    requires Valid(d) && Reaches(d, s, live) && !IsArchived(live)
    ensures s in d && s != live && |s| >= 1 && HasMark(Last(s))
    ensures Related(live, s)
  {
    ReachesRelated(d, s, live);
    if s == live {
      NotToItself(d, s, live);
    }
    RelatedSym(live, s);
    MarkedBeside(live, s);
  }

  lemma {:induction false} NotToItself(d: Tree, b: Name, a: Name)
    requires Valid(d) && Reaches(d, b, a)
    ensures a in d && (d[a].origin.Some? ==> d[a].origin.value < d[b].origin.value)
    ensures a != b
    decreases if b in d && d[b].origin.Some? then d[b].origin.value + 1 else 0
  {
    var h :| Own(d, b, h) && NextReaches(d, b, h, a);
    NotFromItself(d, b);
    if h != a {
      NotToItself(d, h, a);
    } else if d[h].origin.Some? {
      OlderOrigin(d, b, h);
    }
  }

  // ---- a branch -----------------------------------------------------------------------

  ghost predicate IsBranch(d: Tree, rel: Name, kept: Name, k: nat) {
    && Kept(d) && !IsArchived(rel) && CanRename(d, rel, kept) && Related(kept, rel) && k < |d[rel].snaps|
    && Valid(Continued(d, rel, kept, k)) && HasMark(Last(kept)) && IsArchived(kept)
  }

  lemma BranchFrom(d: Tree, rel: Name, kept: Name, k: nat, y: Name, h': Name) returns (h: Name)
    requires IsBranch(d, rel, kept, k) && From(Continued(d, rel, kept, k), y, h')
    ensures y == kept ==> h' == rel
    ensures y != kept ==> From(d, y, h) && (h' == h || (h == rel && h' == kept))
  {
    var c := Continued(d, rel, kept, k);
    h := h';
    if y == kept {
      BranchKept(d, rel, kept, k);
      OneOrigin(c, kept, h', rel);
    } else {
      ContinuedHolder(d, rel, kept, k, h', c[y].origin.value);
      if h' == kept {
        h := rel;
      }
    }
  }

  /** The archive is a clone of the dataset. */
  lemma BranchKept(d: Tree, rel: Name, kept: Name, k: nat)
    requires IsBranch(d, rel, kept, k)
    ensures Own(Continued(d, rel, kept, k), kept, rel)
  {
    var c := Continued(d, rel, kept, k);
    assert c[rel].snaps[k].id == d[rel].snaps[k].id && c[rel].snaps[k] in c[rel].snaps;
    RelatedSym(kept, rel);
  }

  lemma BranchTo(d: Tree, rel: Name, kept: Name, k: nat, y: Name, h: Name) returns (h': Name)
    requires IsBranch(d, rel, kept, k) && From(d, y, h)
    ensures From(Continued(d, rel, kept, k), y, h') && (h' == h || (h == rel && h' == kept))
  {
    h' := HolderAfter(d, rel, kept, k, h, d[y].origin.value);
    assert Continued(d, rel, kept, k)[y].origin == d[y].origin;
  }

  lemma {:induction false} BranchArch(d: Tree, rel: Name, kept: Name, k: nat, b: Name, a: Name)
    requires IsBranch(d, rel, kept, k) && ArchReaches(d, b, a)
    ensures ArchReaches(Continued(d, rel, kept, k), b, a)
    decreases if b in d && d[b].origin.Some? then d[b].origin.value + 1 else 0
  {
    var c := Continued(d, rel, kept, k);
    var h :| Own(d, b, h) && NextArchReaches(d, b, h, a);
    var h' := BranchTo(d, rel, kept, k, b, h);
    if h != a {
      NotThroughLive(d, rel, a);
      BranchArch(d, rel, kept, k, h, a);
    } else if h' == kept {
      BranchKept(d, rel, kept, k);
      ArchStep(c, kept, rel, a);
    }
    assert Related(h', b);
    ArchStep(c, b, h', a);
  }

  lemma ReachNext(d: Tree, b: Name, a: Name) returns (h: Name)
    requires Reaches(d, b, a)
    ensures Own(d, b, h) && b in d && d[b].origin.Some?
    ensures h == a || (Reaches(d, h, a) && h in d && d[h].origin.Some? && d[h].origin.value < d[b].origin.value)
  {
    h :| Own(d, b, h) && NextReaches(d, b, h, a);
  }

  lemma ThroughKept(d: Tree, rel: Name, kept: Name, k: nat, x: Name)
    requires IsBranch(d, rel, kept, k) && Reaches(Continued(d, rel, kept, k), kept, x)
    ensures var c := Continued(d, rel, kept, k);
      rel == x || (Reaches(c, rel, x) && c[rel].origin.Some? && c[rel].origin.value < c[kept].origin.value)
  {
    var c := Continued(d, rel, kept, k);
    var h := ReachNext(c, kept, x);
    BranchKept(d, rel, kept, k);
    OneOrigin(c, kept, h, rel);
  }

  /** What leads to a dataset after a branch led to it before, but for the new archive. */
  lemma {:induction false} BranchBack(d: Tree, rel: Name, kept: Name, k: nat, s: Name, x: Name, c: Tree)
    requires IsBranch(d, rel, kept, k) && c == Continued(d, rel, kept, k) && Reaches(c, s, x) && x != kept && s != kept
    ensures Reaches(d, s, x)
    decreases if s in c && c[s].origin.Some? then c[s].origin.value + 1 else 0
  {
    var h' := ReachNext(c, s, x);
    var h := BranchFrom(d, rel, kept, k, s, h');
    var next := h';
    if h' == kept {
      ThroughKept(d, rel, kept, k, x);
      next := rel;
    }
    BranchSame(d, rel, kept, s, h, h', next);
    if next != x {
      BranchBack(d, rel, kept, k, next, x, c);
    }
    ReachStep(d, s, h, x);
  }

  lemma BranchSame(d: Tree, rel: Name, kept: Name, s: Name, h: Name, h': Name, next: Name)
    requires From(d, s, h) && kept !in d && (h' == h || (h == rel && h' == kept)) && Related(h', s)
    requires Related(kept, rel)
    requires next == if h' == kept then rel else h'
    ensures next == h && Own(d, s, h)
  {
  }

  lemma BranchAlone(d: Tree, rel: Name, kept: Name, k: nat, s: Name, x: Name)
    requires IsBranch(d, rel, kept, k)
    requires x in Continued(d, rel, kept, k) && !IsArchived(x) && Reaches(Continued(d, rel, kept, k), s, x)
    ensures Childless(Continued(d, rel, kept, k), s)
  {
    var c := Continued(d, rel, kept, k);
    if s == kept {
      forall y | y in d && Under(y, kept) { NothingBelow(d, kept, y); }
    } else {
      BranchBack(d, rel, kept, k, s, x, c);
      LeadingIsAlone(d, s, x);
      LeadsFromArchive(d, s, x);
      LiveOutside(rel, s);
      if Under(kept, s) {
        RelatedSym(kept, rel);
        RelatedBelow(kept, rel, s);
      }
    }
  }

  lemma BesidePrefix(rel: Name, kept: Name, n: nat)
    requires Related(kept, rel) && n <= |rel|
    ensures n < |rel| ==> kept[..n] == rel[..n]
    ensures Plain(kept[..n]) == Plain(rel[..n])
  {
    if n < |rel| {
      assert Parent(kept)[..n] == kept[..n] && Parent(rel)[..n] == rel[..n];
    } else {
      RelatedPlain(kept, rel);
      assert kept[..n] == kept && rel[..n] == rel;
    }
  }

  lemma BranchTogetherAt(d: Tree, rel: Name, kept: Name, k: nat, y: Name, h: Name, h': Name, n: nat)
    requires IsBranch(d, rel, kept, k) && From(d, y, h) && !Related(h, y) && (h' == h || (h == rel && h' == kept))
    requires SamePlain(y, h, n) && SamePlain(y, h', n)
    ensures SameTree(Continued(d, rel, kept, k), y, h', n)
  {
    var c := Continued(d, rel, kept, k);
    TogetherAt(d, y, h, n);
    if y[..n] != h[..n] {
      NotThroughLive(d, rel, y[..n]);
      BranchArch(d, rel, kept, k, h, y[..n]);
    } else if h' != h {
      BesidePrefix(rel, kept, n);
      if n == |rel| {
        assert h[..n] == rel;
        BranchKept(d, rel, kept, k);
        ArchStep(c, kept, rel, rel);
      }
    }
  }

  lemma BranchTogether(d: Tree, rel: Name, kept: Name, k: nat, y: Name, h': Name)
    requires IsBranch(d, rel, kept, k) && From(Continued(d, rel, kept, k), y, h') && !Related(h', y)
    ensures KeptTogether(Continued(d, rel, kept, k), y, h')
  {
    var h := BranchFrom(d, rel, kept, k, y, h');
    RelatedSym(kept, rel);
    forall n: nat | SamePlain(y, h', n)
      ensures SameTree(Continued(d, rel, kept, k), y, h', n)
    {
      if h' != h {
        BesidePrefix(rel, kept, n);
      }
      BranchTogetherAt(d, rel, kept, k, y, h, h', n);
    }
  }

  lemma BranchOrigin(d: Tree, rel: Name, kept: Name, k: nat, y: Name)
    requires IsBranch(d, rel, kept, k)
    ensures HasOrigin(Continued(d, rel, kept, k), y)
  {
    if y == kept {
      BranchKept(d, rel, kept, k);
    } else if y in d && d[y].origin.Some? {
      assert HasOrigin(d, y);
      var h :| From(d, y, h);
      var h' := BranchTo(d, rel, kept, k, y, h);
    }
  }

  lemma BranchKeeps(d: Tree, rel: Name, kept: Name, k: nat)
    requires Kept(d) && !IsArchived(rel) && CanRename(d, rel, kept) && Related(kept, rel) && k < |d[rel].snaps|
    ensures Kept(Continued(d, rel, kept, k))
  {
    ContinuedValid(d, rel, kept, k);
    MarkedBeside(rel, kept);
    var c := Continued(d, rel, kept, k);
    forall y { BranchOrigin(d, rel, kept, k, y); }
    forall s, x | x in c && !IsArchived(x) && Reaches(c, s, x)
      ensures Childless(c, s)
    {
      BranchAlone(d, rel, kept, k, s, x);
    }
    forall y, h | From(c, y, h) && !Related(h, y)
      ensures KeptTogether(c, y, h)
    {
      BranchTogether(d, rel, kept, k, y, h);
    }
  }

  // ---- a lineage renamed aside -----------------------------------------------------------

  function Goes(x: Name, a: Name, b: Name): Name {
    if Under(x, a) then Rebase(x, a, b) else x
  }

  ghost predicate IsRename(d: Tree, a: Name, b: Name) {
    && Kept(d) && !IsArchived(a) && CanRename(d, a, b) && Related(b, a)
    && Valid(Moved(d, a, b)) && HasMark(Last(b)) && IsArchived(b)
  }

  /** Where two datasets of a renamed drive came from, and that nothing else about their
      being clone and origin changed. */
  lemma RenameFrom(d: Tree, a: Name, b: Name, y': Name, h': Name) returns (y: Name, h: Name)
    requires IsRename(d, a, b) && From(Moved(d, a, b), y', h')
    ensures From(d, y, h) && y' == Goes(y, a, b) && h' == Goes(h, a, b)
    ensures Related(h', y') <==> Related(h, y)
  {
    y := MovedFrom(d, a, b, y');
    h := MovedFrom(d, a, b, h');
    GoesRelated(d, a, b, y, h);
  }

  lemma GoesRelated(d: Tree, a: Name, b: Name, y: Name, h: Name)
    requires ParentsThere(d) && CanRename(d, a, b) && Related(b, a) && y in d && h in d
    ensures Related(Goes(h, a, b), Goes(y, a, b)) <==> Related(h, y)
  {
    var y', h' := Goes(y, a, b), Goes(h, a, b);
    if Related(h, y) {
      MovedRelated(h, y, a, b, h', y');
    }
    if Related(h', y') {
      RelatedSym(b, a);
      GoesBack(d, a, b, y);
      GoesBack(d, a, b, h);
      MovedRelated(h', y', b, a, h, y);
    }
  }

  lemma GoesBack(d: Tree, a: Name, b: Name, x: Name)
    requires ParentsThere(d) && CanRename(d, a, b) && x in d
    ensures x == Goes(Goes(x, a, b), b, a)
  {
    if Under(x, a) {
      RebaseBack(x, a, b);
    } else if Under(x, b) {
      NothingBelow(d, b, x);
    }
  }

  lemma RenameTo(d: Tree, a: Name, b: Name, y: Name, h: Name)
    requires IsRename(d, a, b) && From(d, y, h)
    ensures From(Moved(d, a, b), Goes(y, a, b), Goes(h, a, b))
    ensures d[y] == Moved(d, a, b)[Goes(y, a, b)] && d[h] == Moved(d, a, b)[Goes(h, a, b)]
  {
    var y' := MovedTo(d, a, b, y);
    var h' := MovedTo(d, a, b, h);
  }

  lemma GoesPrefix(x: Name, a: Name, b: Name, n: nat)
    requires Related(b, a) && n <= |x|
    ensures |Goes(x, a, b)| == |x| && Goes(x, a, b)[..n] == Goes(x[..n], a, b)
    ensures Plain(Goes(x, a, b)) == Plain(x)
  {
    if Under(x, a) {
      RelatedPlain(b, a);
      assert x == a + x[|a|..] && Goes(x, a, b) == b + x[|a|..];
      if n < |a| {
        BesidePrefix(a, b, n);
        assert Goes(x, a, b)[..n] == b[..n] && x[..n] == a[..n];
      } else {
        assert Under(x[..n], a) && x[..n][|a|..] == x[|a|..n];
      }
    } else {
      assert !Under(x[..n], a) by {
        if Under(x[..n], a) {
          UnderBoth(x, x[..n], a);
        }
      }
    }
  }

  lemma {:induction false} RenameArch(d: Tree, a: Name, b: Name, x: Name, y: Name)
    requires IsRename(d, a, b) && ArchReaches(d, x, y)
    ensures ArchReaches(Moved(d, a, b), Goes(x, a, b), Goes(y, a, b))
    decreases if x in d && d[x].origin.Some? then d[x].origin.value + 1 else 0
  {
    var h :| Own(d, x, h) && NextArchReaches(d, x, h, y);
    RenameTo(d, a, b, x, h);
    GoesRelated(d, a, b, x, h);
    if h != y {
      RenameArch(d, a, b, h, y);
    }
    NotThroughLive(d, a, y);
    GoesLast(x, a, b);
    ArchStep(Moved(d, a, b), Goes(x, a, b), Goes(h, a, b), Goes(y, a, b));
  }

  lemma GoesLast(x: Name, a: Name, b: Name)
    requires Related(b, a) && x != a && |x| >= 1
    ensures |Goes(x, a, b)| >= 1 && Last(Goes(x, a, b)) == Last(x)
  {
    if Under(x, a) {
      BelowIsLonger(x, a);
    }
  }

  lemma RenameTogetherAt(d: Tree, a: Name, b: Name, y: Name, h: Name, n: nat)
    requires IsRename(d, a, b) && From(d, y, h) && !Related(h, y)
    requires SamePlain(y, h, n) && SamePlain(Goes(y, a, b), Goes(h, a, b), n)
    ensures SameTree(Moved(d, a, b), Goes(y, a, b), Goes(h, a, b), n)
  {
    TogetherAt(d, y, h, n);
    GoesPrefix(y, a, b, n);
    GoesPrefix(h, a, b, n);
    if y[..n] != h[..n] {
      RenameArch(d, a, b, h, y[..n]);
    }
  }

  lemma GoesSamePlain(y: Name, h: Name, a: Name, b: Name, n: nat)
    requires Related(b, a) && SamePlain(Goes(y, a, b), Goes(h, a, b), n)
    ensures SamePlain(y, h, n)
  {
    GoesPrefix(y, a, b, 0);
    GoesPrefix(h, a, b, 0);
    PlainPrefix(Goes(y, a, b), n);
    PlainPrefix(Goes(h, a, b), n);
    PlainPrefix(y, n);
    PlainPrefix(h, n);
  }

  lemma RenameTogether(d: Tree, a: Name, b: Name, y': Name, h': Name)
    requires IsRename(d, a, b) && From(Moved(d, a, b), y', h') && !Related(h', y')
    ensures KeptTogether(Moved(d, a, b), y', h')
  {
    var y, h := RenameFrom(d, a, b, y', h');
    forall n: nat | SamePlain(y', h', n)
      ensures SameTree(Moved(d, a, b), y', h', n)
    {
      GoesSamePlain(y, h, a, b, n);
      RenameTogetherAt(d, a, b, y, h, n);
    }
  }

  lemma {:induction false} RenameBack(d: Tree, a: Name, b: Name, s: Name, x: Name, m: Tree)
    requires IsRename(d, a, b) && m == Moved(d, a, b) && s in d && x in d && Reaches(m, Goes(s, a, b), Goes(x, a, b))
    ensures Reaches(d, s, x)
    decreases var s' := Goes(s, a, b); if s' in m && m[s'].origin.Some? then m[s'].origin.value + 1 else 0
  {
    var s', x' := Goes(s, a, b), Goes(x, a, b);
    var h' := ReachNext(m, s', x');
    var s2, h := RenameFrom(d, a, b, s', h');
    GoesBack(d, a, b, s);
    GoesBack(d, a, b, s2);
    GoesBack(d, a, b, h);
    GoesBack(d, a, b, x);
    if h' != x' {
      RenameBack(d, a, b, h, x, m);
    }
    ReachStep(d, s, h, x);
  }

  lemma RenameAlone(d: Tree, a: Name, b: Name, s': Name, x': Name)
    requires IsRename(d, a, b) && x' in Moved(d, a, b) && !IsArchived(x') && Reaches(Moved(d, a, b), s', x')
    ensures Childless(Moved(d, a, b), s')
  {
    var m := Moved(d, a, b);
    LeadsFromArchive(m, s', x');
    var s := MovedFrom(d, a, b, s');
    var x := MovedFrom(d, a, b, x');
    RenameBack(d, a, b, s, x, m);
    LiveOutside(x', b);
    assert x' == x;
    LeadingIsAlone(d, s, x);
    LeadsFromArchive(d, s, x);
    ArchiveStays(d, a, b, s, x);
    forall c' | c' in m && Under(c', s')
      ensures c' == s'
    {
      var c := MovedFrom(d, a, b, c');
      LiveOutside(a, s);
      if Under(c, a) {
        InArchiveOnly(d, a, b, s, c');
      }
    }
  }

  /** An archive beside a live dataset that is not moved is not moved. */
  lemma ArchiveStays(d: Tree, a: Name, b: Name, s: Name, x: Name)
    requires !IsArchived(a) && Related(x, s) && !Under(x, a) && |s| >= 1 && HasMark(Last(s))
    ensures Goes(s, a, b) == s
  {
    if Under(s, a) {
      if s != a {
        RelatedBelow(s, x, a);
      } else {
        LiveOutside(a, a);
      }
    }
  }

  lemma InArchiveOnly(d: Tree, a: Name, b: Name, s: Name, c': Name)
    requires ParentsThere(d) && CanRename(d, a, b) && Related(b, a) && s in d && Childless(d, s) && !Under(a, s)
    ensures Under(c', b) ==> !Under(c', s)
  {
    if Under(c', b) && Under(c', s) {
      AboveSame(c', b, s);
      if Under(s, b) {
        NothingBelow(d, b, s);
      } else {
        RelatedSym(b, a);
        RelatedBelow(b, a, s);
      }
    }
  }

  lemma RenameKeeps(d: Tree, a: Name, b: Name)
    requires Kept(d) && !IsArchived(a) && CanRename(d, a, b) && Related(b, a)
    ensures Kept(Moved(d, a, b))
  {
    MovedValid(d, a, b);
    MarkedBeside(a, b);
    var m := Moved(d, a, b);
    forall y'
      ensures HasOrigin(m, y')
    {
      if y' in m && m[y'].origin.Some? {
        var y := MovedFrom(d, a, b, y');
        assert HasOrigin(d, y);
        var h :| From(d, y, h);
        RenameTo(d, a, b, y, h);
      }
    }
    forall s, x | x in m && !IsArchived(x) && Reaches(m, s, x)
      ensures Childless(m, s)
    {
      RenameAlone(d, a, b, s, x);
    }
    forall y, h | From(m, y, h) && !Related(h, y)
      ensures KeptTogether(m, y, h)
    {
      RenameTogether(d, a, b, y, h);
    }
  }

  // ---- a receive, or a clone put back ------------------------------------------------------

  /** Nothing went and no clone changed; at most one live dataset came. */
  ghost predicate Grows(d: Tree, d': Tree, rel: Name) {
    && Kept(d) && Valid(d') && !IsArchived(rel) && d.Keys <= d'.Keys <= d.Keys + {rel}
    && (forall x :: x in d ==> d'[x].origin == d[x].origin)
    && (forall x, id :: x in d && Holds(d[x], id) ==> Holds(d'[x], id))
  }

  /** If it is a clone, then of a related dataset or of a live one. */
  ghost predicate ComesWell(d: Tree, d': Tree, rel: Name) {
    rel in d' && rel !in d && d'[rel].origin.Some? ==>
      exists h :: From(d', rel, h) && (Related(h, rel) || !IsArchived(h))
  }

  lemma GrowsFrom(d: Tree, d': Tree, rel: Name, y: Name, h: Name)
    requires Grows(d, d', rel) && y in d
    ensures From(d', y, h) <==> From(d, y, h)
  {
    if From(d', y, h) {
      assert HasOrigin(d, y);
      var h0 :| From(d, y, h0);
      assert From(d', y, h0);
      OneOrigin(d', y, h0, h);
    }
  }

  lemma {:induction false} GrowsArch(d: Tree, d': Tree, rel: Name, b: Name, a: Name)
    requires Grows(d, d', rel) && ArchReaches(d, b, a)
    ensures ArchReaches(d', b, a)
    decreases if b in d && d[b].origin.Some? then d[b].origin.value + 1 else 0
  {
    var h :| Own(d, b, h) && NextArchReaches(d, b, h, a);
    GrowsFrom(d, d', rel, b, h);
    if h != a {
      GrowsArch(d, d', rel, h, a);
    }
    ArchStep(d', b, h, a);
  }

  lemma {:induction false} GrowsBack(d: Tree, d': Tree, rel: Name, s: Name, x: Name)
    requires Grows(d, d', rel) && s in d && Reaches(d', s, x)
    ensures Reaches(d, s, x)
    decreases if s in d' && d'[s].origin.Some? then d'[s].origin.value + 1 else 0
  {
    var h := ReachNext(d', s, x);
    GrowsFrom(d, d', rel, s, h);
    if h != x {
      GrowsBack(d, d', rel, h, x);
    }
    ReachStep(d, s, h, x);
  }

  lemma GrowsAlone(d: Tree, d': Tree, rel: Name, s: Name, x: Name)
    requires Grows(d, d', rel) && x in d' && !IsArchived(x) && Reaches(d', s, x)
    ensures Childless(d', s)
  {
    LeadsFromArchive(d', s, x);
    LiveOutside(rel, s);
    assert s != rel;
    GrowsBack(d, d', rel, s, x);
    NotToItself(d, s, x);
    LeadingIsAlone(d, s, x);
  }

  lemma LiveTogether(d: Tree, y: Name, h: Name)
    requires !IsArchived(y) && !IsArchived(h)
    ensures KeptTogether(d, y, h)
  {
    PlainOfLive(y);
    PlainOfLive(h);
    forall n: nat | SamePlain(y, h, n)
      ensures y[..n] == h[..n]
    {
      PlainPrefix(y, n);
      PlainPrefix(h, n);
    }
  }

  lemma GrowsTogether(d: Tree, d': Tree, rel: Name, y: Name, h: Name)
    requires Grows(d, d', rel) && ComesWell(d, d', rel) && From(d', y, h) && !Related(h, y)
    ensures KeptTogether(d', y, h)
  {
    if y in d {
      GrowsFrom(d, d', rel, y, h);
      forall n: nat | SamePlain(y, h, n)
        ensures SameTree(d', y, h, n)
      {
        TogetherAt(d, y, h, n);
        if y[..n] != h[..n] {
          GrowsArch(d, d', rel, h, y[..n]);
        }
      }
    } else {
      var h0 :| From(d', rel, h0) && (Related(h0, rel) || !IsArchived(h0));
      OneOrigin(d', rel, h0, h);
      LiveTogether(d', y, h);
    }
  }

  lemma GrowsKeeps(d: Tree, d': Tree, rel: Name)
    requires Grows(d, d', rel) && ComesWell(d, d', rel)
    ensures Kept(d')
  {
    forall y
      ensures HasOrigin(d', y)
    {
      if y in d && d[y].origin.Some? {
        assert HasOrigin(d, y);
        var h :| From(d, y, h);
        GrowsFrom(d, d', rel, y, h);
      }
    }
    forall s, x | x in d' && !IsArchived(x) && Reaches(d', s, x)
      ensures Childless(d', s)
    {
      GrowsAlone(d, d', rel, s, x);
    }
    forall y, h | From(d', y, h) && !Related(h, y)
      ensures KeptTogether(d', y, h)
    {
      GrowsTogether(d, d', rel, y, h);
    }
  }

  lemma CloneBackGrows(d: Tree, kept: Name, k: nat, rel: Name)
    requires Kept(d) && !IsArchived(rel) && CanClone(d, kept, k, rel)
    ensures Grows(d, Cloned(d, kept, k, rel), rel) && From(Cloned(d, kept, k, rel), rel, kept)
  {
    ClonedValid(d, kept, k, rel);
    var c := Cloned(d, kept, k, rel);
    assert d[kept].snaps[k] in c[kept].snaps;
  }

  lemma CloneBackKeeps(d: Tree, kept: Name, k: nat, rel: Name)
    requires Kept(d) && !IsArchived(rel) && CanClone(d, kept, k, rel) && (Related(kept, rel) || !IsArchived(kept))
    ensures Kept(Cloned(d, kept, k, rel))
  {
    CloneBackGrows(d, kept, k, rel);
    GrowsKeeps(d, Cloned(d, kept, k, rel), rel);
  }

  lemma OriginsAreHeld(d: Tree, x: Name)
    requires Kept(d) && x in d && d[x].origin.Some?
    ensures exists s :: s in Snaps(d) && s.id == d[x].origin.value
  {
    assert HasOrigin(d, x);
    var h :| From(d, x, h);
    var s :| s in d[h].snaps && s.id == d[x].origin.value;
    assert s in Snaps(d);
  }

  lemma ReceiveGrows(d: Tree, rel: Name, more: seq<Snap>)
    requires Kept(d) && !IsArchived(rel) && CanReceive(d, rel) && Later(d, more)
    ensures Grows(d, Grown(d, rel, more), rel)
  {
    var r := Grown(d, rel, more);
    if rel in d && d[rel].origin.Some? {
      OriginsAreHeld(d, rel);
    }
    LaterFsOk(d, rel, more);
    ReceivedHolders(d, rel, more);
    forall x, id | x in d && Holds(d[x], id)
      ensures Holds(r[x], id)
    {
      var s :| s in d[x].snaps && s.id == id;
      assert s in r[x].snaps;
    }
  }

  lemma ReceiveKeeps(d: Tree, rel: Name, more: seq<Snap>)
    requires Kept(d) && !IsArchived(rel) && CanReceive(d, rel) && Later(d, more)
    ensures Kept(Grown(d, rel, more))
  {
    ReceiveGrows(d, rel, more);
    GrowsKeeps(d, Grown(d, rel, more), rel);
  }

  // ---- a destroy -------------------------------------------------------------------------------

  lemma DestroyFrom(d: Tree, top: Name, y: Name, h: Name)
    requires Valid(d) && CanDestroy(d, top)
    ensures From(Destroyed(d, top), y, h) <==> From(d, y, h) && !Under(y, top)
  {
  }

  lemma {:induction false} DestroyArch(d: Tree, top: Name, b: Name, a: Name)
    requires Valid(d) && Valid(Destroyed(d, top)) && CanDestroy(d, top) && ArchReaches(d, b, a) && !Under(b, top)
    ensures ArchReaches(Destroyed(d, top), b, a)
    decreases if b in d && d[b].origin.Some? then d[b].origin.value + 1 else 0
  {
    var h :| Own(d, b, h) && NextArchReaches(d, b, h, a);
    DestroyFrom(d, top, b, h);
    if h != a {
      DestroyArch(d, top, h, a);
    }
    ArchStep(Destroyed(d, top), b, h, a);
  }

  lemma {:induction false} DestroyBack(d: Tree, top: Name, s: Name, x: Name)
    requires Valid(d) && CanDestroy(d, top) && Reaches(Destroyed(d, top), s, x)
    ensures Reaches(d, s, x)
    decreases var r := Destroyed(d, top); if s in r && r[s].origin.Some? then r[s].origin.value + 1 else 0
  {
    var h := ReachNext(Destroyed(d, top), s, x);
    DestroyFrom(d, top, s, h);
    if h != x {
      DestroyBack(d, top, h, x);
    }
    ReachStep(d, s, h, x);
  }

  lemma DestroyValid(d: Tree, top: Name)
    requires Valid(d)
    ensures Valid(Destroyed(d, top))
  {
    var r := Destroyed(d, top);
    forall y | y in r
      ensures |y| > 1 ==> Parent(y) in r
    {
      assert |y| > 1 ==> !Under(Parent(y), top);
    }
  }

  lemma DestroyKeeps(d: Tree, top: Name)
    requires Kept(d) && CanDestroy(d, top)
    ensures Kept(Destroyed(d, top))
  {
    var r := Destroyed(d, top);
    DestroyValid(d, top);
    forall y
      ensures HasOrigin(r, y)
    {
      if y in r && r[y].origin.Some? {
        assert HasOrigin(d, y);
        var h :| From(d, y, h);
        DestroyFrom(d, top, y, h);
      }
    }
    forall s, x | x in r && !IsArchived(x) && Reaches(r, s, x)
      ensures Childless(r, s)
    {
      DestroyBack(d, top, s, x);
      LeadingIsAlone(d, s, x);
    }
    forall y, h | From(r, y, h) && !Related(h, y)
      ensures KeptTogether(r, y, h)
    {
      DestroyFrom(d, top, y, h);
      DestroyTogether(d, top, y, h);
    }
  }

  lemma DestroyTogether(d: Tree, top: Name, y: Name, h: Name)
    requires Kept(d) && Valid(Destroyed(d, top)) && CanDestroy(d, top) && From(Destroyed(d, top), y, h)
    requires !Related(h, y)
    ensures KeptTogether(Destroyed(d, top), y, h)
  {
    DestroyFrom(d, top, y, h);
    forall n: nat | SamePlain(y, h, n)
      ensures SameTree(Destroyed(d, top), y, h, n)
    {
      TogetherAt(d, y, h, n);
      if y[..n] != h[..n] {
        DestroyArch(d, top, h, y[..n]);
      }
    }
  }

  // ---- a rollback ------------------------------------------------------------------------------

  /** The same datasets, each a clone of what it was. */
  ghost predicate SameClones(d: Tree, d': Tree) {
    && Valid(d) && Valid(d') && d'.Keys == d.Keys && (forall x :: x in d ==> d'[x].origin == d[x].origin)
    && forall y, h {:trigger From(d', y, h)} {:trigger From(d, y, h)} :: From(d', y, h) <==> From(d, y, h)
  }

  lemma {:induction false} SameReaches(d: Tree, d': Tree, b: Name, a: Name)
    requires SameClones(d, d') && Reaches(d', b, a)
    ensures Reaches(d, b, a)
    decreases if b in d' && d'[b].origin.Some? then d'[b].origin.value + 1 else 0
  {
    var h := ReachNext(d', b, a);
    if h != a {
      SameReaches(d, d', h, a);
    }
    ReachStep(d, b, h, a);
  }

  lemma {:induction false} SameArch(d: Tree, d': Tree, b: Name, a: Name)
    requires SameClones(d, d') && ArchReaches(d, b, a)
    ensures ArchReaches(d', b, a)
    decreases if b in d && d[b].origin.Some? then d[b].origin.value + 1 else 0
  {
    var h :| Own(d, b, h) && NextArchReaches(d, b, h, a);
    if h != a {
      SameArch(d, d', h, a);
    }
    ArchStep(d', b, h, a);
  }

  lemma SameKeeps(d: Tree, d': Tree)
    requires Kept(d) && SameClones(d, d')
    ensures Kept(d')
  {
    forall y
      ensures HasOrigin(d', y)
    {
      assert HasOrigin(d, y);
    }
    forall s, x | x in d' && !IsArchived(x) && Reaches(d', s, x)
      ensures Childless(d', s)
    {
      SameReaches(d, d', s, x);
      LeadingIsAlone(d, s, x);
    }
    forall y, h | From(d', y, h) && !Related(h, y)
      ensures KeptTogether(d', y, h)
    {
      forall n: nat | SamePlain(y, h, n)
        ensures SameTree(d', y, h, n)
      {
        TogetherAt(d, y, h, n);
        if y[..n] != h[..n] {
          SameArch(d, d', h, y[..n]);
        }
      }
    }
  }

  lemma RollBackKeeps(d: Tree, rel: Name, k: nat)
    requires Kept(d) && CanRollBack(d, rel, k)
    ensures Kept(RolledBack(d, rel, k))
  {
    var d' := RolledBack(d, rel, k);
    RolledBackValid(d, rel, k);
    forall y, h
      ensures From(d', y, h) <==> From(d, y, h)
    {
      if y in d && h in d && d[y].origin.Some? {
        RolledBackHolds(d, rel, k, y, h);
      }
    }
    SameKeeps(d, d');
  }

  // ---- every history ----------------------------------------------------------------------------

  lemma LaterStill(d: Tree, source: Name, k: nat, rel: Name, more: seq<Snap>)
    requires Valid(d) && CanClone(d, source, k, rel) && Later(d, more)
    ensures Later(Cloned(d, source, k, rel), more)
  {
    ClonedValid(d, source, k, rel);
  }

  lemma AnyChangeKeeps(d: Tree, c: Change, d': Tree)
    requires Kept(d) && Happens(d, c, d') && IsOrderly(c)
    ensures Kept(d')
  {
    match c
    case Branch(rel, kept, k) => BranchKeeps(d, rel, kept, k);
    case Rename(rel, kept) => RenameKeeps(d, rel, kept);
    case CloneBack(kept, k, rel) => CloneBackKeeps(d, kept, k, rel);
    case Receive(rel, more) => ReceiveKeeps(d, rel, more);
    case ReceiveClone(rel, source, k, more) =>
      CloneBackKeeps(d, source, k, rel);
      LaterStill(d, source, k, rel, more);
      ReceiveKeeps(Cloned(d, source, k, rel), rel, more);
    case Destroy(rel) => DestroyKeeps(d, rel);
    case RollBack(rel, k) => RollBackKeeps(d, rel, k);
  }

  lemma {:induction false} AnyHistoryKeeps(run: seq<Tree>, changes: seq<Change>, i: nat)
    requires IsHistory(run, changes) && i < |run| && Valid(run[0]) && NoClones(run[0])
    requires forall c :: c in changes ==> IsOrderly(c)
    ensures Kept(run[i])
  {
    if i > 0 {
      AnyHistoryKeeps(run, changes, i - 1);
      assert HappensAt(run, changes, i - 1) && changes[i - 1] in changes;
      AnyChangeKeeps(run[i - 1], changes[i - 1], run[i]);
    } else {
      forall s, x
        ensures !Reaches(run[0], s, x)
      {
      }
    }
  }

  /** From a drive without clones, after any history, receives that make clones included:
      the destroy of a live dataset is offered exactly when no received clone has to go
      with it and nothing inside it is a clone of what has to; and what is offered is
      accepted as planned. */
  lemma HistoryOffers(run: seq<Tree>, changes: seq<Change>, i: nat, g: Graph, top: Name, plan: DestroyPlan,
                      trees: map<Name, Dependent>, edges: map<Name, set<Edge>>, stuck: set<Name>, c: set<Name>)
    requires IsHistory(run, changes) && i < |run| && Valid(run[0]) && NoClones(run[0])
    requires forall c :: c in changes ==> IsOrderly(c)
    requires IsGraph(run[i], g) && top in run[i] && !IsArchived(top) && IsPlan(g, top, plan, trees, edges, stuck)
    requires IsLeastClosed(g, top, c)
    ensures plan.Ok() <==> !SomeReceived(run[i], c) && !InsideOf(g, top, c)
    ensures plan.Ok() ==> AllAccepted(g, Rels(plan.order) + [top])
  {
    AnyHistoryKeeps(run, changes, i);
    ReceivedExactly(run[i], g, top, plan, trees, edges, stuck);
    assert c == Covered(g, top, trees.Keys);
    if plan.Ok() {
      PlannerSound(g, top, plan, trees, edges, stuck, c);
    }
  }

  /** A clone received from `top`'s tree to outside it takes the offer away. */
  lemma ReceivedTakesOffer(d: Tree, rel: Name, source: Name, k: nat, more: seq<Snap>, g: Graph, top: Name,
                           plan: DestroyPlan, trees: map<Name, Dependent>, edges: map<Name, set<Edge>>,
                           stuck: set<Name>)
    requires Kept(d) && !IsArchived(rel) && !IsArchived(source) && CanClone(d, source, k, rel) && Later(d, more)
    requires IsGraph(Grown(Cloned(d, source, k, rel), rel, more), g)
    requires top in d && !IsArchived(top) && Under(source, top) && !Under(rel, top)
    requires IsPlan(g, top, plan, trees, edges, stuck)
    ensures !plan.Ok()
  {
    var d' := Grown(Cloned(d, source, k, rel), rel, more);
    AnyChangeKeeps(d, ReceiveClone(rel, source, k, more), d');
    var c := Covered(g, top, trees.Keys);
    ReceivedExactly(d', g, top, plan, trees, edges, stuck);
    ReceivedComes(d, rel, source, k, more);
    GraphFrom(d', g, rel);
    assert ClonedFrom(g, rel, top) && Closed(g, top, c);
    assert rel in c && IsReceived(d', rel);
  }

  lemma ReceivedComes(d: Tree, rel: Name, source: Name, k: nat, more: seq<Snap>)
    requires Kept(d) && !IsArchived(rel) && !IsArchived(source) && CanClone(d, source, k, rel) && Later(d, more)
    ensures From(Grown(Cloned(d, source, k, rel), rel, more), rel, source) && !Related(source, rel)
  {
    var d' := Grown(Cloned(d, source, k, rel), rel, more);
    assert d[source].snaps[k] in d'[source].snaps;
    if Related(source, rel) {
      LiveRelated(source, rel);
    }
  }
}
