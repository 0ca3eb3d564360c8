/** Keeping a drive's newer snapshots in an archive while the dataset goes on from
    the common one: rename aside, clone, promote, move the children back. */
module Branching {
  import opened Replication
  import opened Dependents
  import opened Lineages

  function Lookup(d: Tree, y: Name): Option<Fs> {
    if y in d then Some(d[y]) else None
  }

  /** Every snapshot on the drive. */
  ghost function Snaps(d: Tree): set<Snap> {
    set x, s | x in d && s in d[x].snaps :: s
  }

  // ---- zfs rename -------------------------------------------------------------

  predicate CanRename(d: Tree, a: Name, b: Name) {
    a in d && b !in d && !Under(b, a) && |b| >= 1 && (|b| > 1 ==> Parent(b) in d)
  }

  /** A name at or below `a`, with `b` in its place. */
  function Rebase(x: Name, a: Name, b: Name): (y: Name)
    ensures Under(y, b) && (Under(x, a) ==> |y| - |b| == |x| - |a|)
  {
    if Under(x, a) then b + x[|a|..] else b
  }

  lemma RebaseBack(x: Name, a: Name, b: Name)
    requires Under(x, a)
    ensures Rebase(Rebase(x, a, b), b, a) == x
  {
  }

  /** The whole tree at `a` under the name `b`. */
  function Moved(d: Tree, a: Name, b: Name): Tree {
    var kept := set x | x in d && !Under(x, a) && !Under(x, b);
    map y | y in kept + MovedNames(d, a, b) :: if y in kept then d[y] else d[Rebase(y, b, a)]
  }

  /** The new names of the tree at `a`. */
  function MovedNames(d: Tree, a: Name, b: Name): (names: set<Name>)
    ensures forall y :: y in names ==> Rebase(y, b, a) in d
  {
    assert forall x :: x in d && Under(x, a) ==> Rebase(Rebase(x, a, b), b, a) == x;
    set x | x in d && Under(x, a) :: Rebase(x, a, b)
  }

  lemma {:induction false} NothingBelow(d: Tree, b: Name, y: Name)
    requires ParentsThere(d) && b !in d && |b| >= 1 && Under(y, b)
    ensures y !in d
    decreases |y|
  {
    if y != b {
      BelowIsLonger(y, b);
      assert Under(Parent(y), b);
      NothingBelow(d, b, Parent(y));
    }
  }

  lemma MovedAt(d: Tree, a: Name, b: Name, y: Name)
    requires ParentsThere(d) && CanRename(d, a, b)
    ensures Lookup(Moved(d, a, b), y) ==
      if Under(y, b) then Lookup(d, Rebase(y, b, a)) else if Under(y, a) then None else Lookup(d, y)
  {
    if Under(y, b) {
      NothingBelow(d, b, y);
      MovedBelow(d, a, b, y);
    } else {
      MovedBeside(d, a, b, y);
    }
  }

  lemma MovedBelow(d: Tree, a: Name, b: Name, y: Name)
    requires Under(y, b) && y !in d
    ensures Lookup(Moved(d, a, b), y) == Lookup(d, Rebase(y, b, a))
  {
    var from := Rebase(y, b, a);
    assert Rebase(from, a, b) == y by { RebaseBack(y, b, a); }
    forall x | x in d && Under(x, a) && Rebase(x, a, b) == y
      ensures x == from
    {
      RebaseBack(x, a, b);
    }
    assert y in MovedNames(d, a, b) <==> from in d;
  }

  lemma MovedBeside(d: Tree, a: Name, b: Name, y: Name)
    requires !Under(y, b)
    ensures Lookup(Moved(d, a, b), y) == if Under(y, a) then None else Lookup(d, y)
  {
    assert y !in MovedNames(d, a, b);
  }

  /** Where each dataset of a renamed drive came from. */
  lemma MovedFrom(d: Tree, a: Name, b: Name, y: Name) returns (x: Name)
    requires ParentsThere(d) && CanRename(d, a, b) && y in Moved(d, a, b)
    ensures x in d && Moved(d, a, b)[y] == d[x]
    ensures if Under(x, a) then y == Rebase(x, a, b) else y == x
  {
    MovedAt(d, a, b, y);
    assert Lookup(Moved(d, a, b), y).Some?;
    if Under(y, b) {
      x := Rebase(y, b, a);
      RebaseBack(y, b, a);
    } else {
      x := y;
    }
  }

  lemma MovedTo(d: Tree, a: Name, b: Name, x: Name) returns (y: Name)
    requires ParentsThere(d) && CanRename(d, a, b) && x in d
    ensures y in Moved(d, a, b) && Moved(d, a, b)[y] == d[x]
    ensures if Under(x, a) then y == Rebase(x, a, b) else y == x
  {
    y := if Under(x, a) then Rebase(x, a, b) else x;
    MovedAt(d, a, b, y);
    if Under(x, a) {
      RebaseBack(x, a, b);
    } else {
      assert Under(x, b) ==> x !in d by {
        if Under(x, b) {
          NothingBelow(d, b, x);
        }
      }
    }
    assert Lookup(Moved(d, a, b), y) == Some(d[x]);
  }

  lemma MovedValid(d: Tree, a: Name, b: Name)
    requires Valid(d) && CanRename(d, a, b)
    ensures Valid(Moved(d, a, b)) && Snaps(Moved(d, a, b)) == Snaps(d)
  {
    var m := Moved(d, a, b);
    forall y | y in m
      ensures FsOk(m[y]) && |y| >= 1 && (|y| > 1 ==> Parent(y) in m)
      ensures forall s :: s in m[y].snaps ==> s in Snaps(d)
    {
      var x := MovedFrom(d, a, b, y);
      assert |y| >= 1;
      if |y| > 1 {
        ParentMoved(d, a, b, x, y);
      }
    }
    forall y, z, id | y in m && z in m && Holds(m[y], id) && Holds(m[z], id)
      ensures y == z
    {
      var x := MovedFrom(d, a, b, y);
      var w := MovedFrom(d, a, b, z);
      assert x == w;
    }
    forall s | s in Snaps(d)
      ensures s in Snaps(m)
    {
      var x :| x in d && s in d[x].snaps;
      var y := MovedTo(d, a, b, x);
    }
  }

  lemma ParentMoved(d: Tree, a: Name, b: Name, x: Name, y: Name)
    requires ParentsThere(d) && CanRename(d, a, b) && x in d && |y| > 1
    requires if Under(x, a) then y == Rebase(x, a, b) else y == x
    ensures Parent(y) in Moved(d, a, b)
  {
    if x == a {
      assert y == b;
      assert !Under(Parent(b), a);
      var z := MovedTo(d, a, b, Parent(b));
    } else if Under(x, a) {
      BelowIsLonger(x, a);
      assert Under(Parent(x), a);
      assert Rebase(Parent(x), a, b) == Parent(y);
      var z := MovedTo(d, a, b, Parent(x));
    } else {
      assert !Under(Parent(x), a);
      var z := MovedTo(d, a, b, Parent(x));
    }
  }

  // ---- zfs clone, zfs promote ---------------------------------------------------

  predicate CanClone(d: Tree, from: Name, k: nat, live: Name) {
    from in d && k < |d[from].snaps| && live !in d && |live| >= 1 && (|live| > 1 ==> Parent(live) in d)
  }

  function Cloned(d: Tree, from: Name, k: nat, live: Name): Tree
    requires CanClone(d, from, k, live)
  {
    d[live := Fs([], Some(d[from].snaps[k].id))]
  }

  /** `live` is a clone of snapshot `k` of `h`, with no name in common. */
  predicate CanPromote(d: Tree, live: Name, h: Name, k: nat) {
    && live in d && h in d && live != h && k < |d[h].snaps| && d[live].origin == Some(d[h].snaps[k].id)
    && forall s, t :: s in d[h].snaps[..k + 1] && t in d[live].snaps ==> s.name != t.name
  }

  /** The clone takes the snapshots up to its origin; the one it was cloned from
      becomes its clone. */
  function Promoted(d: Tree, live: Name, h: Name, k: nat): Tree
    requires CanPromote(d, live, h, k)
  {
    d[live := Fs(d[h].snaps[..k + 1] + d[live].snaps, d[h].origin)]
     [h := Fs(d[h].snaps[k + 1..], d[live].origin)]
  }

  lemma ClonedValid(d: Tree, from: Name, k: nat, live: Name)
    requires Valid(d) && CanClone(d, from, k, live)
    ensures Valid(Cloned(d, from, k, live)) && Snaps(Cloned(d, from, k, live)) == Snaps(d)
  {
    var c := Cloned(d, from, k, live);
    forall s | s in Snaps(d)
      ensures s in Snaps(c)
    {
      var x :| x in d && s in d[x].snaps;
      assert c[x] == d[x];
    }
  }

  lemma SnapAt(snaps: seq<Snap>, k: nat, s: Snap)
    requires Increasing(snaps) && k < |snaps|
    ensures s in snaps[..k + 1] <==> s in snaps && s.id <= snaps[k].id
    ensures s in snaps[k + 1..] <==> s in snaps && s.id > snaps[k].id
  {
    if s in snaps {
      var i :| 0 <= i < |snaps| && snaps[i] == s;
      if i <= k {
        assert snaps[..k + 1][i] == s;
      } else {
        assert snaps[k + 1..][i - k - 1] == s;
      }
    }
  }

  /** The snapshots of the two together stay the same. */
  lemma PromotedShares(d: Tree, live: Name, h: Name, k: nat, s: Snap)
    requires Valid(d) && CanPromote(d, live, h, k)
    ensures var p := Promoted(d, live, h, k);
      && (s in p[live].snaps <==> s in d[live].snaps || (s in d[h].snaps && s.id <= d[h].snaps[k].id))
      && (s in p[h].snaps <==> s in d[h].snaps && s.id > d[h].snaps[k].id)
  {
    SnapAt(d[h].snaps, k, s);
  }

  lemma PromotedFsOk(d: Tree, live: Name, h: Name, k: nat)
    requires Valid(d) && CanPromote(d, live, h, k)
    ensures FsOk(Promoted(d, live, h, k)[live]) && FsOk(Promoted(d, live, h, k)[h])
  {
    var p := Promoted(d, live, h, k);
    var id := d[h].snaps[k].id;
    assert FsOk(d[live]) && FsOk(d[h]);
    assert d[h].snaps[k] in d[h].snaps;
    forall s { PromotedShares(d, live, h, k, s); }
    forall i, j | 0 <= i < j < |p[live].snaps|
      ensures p[live].snaps[i].id < p[live].snaps[j].id
    {
      if j >= k + 1 {
        assert p[live].snaps[j] == d[live].snaps[j - k - 1];
        assert p[live].snaps[j] in d[live].snaps;
      }
    }
  }

  lemma PromotedHolder(d: Tree, live: Name, h: Name, k: nat, x: Name, id: nat)
    requires Valid(d) && CanPromote(d, live, h, k) && x in d && Holds(Promoted(d, live, h, k)[x], id)
    ensures Holds(d[x], id) || (x == live && Holds(d[h], id) && id <= d[h].snaps[k].id)
    ensures x == h ==> id > d[h].snaps[k].id
  {
    var s :| s in Promoted(d, live, h, k)[x].snaps && s.id == id;
    PromotedShares(d, live, h, k, s);
  }

  lemma PromotedValid(d: Tree, live: Name, h: Name, k: nat)
    requires Valid(d) && CanPromote(d, live, h, k)
    ensures Valid(Promoted(d, live, h, k)) && Snaps(Promoted(d, live, h, k)) == Snaps(d)
  {
    var p := Promoted(d, live, h, k);
    PromotedFsOk(d, live, h, k);
    forall x, y, id | x in p && y in p && Holds(p[x], id) && Holds(p[y], id)
      ensures x == y
    {
      PromotedHolder(d, live, h, k, x, id);
      PromotedHolder(d, live, h, k, y, id);
    }
    forall s
      ensures s in Snaps(p) <==> s in Snaps(d)
    {
      PromotedShares(d, live, h, k, s);
      if x :| x in d && s in d[x].snaps {
        var y := if x != h then x else if s.id <= d[h].snaps[k].id then live else h;
        assert y in p && s in p[y].snaps;
      }
      if x :| x in p && s in p[x].snaps {
        assert s in d[x].snaps || s in d[h].snaps;
      }
    }
  }

  // ---- where everything is while a branch goes on -----------------------------------

  /** What `y` is on a drive branched at snapshot `k` of `rel`, its newer snapshots
      in `kept`, once the children `back` were moved back. */
  ghost function Branched(d: Tree, rel: Name, kept: Name, k: nat, back: set<Name>, y: Name): Option<Fs>
    requires rel in d && k < |d[rel].snaps|
  {
    if y == rel then Some(Fs(d[rel].snaps[..k + 1], d[rel].origin))
    else if y == kept then Some(Fs(d[rel].snaps[k + 1..], Some(d[rel].snaps[k].id)))
    else if Under(y, rel) then (if UnderAny(y, back) then Lookup(d, y) else None)
    else if Under(y, kept) then (if UnderAny(Rebase(y, kept, rel), back) then None else Lookup(d, Rebase(y, kept, rel)))
    else Lookup(d, y)
  }

  ghost predicate IsBranched(d: Tree, rel: Name, kept: Name, k: nat, back: set<Name>, d': Tree) {
    && rel in d && k < |d[rel].snaps|
    && forall y :: Lookup(d', y) == Branched(d, rel, kept, k, back, y)
  }

  predicate AreChildren(children: set<Name>, rel: Name) {
    forall c :: c in children ==> |c| == |rel| + 1 && Under(c, rel)
  }

  /** Renamed, cloned and promoted, no child moved yet. */
  ghost function Aside(d: Tree, rel: Name, kept: Name, k: nat): Tree
    requires ParentsThere(d) && CanRename(d, rel, kept) && Parent(kept) == Parent(rel) && k < |d[rel].snaps|
  {
    AsideOk(d, rel, kept, k);
    var m := Moved(d, rel, kept);
    Promoted(Cloned(m, kept, k, rel), rel, kept, k)
  }

  lemma AsideOk(d: Tree, rel: Name, kept: Name, k: nat)
    requires ParentsThere(d) && CanRename(d, rel, kept) && Parent(kept) == Parent(rel) && k < |d[rel].snaps|
    ensures var m := Moved(d, rel, kept);
      kept in m && m[kept] == d[rel] && CanClone(m, kept, k, rel) && CanPromote(Cloned(m, kept, k, rel), rel, kept, k)
  {
    var m := Moved(d, rel, kept);
    assert Rebase(rel, rel, kept) == kept;
    var y := MovedTo(d, rel, kept, rel);
    MovedAt(d, rel, kept, rel);
    NotUnderEachOther(d, rel, kept);
    assert Lookup(m, rel) == None;
    if |rel| > 1 {
      assert Under(rel, rel[..|rel| - 1]);
      assert !Under(Parent(rel), rel);
      var z := MovedTo(d, rel, kept, Parent(rel));
    }
  }

  lemma NotUnderEachOther(d: Tree, rel: Name, kept: Name)
    requires ParentsThere(d) && CanRename(d, rel, kept)
    ensures !Under(rel, kept) && !Under(kept, rel)
  {
    if Under(rel, kept) {
      NothingBelow(d, kept, rel);
    }
  }

  lemma AsideIsBranched(d: Tree, rel: Name, kept: Name, k: nat)
    requires ParentsThere(d) && CanRename(d, rel, kept) && Parent(kept) == Parent(rel) && k < |d[rel].snaps|
    ensures IsBranched(d, rel, kept, k, {}, Aside(d, rel, kept, k))
  {
    AsideOk(d, rel, kept, k);
    NotUnderEachOther(d, rel, kept);
    var a := Aside(d, rel, kept, k);
    forall y
      ensures Lookup(a, y) == Branched(d, rel, kept, k, {}, y)
    {
      MovedAt(d, rel, kept, y);
      assert a[rel].snaps == d[rel].snaps[..k + 1] && a[rel].origin == d[rel].origin;
      assert a[kept] == Fs(d[rel].snaps[k + 1..], Some(d[rel].snaps[k].id));
      assert y != rel && y != kept ==> Lookup(a, y) == Lookup(Moved(d, rel, kept), y);
      assert Under(y, rel) && Under(y, kept) ==> Under(rel, kept) || Under(kept, rel);
    }
  }

  /** Where a child is before it moves back. */
  function AwayAt(c: Name, rel: Name, kept: Name): Name {
    Rebase(c, rel, kept)
  }

  lemma MoveBack(d: Tree, rel: Name, kept: Name, k: nat, back: set<Name>, c: Name, d': Tree)
    requires IsBranched(d, rel, kept, k, back, d') && ParentsThere(d') && !Under(rel, kept) && !Under(kept, rel)
    requires AreChildren(back + {c}, rel) && c !in back && CanRename(d', AwayAt(c, rel, kept), c)
    ensures IsBranched(d, rel, kept, k, back + {c}, Moved(d', AwayAt(c, rel, kept), c))
    ensures c in d
  {
    var away := AwayAt(c, rel, kept);
    InChild(rel, kept, back, c, c);
    assert Rebase(c, c, away) == away && Lookup(d', away) == Branched(d, rel, kept, k, back, away);
    forall y
      ensures Lookup(Moved(d', away, c), y) == Branched(d, rel, kept, k, back + {c}, y)
    {
      MovedAt(d', away, c, y);
      if Under(y, c) {
        InChild(rel, kept, back, c, y);
        assert Lookup(d', Rebase(y, c, away)) == Branched(d, rel, kept, k, back, Rebase(y, c, away));
      } else if Under(y, kept) {
        InArchive(rel, kept, back, c, y);
      } else {
        OtherChild(back, c, y);
        assert Under(y, away) ==> Under(y, kept);
      }
    }
  }

  lemma OtherChild(back: set<Name>, c: Name, y: Name)
    ensures !Under(y, c) ==> (UnderAny(y, back + {c}) <==> UnderAny(y, back))
    ensures Under(y, c) ==> UnderAny(y, back + {c})
  {
    if t :| t in back && Under(y, t) {
      assert t in back + {c};
    }
    assert c in back + {c};
  }

  /** What lies below a child moved back came from the archive. */
  lemma InChild(rel: Name, kept: Name, back: set<Name>, c: Name, y: Name)
    requires AreChildren(back + {c}, rel) && c !in back && !Under(rel, kept) && !Under(kept, rel) && Under(y, c)
    ensures var x := Rebase(y, c, AwayAt(c, rel, kept));
      Under(x, kept) && x != kept && !Under(x, rel) && Rebase(x, kept, rel) == y
    ensures !UnderAny(y, back) && UnderAny(y, back + {c}) && Under(y, rel) && y != rel && !Under(y, kept)
  {
    var away := AwayAt(c, rel, kept);
    var x := Rebase(y, c, away);
    assert c in back + {c};
    assert away == kept + [c[|rel|]] && c == rel + [c[|rel|]];
    assert x == kept + ([c[|rel|]] + y[|c|..]) && y == rel + ([c[|rel|]] + y[|c|..]);
    assert Under(x, rel) ==> Under(rel, kept) || Under(kept, rel);
    assert Under(y, kept) ==> Under(rel, kept) || Under(kept, rel);
    forall t | t in back
      ensures !Under(y, t)
    {
      assert t in back + {c};
      SameLength(t, c);
      SameLength(c, t);
      assert Under(y, t) ==> Under(t, c) || Under(c, t);
    }
  }

  /** What lies in the archive stays unless its child moves. */
  lemma InArchive(rel: Name, kept: Name, back: set<Name>, c: Name, y: Name)
    requires AreChildren(back + {c}, rel) && Under(y, kept) && !Under(rel, kept) && !Under(kept, rel)
    ensures Under(y, AwayAt(c, rel, kept)) ==> UnderAny(Rebase(y, kept, rel), back + {c}) && y != kept
    ensures !Under(y, AwayAt(c, rel, kept)) ==>
      (UnderAny(Rebase(y, kept, rel), back + {c}) <==> UnderAny(Rebase(y, kept, rel), back))
    ensures !Under(y, rel)
  {
    var x := Rebase(y, kept, rel);
    assert c in back + {c};
    OtherChild(back, c, x);
    assert AwayAt(c, rel, kept) == kept + [c[|rel|]] && c == rel + [c[|rel|]];
    assert Under(x, c) <==> Under(y, AwayAt(c, rel, kept)) by {
      if Under(x, c) {
        assert x[|rel|] == c[|rel|] && y[|kept|] == x[|rel|];
      }
      if Under(y, AwayAt(c, rel, kept)) {
        assert y[|kept|] == c[|rel|] && y[|kept|] == x[|rel|];
      }
    }
    assert Under(y, rel) ==> Under(rel, kept) || Under(kept, rel);
  }

  // ---- the drive after a branch -----------------------------------------------------

  function ChildrenIn(names: set<Name>, rel: Name): (children: set<Name>)
    ensures AreChildren(children, rel)
  {
    set c | c in names && |c| == |rel| + 1 && Under(c, rel)
  }

  /** Only the dataset and its archive changed: the one has the snapshots up to the
      common one, the other exactly the newer ones. */
  ghost function Continued(d: Tree, rel: Name, kept: Name, k: nat): Tree
    requires rel in d && k < |d[rel].snaps|
  {
    d[rel := Fs(d[rel].snaps[..k + 1], d[rel].origin)]
     [kept := Fs(d[rel].snaps[k + 1..], Some(d[rel].snaps[k].id))]
  }

  /** Below a dataset is below one of its children. */
  lemma {:induction false} BelowChild(d: Tree, rel: Name, y: Name)
    requires ParentsThere(d) && y in d && Under(y, rel) && y != rel
    ensures UnderAny(y, ChildrenIn(d.Keys, rel))
    decreases |y|
  {
    BelowIsLonger(y, rel);
    if |y| == |rel| + 1 {
      assert y in ChildrenIn(d.Keys, rel) && Under(y, y);
    } else {
      BelowChild(d, rel, Parent(y));
      var c :| c in ChildrenIn(d.Keys, rel) && Under(Parent(y), c);
      assert Under(y, c);
    }
  }

  lemma AllBack(d: Tree, rel: Name, kept: Name, k: nat, d': Tree)
    requires ParentsThere(d) && CanRename(d, rel, kept)
    requires IsBranched(d, rel, kept, k, ChildrenIn(d.Keys, rel), d')
    ensures d' == Continued(d, rel, kept, k)
  {
    NotUnderEachOther(d, rel, kept);
    var to := Continued(d, rel, kept, k);
    forall y
      ensures Lookup(d', y) == Lookup(to, y)
    {
      if y != rel && y != kept {
        if Under(y, rel) {
          if y in d {
            BelowChild(d, rel, y);
          }
        } else if Under(y, kept) {
          var x := Rebase(y, kept, rel);
          NothingBelow(d, kept, y);
          if x in d {
            BelowIsLonger(y, kept);
            BelowChild(d, rel, x);
          }
        }
      }
    }
    SameLookup(d', to);
  }

  lemma SameLookup(d: Tree, e: Tree)
    requires forall y :: Lookup(d, y) == Lookup(e, y)
    ensures d == e
  {
    assert forall y :: y in d <==> Lookup(d, y).Some?;
    assert forall y :: y in e <==> Lookup(e, y).Some?;
    assert forall y :: y in d ==> Lookup(d, y) == Some(d[y]) && Lookup(e, y) == Some(e[y]);
  }

  // ---- every clone stays one zark makes ------------------------------------------------

  lemma MovedRelated(h: Name, x: Name, a: Name, b: Name, h': Name, x': Name)
    requires Related(h, x) && Related(b, a)
    requires if Under(h, a) then h' == Rebase(h, a, b) else h' == h
    requires if Under(x, a) then x' == Rebase(x, a, b) else x' == x
    ensures Related(h', x')
  {
    if Under(h, a) && h != a {
      RelatedSym(h, x);
      RelatedBelow(h, x, a);
    }
    if Under(x, a) && x != a {
      RelatedBelow(x, h, a);
      BelowIsLonger(x, a);
      assert Parent(h') == Parent(x') && Last(h') == Last(h) && Last(x') == Last(x);
    } else {
      assert h' == h || (h == a && h' == b);
      assert x' == x || (x == a && x' == b);
    }
  }

  lemma MovedOwn(d: Tree, a: Name, b: Name)
    requires Valid(d) && OwnClones(d) && CanRename(d, a, b) && Related(b, a)
    ensures OwnClones(Moved(d, a, b))
  {
    var m := Moved(d, a, b);
    forall y | y in m
      ensures CloneAt(m, y)
    {
      var x := MovedFrom(d, a, b, y);
      assert CloneAt(d, x);
      if d[x].origin.Some? {
        var h :| h in d && Holds(d[h], d[x].origin.value) && Related(h, x);
        var h' := MovedTo(d, a, b, h);
        MovedRelated(h, x, a, b, h', y);
      }
    }
  }

  lemma ClonedOwn(d: Tree, kept: Name, k: nat, rel: Name)
    requires OwnClones(d) && CanClone(d, kept, k, rel) && Related(kept, rel)
    ensures OwnClones(Cloned(d, kept, k, rel))
  {
    var c := Cloned(d, kept, k, rel);
    forall y | y in c
      ensures CloneAt(c, y)
    {
      if y == rel {
        assert d[kept].snaps[k] in c[kept].snaps;
        assert Holds(c[kept], d[kept].snaps[k].id);
      } else {
        assert CloneAt(d, y);
        if d[y].origin.Some? {
          var h :| h in d && Holds(d[h], d[y].origin.value) && Related(h, y);
          assert c[h] == d[h];
        }
      }
    }
  }

  /** The holder of a snapshot after the branch: the dataset's go to one of the two. */
  lemma HolderAfter(d: Tree, rel: Name, kept: Name, k: nat, h: Name, id: nat) returns (h': Name)
    requires Valid(d) && rel in d && kept !in d && k < |d[rel].snaps| && Related(kept, rel) && h in d && Holds(d[h], id)
    ensures h' in Continued(d, rel, kept, k) && Holds(Continued(d, rel, kept, k)[h'], id)
    ensures h' == h || (h == rel && h' == kept)
  {
    var c := Continued(d, rel, kept, k);
    if h == rel {
      assert FsOk(d[rel]);
      var s :| s in d[rel].snaps && s.id == id;
      SnapAt(d[rel].snaps, k, s);
      h' := if s.id <= d[rel].snaps[k].id then rel else kept;
      assert s in c[h'].snaps;
    } else {
      h' := h;
      assert c[h] == d[h];
    }
  }

  lemma ContinuedOwn(d: Tree, rel: Name, kept: Name, k: nat)
    requires Valid(d) && OwnClones(d) && CanRename(d, rel, kept) && k < |d[rel].snaps| && Related(kept, rel)
    ensures OwnClones(Continued(d, rel, kept, k))
  {
    var c := Continued(d, rel, kept, k);
    forall y | y in c
      ensures CloneAt(c, y)
    {
      if y == kept {
        var id := d[rel].snaps[k].id;
        assert c[rel].snaps[k].id == id && c[rel].snaps[k] in c[rel].snaps;
        assert Holds(c[rel], id);
        RelatedSym(kept, rel);
      } else {
        assert CloneAt(d, y) && c[y].origin == d[y].origin;
        if d[y].origin.Some? {
          var h :| h in d && Holds(d[h], d[y].origin.value) && Related(h, y);
          var h' := HolderAfter(d, rel, kept, k, h, d[y].origin.value);
          assert Related(h', y);
        }
      }
    }
  }

  // ---- every history of a drive ------------------------------------------------------

  lemma ContinuedShares(d: Tree, rel: Name, kept: Name, k: nat, s: Snap)
    requires Valid(d) && rel in d && kept !in d && k < |d[rel].snaps|
    ensures var c := Continued(d, rel, kept, k);
      && (s in c[rel].snaps <==> s in d[rel].snaps && s.id <= d[rel].snaps[k].id)
      && (s in c[kept].snaps <==> s in d[rel].snaps && s.id > d[rel].snaps[k].id)
  {
    assert FsOk(d[rel]);
    SnapAt(d[rel].snaps, k, s);
  }

  lemma ContinuedHolder(d: Tree, rel: Name, kept: Name, k: nat, x: Name, id: nat)
    requires Valid(d) && rel in d && kept !in d && k < |d[rel].snaps|
    requires x in Continued(d, rel, kept, k) && Holds(Continued(d, rel, kept, k)[x], id)
    ensures if x == kept then Holds(d[rel], id) && id > d[rel].snaps[k].id
      else x in d && Holds(d[x], id) && (x == rel ==> id <= d[rel].snaps[k].id)
  {
    var s :| s in Continued(d, rel, kept, k)[x].snaps && s.id == id;
    ContinuedShares(d, rel, kept, k, s);
  }

  lemma ContinuedFsOk(fs: Fs, k: nat)
    requires FsOk(fs) && k < |fs.snaps|
    ensures FsOk(Fs(fs.snaps[..k + 1], fs.origin)) && FsOk(Fs(fs.snaps[k + 1..], Some(fs.snaps[k].id)))
  {
    forall s { SnapAt(fs.snaps, k, s); }
  }

  lemma ContinuedHolders(d: Tree, rel: Name, kept: Name, k: nat)
    requires Valid(d) && CanRename(d, rel, kept) && k < |d[rel].snaps|
    ensures OneHolder(Continued(d, rel, kept, k))
  {
    var c := Continued(d, rel, kept, k);
    forall x, y, id | x in c && y in c && Holds(c[x], id) && Holds(c[y], id)
      ensures x == y
    {
      ContinuedHolder(d, rel, kept, k, x, id);
      ContinuedHolder(d, rel, kept, k, y, id);
    }
  }

  lemma ContinuedValid(d: Tree, rel: Name, kept: Name, k: nat)
    requires Valid(d) && CanRename(d, rel, kept) && k < |d[rel].snaps|
    ensures Valid(Continued(d, rel, kept, k))
  {
    ContinuedFsOk(d[rel], k);
    ContinuedHolders(d, rel, kept, k);
  }

  /** Snapshots a receive adds: later than everything on the drive. */
  ghost predicate Later(d: Tree, more: seq<Snap>) {
    Increasing(more) && forall s, t :: s in Snaps(d) && t in more ==> s.id < t.id
  }

  ghost function Grown(d: Tree, x: Name, more: seq<Snap>): Tree {
    if x in d then d[x := Fs(d[x].snaps + more, d[x].origin)] else d[x := Fs(more, None)]
  }

  predicate CanReceive(d: Tree, x: Name) {
    |x| >= 1 && (|x| > 1 ==> Parent(x) in d)
  }

  lemma ReceivedHolder(d: Tree, x: Name, more: seq<Snap>, y: Name, id: nat)
    requires Valid(d) && Later(d, more) && y in Grown(d, x, more) && Holds(Grown(d, x, more)[y], id)
    ensures (y in d && Holds(d[y], id)) || (y == x && forall z :: z in d ==> !Holds(d[z], id))
  {
    var s :| s in Grown(d, x, more)[y].snaps && s.id == id;
    if !(y in d && s in d[y].snaps) {
      forall z | z in d
        ensures !Holds(d[z], id)
      {
        forall t | t in d[z].snaps
          ensures t.id != id
        {
          assert t in Snaps(d);
        }
      }
    }
  }

  lemma LaterFsOk(d: Tree, x: Name, more: seq<Snap>)
    requires Valid(d) && Later(d, more)
    requires x in d && d[x].origin.Some? ==> exists s :: s in Snaps(d) && s.id == d[x].origin.value
    ensures FsOk(Grown(d, x, more)[x])
  {
    if x in d {
      var was, now := d[x].snaps, Grown(d, x, more)[x].snaps;
      assert FsOk(d[x]);
      forall i, j | 0 <= i < j < |now|
        ensures now[i].id < now[j].id
      {
        if i < |was| <= j {
          assert was[i] in was && was[i] in Snaps(d) && more[j - |was|] in more;
        }
      }
    }
  }

  lemma ReceivedFsOk(d: Tree, x: Name, more: seq<Snap>)
    requires Valid(d) && OwnClones(d) && Later(d, more)
    ensures FsOk(Grown(d, x, more)[x])
  {
    if x in d && d[x].origin.Some? {
      assert CloneAt(d, x);
      var h :| h in d && Holds(d[h], d[x].origin.value) && Related(h, x);
      var s :| s in d[h].snaps && s.id == d[x].origin.value;
      assert s in Snaps(d);
    }
    LaterFsOk(d, x, more);
  }

  lemma ReceivedHolders(d: Tree, x: Name, more: seq<Snap>)
    requires Valid(d) && Later(d, more)
    ensures OneHolder(Grown(d, x, more))
  {
    var r := Grown(d, x, more);
    forall y, z, id | y in r && z in r && Holds(r[y], id) && Holds(r[z], id)
      ensures y == z
    {
      ReceivedHolder(d, x, more, y, id);
      ReceivedHolder(d, x, more, z, id);
    }
  }

  lemma ReceivedOwn(d: Tree, x: Name, more: seq<Snap>)
    requires OwnClones(d)
    ensures OwnClones(Grown(d, x, more))
  {
    var r := Grown(d, x, more);
    forall y | y in r
      ensures CloneAt(r, y)
    {
      if y in d {
        assert CloneAt(d, y);
        if d[y].origin.Some? {
          var h :| h in d && Holds(d[h], d[y].origin.value) && Related(h, y);
          var s :| s in d[h].snaps && s.id == d[y].origin.value;
          assert s in r[h].snaps;
        }
      }
    }
  }

  lemma ReceivedKeeps(d: Tree, x: Name, more: seq<Snap>)
    requires Valid(d) && OwnClones(d) && CanReceive(d, x) && Later(d, more)
    ensures Valid(Grown(d, x, more)) && OwnClones(Grown(d, x, more))
  {
    ReceivedFsOk(d, x, more);
    ReceivedHolders(d, x, more);
    ReceivedOwn(d, x, more);
  }

  /** The newer snapshots of a dataset taken, none of which has a clone. */
  predicate CanRollBack(d: Tree, x: Name, k: nat) {
    && x in d && k < |d[x].snaps|
    && forall y, i :: y in d && k < i < |d[x].snaps| ==> d[y].origin != Some(d[x].snaps[i].id)
  }

  function RolledBack(d: Tree, x: Name, k: nat): Tree
    requires x in d && k < |d[x].snaps|
  {
    d[x := Fs(d[x].snaps[..k + 1], d[x].origin)]
  }

  /** Every clone is one of the same dataset still. */
  lemma RolledBackHolds(d: Tree, x: Name, k: nat, y: Name, h: Name)
    requires Valid(d) && CanRollBack(d, x, k) && y in d && h in d && d[y].origin.Some?
    ensures Holds(RolledBack(d, x, k)[h], d[y].origin.value) <==> Holds(d[h], d[y].origin.value)
  {
    var id, was, now := d[y].origin.value, d[x].snaps, d[x].snaps[..k + 1];
    if h == x && Holds(d[x], id) {
      var i :| 0 <= i < |was| && was[i].id == id;
      assert i <= k && now[i] == was[i];
      assert now[i] in now;
    }
  }

  lemma RolledBackValid(d: Tree, x: Name, k: nat)
    requires Valid(d) && CanRollBack(d, x, k)
    ensures Valid(RolledBack(d, x, k))
  {
    var r := RolledBack(d, x, k);
    forall y, id | y in r && Holds(r[y], id)
      ensures Holds(d[y], id)
    {
      var s :| s in r[y].snaps && s.id == id;
      assert s in d[y].snaps;
    }
    assert FsOk(d[x]);
  }

  lemma RolledBackOwn(d: Tree, x: Name, k: nat)
    requires Valid(d) && OwnClones(d) && CanRollBack(d, x, k)
    ensures OwnClones(RolledBack(d, x, k))
  {
    var r := RolledBack(d, x, k);
    forall y | y in r
      ensures CloneAt(r, y)
    {
      assert CloneAt(d, y);
      if d[y].origin.Some? {
        var h :| h in d && Holds(d[h], d[y].origin.value) && Related(h, y);
        RolledBackHolds(d, x, k, y, h);
      }
    }
  }

  /** A tree whose snapshots have no clone outside it, destroyed. */
  ghost predicate CanDestroy(d: Tree, top: Name) {
    && top in d
    && forall x, h :: x in d && h in d && !Under(x, top) && Under(h, top) && d[x].origin.Some? ==>
         !Holds(d[h], d[x].origin.value)
  }

  function Destroyed(d: Tree, top: Name): Tree {
    map x | x in d && !Under(x, top) :: d[x]
  }

  lemma DestroyedKeeps(d: Tree, top: Name)
    requires Valid(d) && OwnClones(d) && CanDestroy(d, top)
    ensures Valid(Destroyed(d, top)) && OwnClones(Destroyed(d, top))
  {
    var r := Destroyed(d, top);
    forall y | y in r
      ensures CloneAt(r, y) && (|y| > 1 ==> Parent(y) in r)
    {
      assert CloneAt(d, y);
      assert |y| > 1 ==> !Under(Parent(y), top);
      if d[y].origin.Some? {
        var h :| h in d && Holds(d[h], d[y].origin.value) && Related(h, y);
        assert h in r && r[h] == d[h];
      }
    }
  }
}
