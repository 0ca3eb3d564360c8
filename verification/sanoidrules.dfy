/** Discovering the rules of a system and writing them so that no two sections meet. */
module SanoidRules {
  import opened Replication
  import opened SanoidPolicy
  import opened Exclusions

  /** A list of the rules, one entry each. */
  ghost predicate Lists(list: seq<Section>, rules: Rules) {
    && UniqueNames(list)
    && forall s :: s in list <==> s.name in rules && s.rule == rules[s.name]
  }

  // ---- splitting around ---------------------------------------------------------

  lemma {:induction false} PartsHas(p: Policy, list: seq<Section>, s: Section)
    ensures s in Parts(p, list) <==> exists r :: r in list && s in Part(p, r)
  {
    if list != [] {
      var n := |list| - 1;
      SplitLast(list);
      PartsHas(p, list[..n], s);
    }
  }

  /** The sections from the rules: all there are, but drained subtrees no rule leads to. */
  lemma PartsAreSections(p: Policy, list: seq<Section>, s: Section)
    requires p.Valid() && p.Antichain() && Lists(list, p.rules)
    ensures s in Parts(p, list) ==> IsSection(p, s)
    ensures IsSection(p, s) && s.name !in p.drained ==> s in Parts(p, list)
  {
    PartsHas(p, list, s);
    if r :| r in list && s in Part(p, r) {
      PartHas(p, r.name, s);
      assert r == Section(r.name, p.rules[r.name]);
    }
    if IsSection(p, s) && s.name !in p.drained {
      var n :| Gives(p, n, s);
      PartHas(p, n, s);
      assert Section(n, p.rules[n]) in list;
    }
  }

  /** What two different rules become has no name in common, unless an override is
      drained. */
  lemma PartsDiffer(p: Policy, n: Name, m: Name, s: Section, t: Section)
    requires p.Valid() && p.Antichain() && p.drained !! p.overrides
    requires n in p.rules && m in p.rules && n != m
    requires s in Part(p, Section(n, p.rules[n])) && t in Part(p, Section(m, p.rules[m]))
    ensures s.name != t.name
  {
    PartHas(p, n, s);
    PartHas(p, m, t);
    if s.name == t.name {
      AboveSame(s.name, n, m);
      if Below(m, n) {
        OverrideApart(p, n, m, s.name);
      } else {
        OverrideApart(p, m, n, s.name);
      }
    }
  }

  /** The rule below a recursive one is an override's, and is not taken from above. */
  lemma OverrideApart(p: Policy, n: Name, m: Name, y: Name)
    requires p.Valid() && p.drained !! p.overrides && IsRecursive(p.rules, n) && m in p.rules && Below(m, n)
    requires y in p.listed && (y !in p.rules || y in p.drained)
    ensures !Under(y, m)
  {
    assert m in p.overrides;
    assert !Below(y, m);
  }

  lemma PartUnique(p: Policy, s: Section)
    requires p.Valid() && p.Antichain() && AllDifferent(p.listed) && s.name in p.rules && s.rule == p.rules[s.name]
    ensures UniqueNames(Part(p, s))
  {
    if s.name !in p.drained && !p.Inside(s.name) && s.rule.recursive {
      DrainedNotCovered(p, s.name);
      QuietRule(p, s.name);
      ExpandUnique(p, s.name, s.rule);
    }
  }

  lemma {:induction false} PartsUnique(p: Policy, list: seq<Section>)
    requires p.Valid() && p.Antichain() && AllDifferent(p.listed) && p.drained !! p.overrides && UniqueNames(list)
    requires forall s :: s in list ==> s.name in p.rules && s.rule == p.rules[s.name]
    ensures UniqueNames(Parts(p, list))
  {
    if list != [] {
      var n := |list| - 1;
      var last := list[n];
      assert last in list;
      PartsUnique(p, list[..n]);
      PartUnique(p, last);
      forall s, t | s in Parts(p, list[..n]) && t in Part(p, last)
        ensures s.name != t.name
      {
        PartsHas(p, list[..n], s);
        var r :| r in list[..n] && s in Part(p, r);
        var i :| 0 <= i < n && list[i] == r;
        assert r in list;
        assert r == Section(r.name, p.rules[r.name]) && last == Section(last.name, p.rules[last.name]);
        PartsDiffer(p, r.name, last.name, s, t);
      }
      JoinUnique(Parts(p, list[..n]), Part(p, last));
    }
  }

  /** A drained override is written twice: on the way down to it and as a rule. */
  lemma DrainedTwice(p: Policy, d: Name) returns (r: Name)
    requires p.Valid() && p.Antichain() && d in p.drained && d in p.overrides
    ensures r in p.rules && r != d
    ensures Section(d, DRAIN) in Part(p, Section(r, p.rules[r])) && Section(d, DRAIN) in Part(p, Section(d, p.rules[d]))
  {
    assert HasRecursive(p.rules, d);
    r :| IsRecursive(p.rules, r) && Below(d, r);
    PartHas(p, d, Section(d, DRAIN));
    PartHas(p, r, Section(d, DRAIN));
    ParentBetween(d, r);
    assert !p.Covered(d);
    assert Below(d, Parent(d)) && d in p.drained + p.overrides;
    assert Parent(d) !in p.drained && Parent(d) !in p.overrides;
  }

  lemma InParts(p: Policy, list: seq<Section>, r: Section, s: Section)
    requires r in list && s in Part(p, r)
    ensures s in Parts(p, list)
  {
    PartsHas(p, list, s);
  }

  lemma PartsLast(p: Policy, list: seq<Section>, rest: seq<Section>, last: Section, s: Section)
    requires list == rest + [last] && (!UniqueNames(Parts(p, rest)) || (s in Parts(p, rest) && s in Part(p, last)))
    ensures !UniqueNames(Parts(p, list))
  {
    NotUniqueJoin(Parts(p, rest), Part(p, last), s);
    assert list[..|list| - 1] == rest;
  }

  lemma {:induction false} TwiceNotUnique(p: Policy, list: seq<Section>, i: nat, j: nat, s: Section)
    requires i < j < |list| && s in Part(p, list[i]) && s in Part(p, list[j])
    ensures !UniqueNames(Parts(p, list))
  {
    var n := |list| - 1;
    var rest, last := list[..n], list[n];
    assert rest[i] == list[i];
    SplitLast(list);
    if j < n {
      assert rest[j] == list[j];
      TwiceNotUnique(p, rest, i, j, s);
      PartsLast(p, list, rest, last, s);
    } else {
      InParts(p, rest, rest[i], s);
      PartsLast(p, list, rest, last, s);
    }
  }

  lemma NotUniqueJoin(a: seq<Section>, b: seq<Section>, s: Section)
    requires !UniqueNames(a) || (s in a && s in b)
    ensures !UniqueNames(a + b)
  {
    var all := a + b;
    if !UniqueNames(a) {
      var i, j :| 0 <= i < j < |a| && a[i].name == a[j].name;
      assert all[i].name == all[j].name;
    } else {
      var i :| 0 <= i < |a| && a[i] == s;
      var j :| 0 <= j < |b| && b[j] == s;
      assert all[i].name == all[|a| + j].name;
    }
  }

  /** Names are unique exactly when no override is drained. */
  lemma UniqueExactly(p: Policy, list: seq<Section>)
    requires p.Valid() && p.Antichain() && AllDifferent(p.listed) && Lists(list, p.rules)
    ensures UniqueNames(Parts(p, list)) <==> p.drained !! p.overrides
  {
    if p.drained !! p.overrides {
      PartsUnique(p, list);
    } else {
      var d :| d in p.drained && d in p.overrides;
      var r := DrainedTwice(p, d);
      TwiceInList(p, list, Section(r, p.rules[r]), Section(d, p.rules[d]), Section(d, DRAIN));
    }
  }

  lemma TwiceInList(p: Policy, list: seq<Section>, a: Section, b: Section, s: Section)
    requires a in list && b in list && a != b && s in Part(p, a) && s in Part(p, b)
    ensures !UniqueNames(Parts(p, list))
  {
    var i :| 0 <= i < |list| && list[i] == a;
    var j :| 0 <= j < |list| && list[j] == b;
    TwiceNotUnique(p, list, if i < j then i else j, if i < j then j else i, s);
  }

  predicate HasName(out: seq<Section>, x: Name) {
    exists i :: 0 <= i < |out| && out[i].name == x
  }

  /** Drained subtrees that no rule led to, added at the end. */
  ghost predicate Adding(p: Policy, parts: seq<Section>, out: seq<Section>, done: seq<Name>) {
    && parts <= out
    && (UniqueNames(out) <==> UniqueNames(parts))
    && (forall s :: s in out ==> IsSection(p, s))
    && (forall t :: t in done ==> Section(t, DRAIN) in out)
  }

  lemma AddOne(p: Policy, parts: seq<Section>, out: seq<Section>, done: seq<Name>, top: Name)
    requires p.Valid() && Adding(p, parts, out, done) && top in p.drained
    ensures Adding(p, parts, if HasName(out, top) then out else out + [Section(top, DRAIN)], done + [top])
  {
    var own := Section(top, DRAIN);
    if HasName(out, top) {
      var i :| 0 <= i < |out| && out[i].name == top;
      assert out[i] in out;
      SameSection(p, out[i], own);
    } else {
      var all := out + [own];
      if UniqueNames(out) {
        JoinUnique(out, [own]);
      } else {
        var i, j :| 0 <= i < j < |out| && out[i].name == out[j].name;
        assert all[i].name == all[j].name;
      }
    }
  }

  method FromRules(p: Policy, list: seq<Section>) returns (out: seq<Section>)
    ensures out == Parts(p, list)
  {
    out := [];
    for i := 0 to |list|
      invariant out == Parts(p, list[..i])
    {
      out := out + Part(p, list[i]);
      assert list[..i + 1][..i] == list[..i];
    }
    assert list[..|list|] == list;
  }

  method AddDrained(p: Policy, parts: seq<Section>) returns (out: seq<Section>, ghost tops: seq<Name>)
    requires p.Valid() && Adding(p, parts, parts, [])
    ensures Adding(p, parts, out, tops) && forall t :: t in p.drained ==> t in tops
  {
    out := parts;
    var list := Listing(p.drained);
    for i := 0 to |list|
      invariant Adding(p, parts, out, list[..i])
    {
      AddOne(p, parts, out, list[..i], list[i]);
      TakeOne(list, i);
      out := if HasName(out, list[i]) then out else out + [Section(list[i], DRAIN)];
    }
    tops := list;
    assert list[..|list|] == list;
  }

  /** The rules with every drained subtree and every override standing alone. */
  method SplitAround(p: Policy, list: seq<Section>) returns (out: seq<Section>)
    requires p.Valid() && p.Antichain() && AllDifferent(p.listed) && Lists(list, p.rules)
    ensures AreSections(p, out)
    ensures UniqueNames(out) <==> p.drained !! p.overrides
  {
    var parts := FromRules(p, list);
    forall s { PartsAreSections(p, list, s); }
    UniqueExactly(p, list);
    ghost var tops: seq<Name>;
    out, tops := AddDrained(p, parts);
    AddedAll(p, list, out, tops);
  }

  lemma AddedAll(p: Policy, list: seq<Section>, out: seq<Section>, tops: seq<Name>)
    requires p.Valid() && p.Antichain() && Lists(list, p.rules) && Adding(p, Parts(p, list), out, tops)
    requires forall t :: t in p.drained ==> t in tops
    ensures AreSections(p, out)
  {
    forall s | IsSection(p, s)
      ensures s in out
    {
      PartsAreSections(p, list, s);
      if s.name in p.drained {
        SameSection(p, s, Section(s.name, DRAIN));
      }
    }
  }

  // ---- discovering the rules ------------------------------------------------------

  /** The datasets of a listing; a name listed again is passed over. */
  function KindsOf(listing: seq<Dataset>): (kinds: Kinds)
    ensures forall x :: x in kinds <==> exists d :: d in listing && d.name == x
  {
    if listing == [] then map[]
    else
      var kinds := KindsOf(listing[..|listing| - 1]);
      var d := listing[|listing| - 1];
      assert listing == listing[..|listing| - 1] + [d];
      if d.name in kinds then kinds else kinds[d.name := d.kind]
  }

  method ClassifyAll(listing: seq<Dataset>, ubuntu: string) returns (seen: seq<Name>, initial: seq<Section>)
    ensures AllDifferent(seen) && (forall x :: x in seen <==> x in KindsOf(listing))
    ensures Lists(initial, Classified(KindsOf(listing), ubuntu))
  {
    seen, initial := [], [];
    for i := 0 to |listing|
      invariant AllDifferent(seen) && (forall x :: x in seen <==> x in KindsOf(listing[..i]))
      invariant Lists(initial, Classified(KindsOf(listing[..i]), ubuntu))
    {
      var d := listing[i];
      assert listing[..i + 1][..i] == listing[..i];
      ghost var kinds := KindsOf(listing[..i]);
      if d.name !in seen {
        var rule := Classify(d.name, d.kind, ubuntu);
        ClassifyOne(kinds, ubuntu, initial, d, rule);
        seen := seen + [d.name];
        if rule.Some? {
          initial := initial + [Section(d.name, rule.value)];
        }
      }
    }
    assert listing[..|listing|] == listing;
  }

  lemma ClassifyOne(kinds: Kinds, ubuntu: string, initial: seq<Section>, d: Dataset, rule: Option<Rule>)
    requires Lists(initial, Classified(kinds, ubuntu)) && d.name !in kinds && rule == Classify(d.name, d.kind, ubuntu)
    ensures Lists(if rule.Some? then initial + [Section(d.name, rule.value)] else initial,
      Classified(kinds[d.name := d.kind], ubuntu))
  {
    var was, now := Classified(kinds, ubuntu), Classified(kinds[d.name := d.kind], ubuntu);
    assert forall x :: x != d.name ==> (x in now <==> x in was) && (x in was ==> now[x] == was[x]);
    if rule.Some? {
      JoinUnique(initial, [Section(d.name, rule.value)]);
    }
  }

  /** The rules that are not redundant, and those of them below a recursive one. */
  method PruneAll(initial: seq<Section>, ghost rules: Rules, byName: Rules) returns (pruned: seq<Section>,
                  overrides: set<Name>)
    requires Lists(initial, rules) && byName == rules
    ensures Lists(pruned, Pruned(rules)) && overrides == Overrides(rules)
  {
    pruned, overrides := [], {};
    for i := 0 to |initial|
      invariant PrunedUpTo(rules, initial[..i], pruned, overrides)
    {
      var s := initial[i];
      assert s in initial;
      assert initial[..i + 1] == initial[..i] + [s];
      assert forall r :: r in initial[..i] ==> r.name != s.name;
      var above := NearestRecursive(byName, s.name);
      PruneOne(rules, initial[..i], pruned, overrides, s);
      if above.None? {
        pruned := pruned + [s];
      } else if byName[above.value].template != s.rule.template
                || byName[above.value].recursive != s.rule.recursive {
        pruned, overrides := pruned + [s], overrides + {s.name};
      }
    }
    assert initial[..|initial|] == initial;
    PrunedAll(rules, initial, pruned, overrides);
  }

  ghost predicate PrunedUpTo(rules: Rules, done: seq<Section>, pruned: seq<Section>, overrides: set<Name>) {
    && UniqueNames(pruned)
    && (forall s :: s in pruned <==> s in done && s.name in rules && !Redundant(rules, s.name))
    && (forall x :: x in overrides <==>
         HasName(done, x) && x in rules && !Redundant(rules, x) && NearestRecursive(rules, x).Some?)
  }

  lemma PruneOne(rules: Rules, done: seq<Section>, pruned: seq<Section>, overrides: set<Name>, s: Section)
    requires PrunedUpTo(rules, done, pruned, overrides) && s.name in rules && s.rule == rules[s.name]
    requires forall r :: r in done ==> r.name != s.name
    ensures PrunedUpTo(rules, done + [s],
      if Redundant(rules, s.name) then pruned else pruned + [s],
      if !Redundant(rules, s.name) && NearestRecursive(rules, s.name).Some? then overrides + {s.name} else overrides)
  {
    JoinUnique(pruned, [s]);
    NamesJoin(done, s);
  }

  lemma PrunedAll(rules: Rules, initial: seq<Section>, pruned: seq<Section>, overrides: set<Name>)
    requires Lists(initial, rules) && PrunedUpTo(rules, initial, pruned, overrides)
    ensures Lists(pruned, Pruned(rules)) && overrides == Overrides(rules)
  {
    forall x | x in rules
      ensures HasName(initial, x)
    {
      var s := Section(x, rules[x]);
      assert s in initial;
    }
  }

  /** The dictionary of a list of rules. */
  method ByName(list: seq<Section>, ghost rules: Rules) returns (m: Rules)
    requires Lists(list, rules)
    ensures m == rules
  {
    m := map[];
    for i := 0 to |list|
      invariant forall x :: x in m <==> HasName(list[..i], x)
      invariant forall x :: x in m ==> x in rules && m[x] == rules[x]
    {
      assert list[i] in list && list[..i + 1] == list[..i] + [list[i]];
      NamesJoin(list[..i], list[i]);
      m := m[list[i].name := list[i].rule];
    }
    assert list[..|list|] == list;
    forall x | x in rules
      ensures x in m
    {
      assert Section(x, rules[x]) in list;
    }
  }

  lemma NamesJoin(done: seq<Section>, s: Section)
    ensures forall x :: HasName(done + [s], x) <==> HasName(done, x) || x == s.name
  {
    forall x
      ensures HasName(done + [s], x) <==> HasName(done, x) || x == s.name
    {
      if HasName(done, x) {
        var i :| 0 <= i < |done| && done[i].name == x;
        assert (done + [s])[i].name == x;
      }
      assert (done + [s])[|done|] == s;
    }
  }

  lemma MakesPolicy(p: Policy, kinds: Kinds, ubuntu: string)
    requires IsSystem(kinds) && DrainedApart(p.drained) && forall x :: x in p.listed <==> x in kinds
    requires p.rules == Pruned(Classified(kinds, ubuntu)) && p.overrides == Overrides(Classified(kinds, ubuntu))
    ensures IsPolicy(p, kinds, ubuntu) && p.Valid() && p.Antichain()
  {
    assert p.Antichain();
    PolicyValid(p, kinds, ubuntu);
  }

  ghost predicate DrainedApart(drained: set<Name>) {
    forall s, t :: s in drained && t in drained ==> !Below(s, t)
  }

  /** What the sections of a system promise, on their own. */
  ghost predicate AreSectionsOf(kinds: Kinds, ubuntu: string, drained: set<Name>, out: seq<Section>) {
    exists p :: IsPolicy(p, kinds, ubuntu) && p.drained == drained && AreSections(p, out)
  }

  /** The sections of a system's policy, in the order they are written. */
  method DiscoverRules(listing: seq<Dataset>, ubuntu: string, drained: set<Name>)
    returns (out: seq<Section>, ghost p: Policy)
    requires IsSystem(KindsOf(listing)) && DrainedApart(drained)
    ensures IsPolicy(p, KindsOf(listing), ubuntu) && p.drained == drained && AreSections(p, out)
    ensures UniqueNames(out) <==> drained !! Overrides(Classified(KindsOf(listing), ubuntu))
    ensures AreSectionsOf(KindsOf(listing), ubuntu, drained, out)
  {
    var seen, initial := ClassifyAll(listing, ubuntu);
    ghost var rules := Classified(KindsOf(listing), ubuntu);
    var byName := ByName(initial, rules);
    var pruned, overrides := PruneAll(initial, rules, byName);
    var kept := ByName(pruned, Pruned(rules));
    var policy := Policy(seen, kept, drained, overrides);
    p := policy;
    MakesPolicy(p, KindsOf(listing), ubuntu);
    if drained == {} && overrides == {} {
      NothingAlone(p, pruned);
      out := pruned;
    } else {
      out := SplitAround(policy, pruned);
    }
  }

  /** With nothing to stand alone the rules are the sections. */
  lemma NothingAlone(p: Policy, pruned: seq<Section>)
    requires p.Valid() && p.drained == {} && p.overrides == {} && Lists(pruned, p.rules)
    ensures AreSections(p, pruned)
  {
    forall s
      ensures s in pruned <==> IsSection(p, s)
    {
      if s in pruned {
        assert Gives(p, s.name, s);
      }
    }
  }

  /** What is excluded from snapshots as the system declares it: apart from each other, and
      never a volume, so that every section's name is its own. */
  lemma DeclaredDrains(p: Policy, kinds: Kinds, ubuntu: string, values: map<Name, Values>)
    requires IsPolicy(p, kinds, ubuntu) && p.drained == DeclaredOf(values, kinds).NoSnapshot()
    ensures DrainedApart(p.drained) && p.drained !! p.overrides
  {
    var tops := DeclaredOf(values, kinds).SnapshotTops();
    forall s, t | s in p.drained && t in p.drained
      ensures !Below(s, t)
    {
      if Under(s, t) {
        MinimalApart(tops, s, t);
      }
    }
    var rules := Classified(kinds, ubuntu);
    forall o | o in p.overrides
      ensures o !in p.drained
    {
      BelowRecursive(kinds, ubuntu, o, NearestRecursive(rules, o).value);
      NeverLeftOut(values, kinds, o);
    }
  }
}
