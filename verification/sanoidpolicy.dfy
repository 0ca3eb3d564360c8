/** The sanoid policy: which rule each dataset gets, and sections that say so
    whatever order sanoid reads them in. */
module SanoidPolicy {
  import opened Replication

  /** `NoSnapshots` is a section with autosnap and autoprune off. */
  datatype Template = Production | Minimal | Drained | NoSnapshots

  datatype Rule = Rule(template: Template, recursive: bool)

  datatype Section = Section(name: Name, rule: Rule)

  datatype Dataset = Dataset(name: Name, kind: Kind)

  type Kinds = map<Name, Kind>
  type Rules = map<Name, Rule>

  const ROOT: Name := ["rpool", "ROOT"]
  const USERDATA: Name := ["rpool", "USERDATA"]
  const BOOT: Name := ["bpool", "BOOT"]
  const DRAIN := Rule(Drained, true)

  predicate Below(rel: Name, top: Name) {
    Under(rel, top) && rel != top
  }

  // ---- one dataset --------------------------------------------------------------

  function Classify(name: Name, kind: Kind, ubuntu: string): Option<Rule> {
    if kind == Volume then Some(Rule(NoSnapshots, false))
    else if |name| <= 1 then Some(Rule(Minimal, false))
    else if name == ROOT + [ubuntu] || name == USERDATA then Some(Rule(Production, true))
    else if name == ROOT then Some(Rule(Minimal, false))
    else if Below(name, ROOT) || Below(name, USERDATA) || Below(name, BOOT) then None
    else if name == BOOT then Some(Rule(Production, true))
    else Some(Rule(Minimal, true))
  }

  /** The rules as first classified. */
  function Classified(kinds: Kinds, ubuntu: string): Rules {
    map x | x in kinds && Classify(x, kinds[x], ubuntu).Some? :: Classify(x, kinds[x], ubuntu).value
  }

  predicate IsRecursive(rules: Rules, x: Name) {
    x in rules && rules[x].recursive
  }

  function NearestRecursive(rules: Rules, x: Name): (a: Option<Name>)
    ensures a.Some? ==> IsRecursive(rules, a.value) && Below(x, a.value)
    ensures forall b :: IsRecursive(rules, b) && Below(x, b) && b != [] ==> a.Some? && Under(a.value, b)
  {
    if |x| <= 1 then None
    else if IsRecursive(rules, Parent(x)) then Some(Parent(x))
    else
      assert forall b :: Below(x, b) ==> Under(Parent(x), b) by { forall b | Below(x, b) { ParentBetween(x, b); } }
      NearestRecursive(rules, Parent(x))
  }

  lemma ParentBetween(x: Name, b: Name)
    requires Below(x, b)
    ensures Under(Parent(x), b) && Below(x, Parent(x))
  {
    BelowIsLonger(x, b);
    if |x| > 1 {
      assert Parent(x)[..|b|] == x[..|b|] == b;
    }
  }

  /** What sanoid is meant to do with a dataset: its own rule, else the nearest
      recursive one above it. */
  function Meant(rules: Rules, x: Name): Option<Template> {
    if x in rules then Some(rules[x].template)
    else var a := NearestRecursive(rules, x);
      if a.Some? then Some(rules[a.value].template) else None
  }

  predicate Redundant(rules: Rules, x: Name)
    requires x in rules
  {
    var a := NearestRecursive(rules, x);
    a.Some? && rules[a.value] == rules[x]
  }

  function Pruned(rules: Rules): Rules {
    map x | x in rules && !Redundant(rules, x) :: rules[x]
  }

  /** Rules kept below a recursive one that says otherwise. */
  function Overrides(rules: Rules): set<Name> {
    set x | x in Pruned(rules) && NearestRecursive(rules, x).Some?
  }

  // ---- what the classification gives ----------------------------------------------

  /** Datasets are listed with their parents, and a volume has no children. */
  predicate IsSystem(kinds: Kinds) {
    && (forall x :: x in kinds ==> |x| >= 1 && (|x| > 1 ==> Parent(x) in kinds))
    && (forall x, v :: x in kinds && v in kinds && kinds[v] == Volume ==> !Below(x, v))
  }

  /** A rule below a recursive one is the same rule, or a volume's. */
  lemma BelowRecursive(kinds: Kinds, ubuntu: string, x: Name, a: Name)
    requires IsSystem(kinds)
    requires var rules := Classified(kinds, ubuntu); x in rules && IsRecursive(rules, a) && Below(x, a)
    ensures var rules := Classified(kinds, ubuntu);
      if kinds[x] == Volume then rules[x] == Rule(NoSnapshots, false) else rules[x] == rules[a]
  {
    assert |a| >= 2;
    BelowIsLonger(x, a);
    if kinds[x] != Volume {
      assert |x| >= 3;
      assert Under(a, ROOT) ==> Below(x, ROOT);
    }
  }

  lemma {:induction false} AboveListed(kinds: Kinds, x: Name, top: Name)
    requires IsSystem(kinds) && x in kinds && Under(x, top) && |top| >= 1
    ensures top in kinds && (x != top ==> kinds[top] != Volume)
    decreases |x|
  {
    if x != top {
      ParentBetween(x, top);
      BelowIsLonger(x, top);
      AboveListed(kinds, Parent(x), top);
    }
  }

  /** The templates as the policy means them, for every dataset there is: volumes none,
      the live system, user data and the boot chain production, the other boot
      environments no section at all, everything else minimal. */
  function Intended(kinds: Kinds, ubuntu: string, x: Name): Option<Template>
    requires x in kinds
  {
    if kinds[x] == Volume then Some(NoSnapshots)
    else if Under(x, ROOT + [ubuntu]) || Under(x, USERDATA) || Under(x, BOOT) then Some(Production)
    else if Below(x, ROOT) then None
    else Some(Minimal)
  }

  /** Below one of the three, the rule above is that one's. */
  lemma BelowProduction(kinds: Kinds, ubuntu: string, x: Name, top: Name)
    requires IsSystem(kinds) && x in kinds && kinds[x] != Volume && Below(x, top)
    requires top in [ROOT + [ubuntu], USERDATA, BOOT]
    ensures Meant(Classified(kinds, ubuntu), x) == Some(Production)
  {
    var rules := Classified(kinds, ubuntu);
    AboveListed(kinds, x, top);
    PathsApart(ubuntu);
    assert IsRecursive(rules, top) && rules[top].template == Production;
    var a := NearestRecursive(rules, x).value;
    if a != top {
      BelowRecursive(kinds, ubuntu, a, top);
    }
    if x in rules {
      BelowRecursive(kinds, ubuntu, x, top);
    }
  }

  lemma PathsApart(ubuntu: string)
    ensures ROOT != USERDATA && !Under(ROOT, USERDATA) && !Under(USERDATA, ROOT) && !Under(BOOT, ROOT)
    ensures !Under(BOOT, USERDATA)
    ensures Below(ROOT + [ubuntu], ROOT) && |BOOT| == |USERDATA| == |ROOT| == 2
  {
    assert ROOT[1] != USERDATA[1] && BOOT[0] != ROOT[0] && BOOT[0] != USERDATA[0];
  }

  /** Above a dataset of another boot environment nothing is recursive. */
  lemma OtherEnvironment(kinds: Kinds, ubuntu: string, x: Name)
    requires IsSystem(kinds) && x in kinds && kinds[x] != Volume && Below(x, ROOT) && !Under(x, ROOT + [ubuntu])
    ensures Meant(Classified(kinds, ubuntu), x) == None
  {
    var rules := Classified(kinds, ubuntu);
    PathsApart(ubuntu);
    var a := NearestRecursive(rules, x);
    if a.Some? {
      AboveSame(x, a.value, ROOT);
      assert |a.value| >= 2;
      assert Under(a.value, ROOT);
    }
  }

  /** Every dataset is meant to have what is intended for it. */
  lemma EveryDatasetMeant(kinds: Kinds, ubuntu: string, x: Name)
    requires IsSystem(kinds) && x in kinds
    ensures Meant(Classified(kinds, ubuntu), x) == Intended(kinds, ubuntu, x)
  {
    PathsApart(ubuntu);
    if kinds[x] != Volume {
      if Below(x, ROOT + [ubuntu]) {
        BelowProduction(kinds, ubuntu, x, ROOT + [ubuntu]);
      } else if Below(x, USERDATA) {
        BelowProduction(kinds, ubuntu, x, USERDATA);
      } else if Below(x, BOOT) {
        BelowProduction(kinds, ubuntu, x, BOOT);
      } else if Below(x, ROOT) && x != ROOT + [ubuntu] {
        OtherEnvironment(kinds, ubuntu, x);
      }
    }
  }

  /** What the pruned rules are like: recursive ones apart from each other, and below
      them only volumes' rules. */
  ghost predicate Apart(listed: set<Name>, rules: Rules, overrides: set<Name>) {
    && (forall x :: x in listed ==> |x| >= 1 && (|x| > 1 ==> Parent(x) in listed))
    && rules.Keys <= listed && overrides <= rules.Keys
    && (forall r, b :: IsRecursive(rules, r) && b in rules && Below(b, r) ==> b in overrides)
    && (forall o :: o in overrides ==> !rules[o].recursive)
    && (forall o, x :: o in overrides && x in listed ==> !Below(x, o))
    && (forall o {:trigger HasRecursive(rules, o)} :: o in overrides ==> HasRecursive(rules, o))
  }

  ghost predicate HasRecursive(rules: Rules, o: Name) {
    exists r :: IsRecursive(rules, r) && Below(o, r)
  }

  lemma PrunedApart(kinds: Kinds, ubuntu: string)
    requires IsSystem(kinds)
    ensures var rules := Classified(kinds, ubuntu); Apart(kinds.Keys, Pruned(rules), Overrides(rules))
  {
    var rules := Classified(kinds, ubuntu);
    forall o | o in Overrides(rules)
      ensures kinds[o] == Volume && HasRecursive(Pruned(rules), o)
    {
      var a := NearestRecursive(rules, o).value;
      BelowRecursive(kinds, ubuntu, o, a);
      var r := Topmost(kinds, ubuntu, a);
      BelowIsLonger(o, a);
      assert Below(o, r);
    }
  }

  /** The topmost recursive rule above a dataset is kept, and says what the nearest
      one says. */
  lemma {:induction false} Topmost(kinds: Kinds, ubuntu: string, a: Name) returns (r: Name)
    requires IsSystem(kinds) && IsRecursive(Classified(kinds, ubuntu), a)
    ensures var rules := Classified(kinds, ubuntu);
      IsRecursive(Pruned(rules), r) && Under(a, r) && rules[r] == rules[a]
    decreases |a|
  {
    var rules := Classified(kinds, ubuntu);
    var above := NearestRecursive(rules, a);
    if above.None? {
      r := a;
    } else {
      BelowRecursive(kinds, ubuntu, a, above.value);
      BelowIsLonger(a, above.value);
      r := Topmost(kinds, ubuntu, above.value);
    }
  }

  /** Among the kept rules, a recursive one above a dataset without a kept rule of its
      own says what is meant for it; and there is one if anything is meant. */
  lemma KeptSays(kinds: Kinds, ubuntu: string, x: Name)
    requires IsSystem(kinds) && x in kinds && x !in Pruned(Classified(kinds, ubuntu))
    ensures var rules := Classified(kinds, ubuntu); var kept := Pruned(rules);
      && (forall r :: IsRecursive(kept, r) && Below(x, r) ==> Meant(rules, x) == Some(kept[r].template))
      && (Meant(rules, x).Some? ==> exists r :: IsRecursive(kept, r) && Below(x, r))
  {
    var rules := Classified(kinds, ubuntu);
    var kept := Pruned(rules);
    var a := NearestRecursive(rules, x);
    if a.Some? {
      assert x in rules ==> rules[x] == rules[a.value];
      var top := Topmost(kinds, ubuntu, a.value);
      assert Below(x, top) by { BelowIsLonger(x, a.value); }
      PrunedApart(kinds, ubuntu);
      forall r | IsRecursive(kept, r) && Below(x, r)
        ensures r == top
      {
        AboveSame(x, r, top);
        assert Below(r, top) ==> r in Overrides(rules);
        assert Below(top, r) ==> top in Overrides(rules);
      }
    } else {
      assert x !in rules;
    }
  }

  // ---- splitting around what must stand alone ---------------------------------------

  /** What a split works with: the datasets, the rules, the subtrees drained and the
      rules below a recursive one. */
  datatype Policy = Policy(listed: seq<Name>, rules: Rules, drained: set<Name>, overrides: set<Name>) {
    /** Something that must stand alone is below. */
    predicate HasBelow(x: Name) {
      exists t :: t in drained + overrides && Below(t, x)
    }

    predicate Splits(x: Name) {
      x !in drained && x !in overrides && HasBelow(x)
    }

    predicate Inside(x: Name) {
      UnderAny(x, drained)
    }

    predicate Covered(x: Name) {
      exists t :: t in drained && Below(x, t)
    }

    ghost predicate Valid() {
      Apart((set x | x in listed), rules, overrides)
    }

    ghost predicate Antichain() {
      forall s, t :: s in drained && t in drained ==> !Below(s, t)
    }

    function Children(x: Name): seq<Name> {
      ChildrenOf(listed, x)
    }

    function Lower(x: Name): set<Name> {
      set y | y in listed && Below(y, x)
    }
  }

  function ChildrenOf(names: seq<Name>, x: Name): (kids: seq<Name>)
    ensures forall c :: c in kids <==> c in names && |c| > 1 && Parent(c) == x
    ensures AllDifferent(names) ==> AllDifferent(kids)
  {
    if names == [] then []
    else
      var rest := ChildrenOf(names[1..], x);
      if |names[0]| > 1 && Parent(names[0]) == x then [names[0]] + rest else rest
  }

  lemma LowerShrinks(p: Policy, c: Name, x: Name)
    requires c in p.listed && Below(c, x)
    ensures |p.Lower(c)| < |p.Lower(x)|
  {
    assert p.Lower(c) <= p.Lower(x) - {c} by {
      forall y | y in p.Lower(c)
        ensures Below(y, x)
      {
        BelowIsLonger(y, c);
        BelowIsLonger(c, x);
      }
    }
    SubsetSize(p.Lower(c), p.Lower(x) - {c});
  }

  lemma ChildBelow(c: Name, x: Name)
    requires |c| > 1 && Parent(c) == x
    ensures Below(c, x)
  {
  }

  /** A recursive rule as sections: itself, or one for each dataset on the way down to
      what must stand alone and a recursive one for each subtree beside that way. */
  function Expand(p: Policy, x: Name, rule: Rule): seq<Section>
    decreases |p.Lower(x)|, 1, 0
  {
    if x in p.drained then [Section(x, DRAIN)]
    else if x in p.overrides || !p.HasBelow(x) then [Section(x, rule)]
    else [Section(x, Rule(rule.template, false))] + ExpandEach(p, x, p.Children(x), rule)
  }

  function ExpandEach(p: Policy, x: Name, kids: seq<Name>, rule: Rule): seq<Section>
    requires forall c :: c in kids ==> c in p.listed && |c| > 1 && Parent(c) == x
    decreases |p.Lower(x)|, 0, |kids|
  {
    if kids == [] then []
    else
      var c := kids[0];
      assert c in kids;
      ChildBelow(c, x);
      LowerShrinks(p, c, x);
      (if c in p.rules && c !in p.drained then [] else Expand(p, c, rule)) + ExpandEach(p, x, kids[1..], rule)
  }

  /** Below `x` only overrides have rules. */
  ghost predicate Quiet(p: Policy, x: Name) {
    x in p.listed && !p.Covered(x) && forall b :: b in p.rules && Below(b, x) ==> b in p.overrides
  }

  /** The section a dataset gets below a rule. */
  function SectionOf(p: Policy, x: Name, rule: Rule): Section {
    Section(x, if x in p.drained then DRAIN else if p.Splits(x) then Rule(rule.template, false) else rule)
  }

  /** Whether it gets one: the way down to it was split, and no other rule or drained
      subtree has it. */
  predicate IsPart(p: Policy, top: Name, x: Name) {
    && Under(x, top) && !p.Covered(x)
    && (x == top || (x in p.listed && p.Splits(Parent(x)) && (x !in p.rules || x in p.drained)))
  }

  predicate Expanded(p: Policy, c: Name) {
    c !in p.rules || c in p.drained
  }

  /** Between a dataset and one below it is a child of the first. */
  lemma {:induction false} ChildToward(p: Policy, x: Name, y: Name) returns (c: Name)
    requires p.Valid() && x in p.listed && y in p.listed && Below(y, x)
    ensures c in p.listed && |c| > 1 && Parent(c) == x && Under(y, c)
    decreases |y|
  {
    BelowIsLonger(y, x);
    assert |x| >= 1;
    if Parent(y) == x {
      c := y;
    } else {
      ParentBetween(y, x);
      c := ChildToward(p, x, Parent(y));
    }
  }

  lemma QuietChild(p: Policy, x: Name, c: Name)
    requires p.Valid() && Quiet(p, x) && x !in p.drained && c in p.listed && |c| > 1 && Parent(c) == x
    ensures Quiet(p, c)
  {
    ChildBelow(c, x);
    forall t | t in p.drained && Below(c, t)
      ensures false
    {
      ParentBetween(c, t);
    }
    forall b | b in p.rules && Below(b, c)
      ensures Below(b, x)
    {
      BelowIsLonger(b, c);
      BelowIsLonger(c, x);
    }
  }

  /** The parts below a dataset that is split are those below its children. */
  lemma PartsDown(p: Policy, x: Name, y: Name) returns (c: Name)
    requires p.Valid() && Quiet(p, x) && p.Splits(x) && IsPart(p, x, y) && y != x
    ensures c in p.listed && |c| > 1 && Parent(c) == x && Expanded(p, c) && IsPart(p, c, y)
  {
    c := ChildToward(p, x, y);
    if y != c {
      ChildBelow(c, x);
      WayIsOpen(p, x, c, y);
    }
  }

  lemma WayIsOpen(p: Policy, x: Name, c: Name, y: Name)
    requires p.Valid() && Quiet(p, x) && Below(c, x) && y in p.listed && Below(y, c) && !p.Covered(y)
    ensures c !in p.drained && c !in p.rules
  {
  }

  lemma PartsUp(p: Policy, x: Name, c: Name, y: Name)
    requires p.Splits(x) && c in p.listed && |c| > 1 && Parent(c) == x && Expanded(p, c) && IsPart(p, c, y)
    ensures IsPart(p, x, y) && y != x
  {
    ChildBelow(c, x);
    BelowIsLonger(c, x);
  }

  lemma {:induction false} ExpandHas(p: Policy, x: Name, rule: Rule, s: Section)
    requires p.Valid() && Quiet(p, x)
    ensures s in Expand(p, x, rule) <==> IsPart(p, x, s.name) && s == SectionOf(p, s.name, rule)
    decreases |p.Lower(x)|, 1, 0
  {
    if p.Splits(x) {
      ExpandEachHas(p, x, p.Children(x), rule, s);
      if IsPart(p, x, s.name) && s.name != x {
        var c := PartsDown(p, x, s.name);
        assert c in p.Children(x);
      }
      forall c | c in p.Children(x) && Expanded(p, c) && IsPart(p, c, s.name)
        ensures IsPart(p, x, s.name) && s.name != x
      {
        PartsUp(p, x, c, s.name);
      }
    } else {
      NothingBelowWhole(p, x, s.name);
    }
  }

  lemma NothingBelowWhole(p: Policy, x: Name, y: Name)
    requires p.Valid() && Quiet(p, x) && !p.Splits(x)
    ensures IsPart(p, x, y) ==> y == x
  {
    if IsPart(p, x, y) && y != x {
      ParentBetween(y, x);
      HasBelowUp(p, x, Parent(y));
    }
  }

  lemma HasBelowUp(p: Policy, x: Name, y: Name)
    requires Under(y, x) && p.HasBelow(y)
    ensures p.HasBelow(x)
  {
    var t :| t in p.drained + p.overrides && Below(t, y);
    BelowIsLonger(t, y);
    assert Below(t, x);
  }

  lemma {:induction false} ExpandEachHas(p: Policy, x: Name, kids: seq<Name>, rule: Rule, s: Section)
    requires p.Valid() && Quiet(p, x) && x !in p.drained
    requires forall c :: c in kids ==> c in p.listed && |c| > 1 && Parent(c) == x
    ensures s in ExpandEach(p, x, kids, rule) <==>
      (exists c :: c in kids && Expanded(p, c) && IsPart(p, c, s.name)) && s == SectionOf(p, s.name, rule)
    decreases |p.Lower(x)|, 0, |kids|
  {
    if kids != [] {
      var c := kids[0];
      assert c in kids;
      ChildBelow(c, x);
      LowerShrinks(p, c, x);
      QuietChild(p, x, c);
      ExpandHas(p, c, rule, s);
      ExpandEachHas(p, x, kids[1..], rule, s);
      assert kids == [c] + kids[1..];
    }
  }

  // ---- no two sections for one name ---------------------------------------------------

  ghost predicate UniqueNames(sections: seq<Section>) {
    forall i, j :: 0 <= i < j < |sections| ==> sections[i].name != sections[j].name
  }

  lemma JoinUnique(a: seq<Section>, b: seq<Section>)
    requires UniqueNames(a) && UniqueNames(b) && forall s, t :: s in a && t in b ==> s.name != t.name
    ensures UniqueNames(a + b)
  {
    var all := a + b;
    forall i, j | 0 <= i < j < |all|
      ensures all[i].name != all[j].name
    {
      if i < |a| <= j {
        assert all[i] in a && all[j] in b;
      }
    }
  }

  lemma {:induction false} ExpandUnique(p: Policy, x: Name, rule: Rule)
    requires p.Valid() && Quiet(p, x) && AllDifferent(p.listed)
    ensures UniqueNames(Expand(p, x, rule))
    decreases |p.Lower(x)|, 1, 0
  {
    if p.Splits(x) {
      var first, rest := [Section(x, Rule(rule.template, false))], ExpandEach(p, x, p.Children(x), rule);
      ExpandEachUnique(p, x, p.Children(x), rule);
      forall s | s in rest
        ensures s.name != x
      {
        ExpandEachHas(p, x, p.Children(x), rule, s);
        var c :| c in p.Children(x) && Expanded(p, c) && IsPart(p, c, s.name);
        PartsUp(p, x, c, s.name);
      }
      JoinUnique(first, rest);
    }
  }

  lemma SameChild(c: Name, d: Name, y: Name)
    requires Under(y, c) && Under(y, d) && |c| == |d|
    ensures c == d
  {
  }

  lemma {:induction false} ExpandEachUnique(p: Policy, x: Name, kids: seq<Name>, rule: Rule)
    requires p.Valid() && Quiet(p, x) && x !in p.drained && AllDifferent(p.listed) && AllDifferent(kids)
    requires forall c :: c in kids ==> c in p.listed && |c| > 1 && Parent(c) == x
    ensures UniqueNames(ExpandEach(p, x, kids, rule))
    decreases |p.Lower(x)|, 0, |kids|
  {
    if kids != [] {
      var c, rest := kids[0], kids[1..];
      assert c in kids;
      ChildBelow(c, x);
      LowerShrinks(p, c, x);
      QuietChild(p, x, c);
      ExpandUnique(p, c, rule);
      ExpandEachUnique(p, x, rest, rule);
      if Expanded(p, c) {
        forall s, t | s in Expand(p, c, rule) && t in ExpandEach(p, x, rest, rule)
          ensures s.name != t.name
        {
          ExpandHas(p, c, rule, s);
          ExpandEachHas(p, x, rest, rule, t);
          var d :| d in rest && Expanded(p, d) && IsPart(p, d, t.name);
          assert d in kids && |c| == |d| && c != d;
          if s.name == t.name {
            SameChild(c, d, s.name);
          }
        }
        JoinUnique(Expand(p, c, rule), ExpandEach(p, x, rest, rule));
      }
    }
  }

  // ---- the whole policy -------------------------------------------------------------

  /** What one rule becomes. */
  function Part(p: Policy, s: Section): seq<Section> {
    if p.Inside(s.name) && s.name !in p.drained then []
    else if s.rule.recursive || s.name in p.drained then Expand(p, s.name, s.rule)
    else [s]
  }

  function Parts(p: Policy, rules: seq<Section>): seq<Section> {
    if rules == [] then [] else Parts(p, rules[..|rules| - 1]) + Part(p, rules[|rules| - 1])
  }

  /** Below a rule that is not drained, its template, at the rule's own name or at one
      without a rule; recursive only where nothing below stands alone. */
  ghost predicate Gives(p: Policy, n: Name, s: Section) {
    && n in p.rules && !p.Inside(s.name) && s.rule.template == p.rules[n].template
    && (s.name == n || (p.rules[n].recursive && Below(s.name, n) && s.name in p.listed && s.name !in p.rules))
    && (s.rule.recursive ==> p.rules[n].recursive && !p.HasBelow(s.name))
    && (!s.rule.recursive ==> !p.rules[n].recursive || p.Splits(s.name))
    && (s.name != n ==> p.Splits(Parent(s.name)))
  }

  lemma QuietRule(p: Policy, n: Name)
    requires p.Valid() && n in p.rules && p.rules[n].recursive && !p.Covered(n)
    ensures Quiet(p, n)
  {
  }

  lemma NotCovered(p: Policy, x: Name)
    requires !p.Covered(x)
    ensures p.Inside(x) <==> x in p.drained
  {
    if x in p.drained {
      assert Under(x, x);
    }
  }

  lemma DrainedNotCovered(p: Policy, x: Name)
    requires p.Antichain() && (x in p.drained || !p.Inside(x))
    ensures !p.Covered(x)
  {
  }

  /** Exactly which sections a rule becomes. */
  lemma PartHas(p: Policy, n: Name, s: Section)
    requires p.Valid() && p.Antichain() && n in p.rules
    ensures s in Part(p, Section(n, p.rules[n])) <==>
      || Gives(p, n, s)
      || (s.name in p.drained && s.rule == DRAIN
          && (s.name == n || (p.rules[n].recursive && IsPart(p, n, s.name) && n !in p.drained)))
  {
    InsideBelow(p, n, s.name);
    if !p.Inside(n) {
      DrainedNotCovered(p, n);
      assert n !in p.drained by { assert Under(n, n); }
      if p.rules[n].recursive {
        QuietRule(p, n);
        ExpandHas(p, n, p.rules[n], s);
        PartIsGiven(p, n, s);
      }
    } else if n !in p.drained {
      CoveredBelow(p, n, s.name);
    }
  }

  lemma InsideBelow(p: Policy, n: Name, y: Name)
    ensures p.Inside(n) && Under(y, n) ==> p.Inside(y)
  {
    if p.Inside(n) && Under(y, n) {
      var t :| t in p.drained && Under(n, t);
      assert Under(y, t);
    }
  }

  lemma CoveredBelow(p: Policy, n: Name, y: Name)
    requires p.Inside(n) && n !in p.drained
    ensures Under(y, n) ==> p.Covered(y)
  {
    var t :| t in p.drained && Under(n, t);
    BelowIsLonger(n, t);
    assert Under(y, n) ==> Below(y, t);
  }

  lemma PartIsGiven(p: Policy, n: Name, s: Section)
    requires p.Valid() && Quiet(p, n) && n in p.rules && p.rules[n].recursive && n !in p.drained
    ensures IsPart(p, n, s.name) && s == SectionOf(p, s.name, p.rules[n]) <==>
      Gives(p, n, s) || (s.name in p.drained && s.rule == DRAIN && IsPart(p, n, s.name))
  {
    if IsPart(p, n, s.name) {
      NotCovered(p, s.name);
    }
    if Gives(p, n, s) {
      assert !p.Covered(s.name);
      assert s.name !in p.drained by {
        assert Under(s.name, s.name);
      }
    }
  }

  // ---- what sanoid makes of the sections ----------------------------------------------

  /** The sections of a policy. */
  ghost predicate IsSection(p: Policy, s: Section) {
    (s.name in p.drained && s.rule == DRAIN) || exists n :: Gives(p, n, s)
  }

  /** A section writes its own dataset's configuration; a recursive one every
      dataset's below it too. */
  predicate Writes(s: Section, x: Name) {
    x == s.name || (s.rule.recursive && Under(x, s.name))
  }

  /** The configuration of a dataset once the sections are read in this order: a later
      one overwrites an earlier one. */
  function Read(order: seq<Section>, x: Name): Option<Template> {
    if order == [] then None
    else if Writes(order[|order| - 1], x) then Some(order[|order| - 1].rule.template)
    else Read(order[..|order| - 1], x)
  }

  /** A recursive section has no other section below it. */
  lemma NoneBelow(p: Policy, s: Section, t: Section)
    requires p.Valid() && p.Antichain() && IsSection(p, s) && IsSection(p, t) && s.rule.recursive
    ensures !Below(t.name, s.name)
  {
    if Below(t.name, s.name) {
      if s.name in p.drained && s.rule == DRAIN {
        assert p.Inside(t.name);
      } else {
        var n :| Gives(p, n, s);
        NoneAlone(p, s.name);
        var m :| Gives(p, m, t);
        NoneGivenBelow(p, n, s, m, t);
      }
    }
  }

  lemma NoneAlone(p: Policy, x: Name)
    requires !p.HasBelow(x)
    ensures forall t :: Below(t, x) ==> t !in p.drained && t !in p.overrides
  {
    forall t | t in p.drained + p.overrides
      ensures !Below(t, x)
    {
    }
  }

  lemma NoneGivenBelow(p: Policy, n: Name, s: Section, m: Name, t: Section)
    requires p.Valid() && Gives(p, n, s) && Gives(p, m, t) && s.rule.recursive
    ensures !Below(t.name, s.name)
  {
    NoneAlone(p, s.name);
    if Below(t.name, s.name) {
      BelowIsLonger(t.name, s.name);
      assert Below(t.name, n);
      assert t.name != m;
      ParentBetween(t.name, s.name);
      HasBelowUp(p, s.name, Parent(t.name));
    }
  }

  lemma SameName(p: Policy, n: Name, s: Section, m: Name, t: Section)
    requires p.Valid() && Gives(p, n, s) && Gives(p, m, t) && s.name == t.name
    ensures s == t
  {
    if s.name != n && s.name != m {
      AboveSame(s.name, n, m);
      assert IsRecursive(p.rules, n) && IsRecursive(p.rules, m);
      assert !Below(n, m) && !Below(m, n);
    }
  }

  /** Every dataset is written by at most one section. */
  lemma OneWriter(p: Policy, s: Section, t: Section, x: Name)
    requires p.Valid() && p.Antichain() && IsSection(p, s) && IsSection(p, t) && Writes(s, x) && Writes(t, x)
    ensures s == t
  {
    RecursiveAlone(p, s, t);
    RecursiveAlone(p, t, s);
    AboveSame(x, s.name, t.name);
    assert Below(t.name, s.name) ==> x != s.name by {
      if Below(t.name, s.name) { BelowIsLonger(t.name, s.name); }
    }
    assert Below(s.name, t.name) ==> x != t.name by {
      if Below(s.name, t.name) { BelowIsLonger(s.name, t.name); }
    }
    assert s.name == t.name;
    SameSection(p, s, t);
  }

  lemma RecursiveAlone(p: Policy, s: Section, t: Section)
    requires p.Valid() && p.Antichain() && IsSection(p, s) && IsSection(p, t)
    ensures s.rule.recursive ==> !Below(t.name, s.name)
  {
    if s.rule.recursive {
      NoneBelow(p, s, t);
    }
  }

  lemma SameSection(p: Policy, s: Section, t: Section)
    requires p.Valid() && IsSection(p, s) && IsSection(p, t) && s.name == t.name
    ensures s == t
  {
    if s.name in p.drained {
      assert Under(s.name, s.name);
      assert p.Inside(s.name);
    } else {
      var n :| Gives(p, n, s);
      var m :| Gives(p, m, t);
      SameName(p, n, s, m, t);
    }
  }

  // ---- the meaning is kept --------------------------------------------------------------

  /** The policy setup works with. */
  ghost predicate IsPolicy(p: Policy, kinds: Kinds, ubuntu: string) {
    && IsSystem(kinds) && p.Antichain()
    && (forall x :: x in p.listed <==> x in kinds)
    && p.rules == Pruned(Classified(kinds, ubuntu)) && p.overrides == Overrides(Classified(kinds, ubuntu))
  }

  lemma PolicyValid(p: Policy, kinds: Kinds, ubuntu: string)
    requires IsPolicy(p, kinds, ubuntu)
    ensures p.Valid()
  {
    PrunedApart(kinds, ubuntu);
    assert (set x | x in p.listed) == kinds.Keys;
  }

  /** What a dataset is to get: drained inside an excluded subtree, elsewhere what its
      nearest rule says. */
  function Wanted(p: Policy, rules: Rules, x: Name): Option<Template> {
    if p.Inside(x) then Some(Drained) else Meant(rules, x)
  }

  lemma WritesWanted(p: Policy, kinds: Kinds, ubuntu: string, s: Section, x: Name)
    requires IsPolicy(p, kinds, ubuntu) && IsSection(p, s) && x in kinds && Writes(s, x)
    ensures Some(s.rule.template) == Wanted(p, Classified(kinds, ubuntu), x)
  {
    PolicyValid(p, kinds, ubuntu);
    if s.name in p.drained && s.rule == DRAIN {
      assert p.Inside(x);
    } else {
      var n :| Gives(p, n, s);
      if x == s.name {
        if x != n {
          KeptSays(kinds, ubuntu, x);
          assert IsRecursive(p.rules, n);
        }
      } else {
        BelowWhole(p, n, s, x);
        KeptSays(kinds, ubuntu, x);
        assert IsRecursive(p.rules, n);
      }
    }
  }

  /** Below a recursive section nothing is drained and nothing has a rule. */
  lemma BelowWhole(p: Policy, n: Name, s: Section, x: Name)
    requires p.Valid() && Gives(p, n, s) && s.rule.recursive && Below(x, s.name)
    ensures !p.Inside(x) && x !in p.rules && Below(x, n)
  {
    BelowIsLonger(x, s.name);
    NoneAlone(p, s.name);
    forall t | t in p.drained
      ensures !Under(x, t)
    {
      assert !Under(s.name, t);
      assert Under(x, t) ==> Under(t, s.name) || Under(s.name, t);
    }
    assert Below(x, n);
    assert IsRecursive(p.rules, n) && x !in p.overrides;
  }

  /** Below a recursive rule everything outside the drained subtrees gets its template,
      unless it has a rule of its own. */
  lemma {:induction false} GivenBelow(p: Policy, r: Name, x: Name) returns (s: Section)
    requires p.Valid() && IsRecursive(p.rules, r) && x in p.listed && Under(x, r) && !p.Inside(x)
    requires x == r || x !in p.rules
    ensures Gives(p, r, s) && Writes(s, x)
    decreases |x|
  {
    var rule := p.rules[r];
    assert x !in p.drained by { assert Under(x, x); }
    assert x !in p.overrides;
    var own := Section(x, if p.HasBelow(x) then Rule(rule.template, false) else rule);
    if x == r {
      s := own;
    } else {
      var up := Parent(x);
      ParentBetween(x, r);
      BelowIsLonger(x, r);
      InsideBelow(p, up, x);
      assert up != r ==> up !in p.rules;
      s := GivenBelow(p, r, up);
      if s.rule.recursive {
        assert Writes(s, x);
      } else {
        assert s.name == up;
        s := own;
      }
    }
  }

  lemma SomeWrites(p: Policy, kinds: Kinds, ubuntu: string, x: Name) returns (s: Section)
    requires IsPolicy(p, kinds, ubuntu) && x in kinds && Wanted(p, Classified(kinds, ubuntu), x).Some?
    ensures IsSection(p, s) && Writes(s, x)
  {
    PolicyValid(p, kinds, ubuntu);
    if p.Inside(x) {
      var t :| t in p.drained && Under(x, t);
      s := Section(t, DRAIN);
    } else if x in p.rules && !p.rules[x].recursive {
      s := Section(x, p.rules[x]);
      assert Gives(p, x, s);
    } else {
      var r := x;
      if x !in p.rules {
        KeptSays(kinds, ubuntu, x);
        r :| IsRecursive(p.rules, r) && Below(x, r);
      }
      s := GivenBelow(p, r, x);
    }
  }

  ghost predicate AreSections(p: Policy, out: seq<Section>) {
    forall s :: s in out <==> IsSection(p, s)
  }

  lemma {:induction false} ReadLast(order: seq<Section>, x: Name, want: Template)
    requires forall s :: s in order && Writes(s, x) ==> s.rule.template == want
    ensures Read(order, x) == if exists s :: s in order && Writes(s, x) then Some(want) else None
  {
    if order != [] {
      var n := |order| - 1;
      SplitLast(order);
      ReadLast(order[..n], x, want);
    }
  }

  /** In whatever order sanoid reads them, the sections give each dataset what it is
      meant to have. */
  lemma MeaningKept(p: Policy, kinds: Kinds, ubuntu: string, out: seq<Section>, order: seq<Section>, x: Name)
    requires IsPolicy(p, kinds, ubuntu) && AreSections(p, out) && multiset(order) == multiset(out) && x in kinds
    ensures Read(order, x) == Wanted(p, Classified(kinds, ubuntu), x)
  {
    var want := Wanted(p, Classified(kinds, ubuntu), x);
    forall s | s in order && Writes(s, x)
      ensures Some(s.rule.template) == want
    {
      assert s in multiset(order);
      WritesWanted(p, kinds, ubuntu, s, x);
    }
    if want.Some? {
      var s := SomeWrites(p, kinds, ubuntu, x);
      assert s in multiset(out);
      ReadLast(order, x, want.value);
    } else {
      ReadLast(order, x, Minimal);
    }
  }

  /** The configuration sanoid ends with, whatever order it reads the file in: drained
      inside an excluded subtree, elsewhere the template intended for the dataset. */
  lemma ConfigurationIs(p: Policy, kinds: Kinds, ubuntu: string, out: seq<Section>, order: seq<Section>, x: Name)
    requires IsPolicy(p, kinds, ubuntu) && AreSections(p, out) && multiset(order) == multiset(out) && x in kinds
    ensures Read(order, x) == if p.Inside(x) then Some(Drained) else Intended(kinds, ubuntu, x)
  {
    MeaningKept(p, kinds, ubuntu, out, order, x);
    EveryDatasetMeant(kinds, ubuntu, x);
  }
}
