/** Comparing sanoid.conf with the rules, and setting it up twice. */
module SanoidSetup {
  import opened ConfText
  import opened Replication
  import opened SanoidPolicy
  import opened SanoidConf
  import opened SanoidPrint

  datatype Change = Change(name: string, before: Settings, after: Settings)

  /** What regenerating the file would change, and what it leaves to the user. */
  datatype Diff = Diff(added: Conf, removed: Conf, changed: seq<Change>, manual: Conf, templates: seq<Change>) {
    predicate NothingChanges() {
      added == [] && removed == [] && changed == [] && templates == []
    }
  }

  function AsMap(s: Settings): map<string, string> {
    if s == [] then map[] else AsMap(s[..|s| - 1])[s[|s| - 1].0 := s[|s| - 1].1]
  }

  // ---- the comparison ---------------------------------------------------------------

  function ManualOf(c: Conf): Conf {
    if c == [] then []
    else ManualOf(c[..|c| - 1]) + if IsManual(c[|c| - 1].0) then [c[|c| - 1]] else []
  }

  predicate IsRemoved(planned: Conf, name: string) {
    IsManaged(name) && !Has(planned, name)
  }

  predicate IsChanged(planned: Conf, name: string, s: Settings) {
    IsManaged(name) && Has(planned, name) && AsMap(Get(planned, name)) != AsMap(s)
  }

  function RemovedOf(c: Conf, planned: Conf): Conf {
    if c == [] then []
    else RemovedOf(c[..|c| - 1], planned) + if IsRemoved(planned, c[|c| - 1].0) then [c[|c| - 1]] else []
  }

  function ChangedOf(c: Conf, planned: Conf): seq<Change> {
    if c == [] then []
    else
      var (name, s) := c[|c| - 1];
      ChangedOf(c[..|c| - 1], planned) +
      if IsChanged(planned, name, s) then [Change(name, s, Get(planned, name))] else []
  }

  function AddedOf(planned: Conf, c: Conf): Conf {
    if planned == [] then []
    else
      var last := planned[|planned| - 1];
      AddedOf(planned[..|planned| - 1], c) + if Has(c, last.0) then [] else [last]
  }

  function TemplatesOf(c: Conf): seq<Change> {
    var now := if Has(c, TEMPLATE_MINIMAL) then Get(c, TEMPLATE_MINIMAL) else [];
    if AsMap(now) != AsMap(MINIMAL_SETTINGS) then [Change(TEMPLATE_MINIMAL, now, MINIMAL_SETTINGS)] else []
  }

  function DiffOf(c: Conf, planned: Conf): Diff {
    Diff(AddedOf(planned, c), RemovedOf(c, planned), ChangedOf(c, planned), ManualOf(c), TemplatesOf(c))
  }

  method PlanMap(rules: seq<Planned>) returns (planned: Conf)
    ensures planned == PlannedMap(rules)
  {
    planned := [];
    for i := 0 to |rules|
      invariant planned == PlannedMap(rules[..i])
    {
      planned := Put(planned, rules[i].name, SettingsOf(rules[i].rule));
      assert rules[..i + 1][..i] == rules[..i];
    }
    assert rules[..|rules|] == rules;
  }

  lemma NextSection(c: Conf, planned: Conf, i: nat)
    requires i < |c|
    ensures ManualOf(c[..i + 1]) == ManualOf(c[..i]) + if IsManual(c[i].0) then [c[i]] else []
    ensures RemovedOf(c[..i + 1], planned) ==
      RemovedOf(c[..i], planned) + if IsRemoved(planned, c[i].0) then [c[i]] else []
    ensures ChangedOf(c[..i + 1], planned) == ChangedOf(c[..i], planned) +
      if IsChanged(planned, c[i].0, c[i].1) then [Change(c[i].0, c[i].1, Get(planned, c[i].0))] else []
  {
    assert c[..i + 1][..i] == c[..i] && c[..i + 1][i] == c[i];
  }

  method Inspect(c: Conf, planned: Conf) returns (removed: Conf, changed: seq<Change>, manual: Conf)
    ensures manual == ManualOf(c) && removed == RemovedOf(c, planned) && changed == ChangedOf(c, planned)
  {
    removed, changed, manual := [], [], [];
    for i := 0 to |c|
      invariant manual == ManualOf(c[..i]) && removed == RemovedOf(c[..i], planned)
      invariant changed == ChangedOf(c[..i], planned)
    {
      NextSection(c, planned, i);
      var (name, s) := c[i];
      if !IsManaged(name) {
        if !IsTemplate(name) {
          manual := manual + [c[i]];
        }
      } else if !Has(planned, name) {
        removed := removed + [c[i]];
      } else if AsMap(Get(planned, name)) != AsMap(s) {
        changed := changed + [Change(name, s, Get(planned, name))];
      }
    }
    assert c[..|c|] == c;
  }

  /** The file's sections against the planned rules. */
  method DiffRules(c: Conf, rules: seq<Planned>) returns (d: Diff)
    ensures d == DiffOf(c, PlannedMap(rules))
  {
    var planned := PlanMap(rules);
    var removed, changed, manual := Inspect(c, planned);
    var added: Conf := [];
    for i := 0 to |planned|
      invariant added == AddedOf(planned[..i], c)
    {
      assert planned[..i + 1][..i] == planned[..i];
      if !Has(c, planned[i].0) {
        added := added + [planned[i]];
      }
    }
    assert planned[..|planned|] == planned;
    d := Diff(added, removed, changed, manual, TemplatesOf(c));
  }

  // ---- what the comparison says -------------------------------------------------------

  lemma {:induction false} RemovedEmpty(c: Conf, planned: Conf)
    ensures RemovedOf(c, planned) == [] <==> forall i :: 0 <= i < |c| ==> !IsRemoved(planned, c[i].0)
  {
    if c != [] {
      RemovedEmpty(c[..|c| - 1], planned);
    }
  }

  lemma {:induction false} ChangedEmpty(c: Conf, planned: Conf)
    ensures ChangedOf(c, planned) == [] <==> forall i :: 0 <= i < |c| ==> !IsChanged(planned, c[i].0, c[i].1)
  {
    if c != [] {
      ChangedEmpty(c[..|c| - 1], planned);
    }
  }

  lemma {:induction false} AddedEmpty(planned: Conf, c: Conf)
    ensures AddedOf(planned, c) == [] <==> forall i :: 0 <= i < |planned| ==> Has(c, planned[i].0)
  {
    if planned != [] {
      AddedEmpty(planned[..|planned| - 1], c);
    }
  }

  lemma {:induction false} RemovedHas(c: Conf, planned: Conf, e: (string, Settings))
    ensures e in RemovedOf(c, planned) <==> e in c && IsManaged(e.0) && !Has(planned, e.0)
  {
    if c != [] {
      RemovedHas(c[..|c| - 1], planned, e);
      SplitLast(c);
    }
  }

  lemma {:induction false} ChangedHas(c: Conf, planned: Conf, change: Change)
    ensures change in ChangedOf(c, planned) <==>
      && (change.name, change.before) in c && IsManaged(change.name) && Has(planned, change.name)
      && change.after == Get(planned, change.name) && AsMap(change.after) != AsMap(change.before)
  {
    if c != [] {
      var (name, s) := c[|c| - 1];
      ChangedHas(c[..|c| - 1], planned, change);
      SplitLast(c);
      assert c[|c| - 1] == (change.name, change.before) <==> change.name == name && change.before == s;
      assert ChangedOf(c, planned) == ChangedOf(c[..|c| - 1], planned) +
        if IsChanged(planned, name, s) then [Change(name, s, Get(planned, name))] else [];
    }
  }

  lemma {:induction false} AddedHas(planned: Conf, c: Conf, e: (string, Settings))
    ensures e in AddedOf(planned, c) <==> e in planned && !Has(c, e.0)
  {
    if planned != [] {
      AddedHas(planned[..|planned| - 1], c, e);
      SplitLast(planned);
    }
  }

  lemma {:induction false} ManualIs(c: Conf, e: (string, Settings))
    ensures e in ManualOf(c) <==> e in c && !IsManaged(e.0) && !IsTemplate(e.0)
  {
    if c != [] {
      ManualIs(c[..|c| - 1], e);
      SplitLast(c);
    }
  }

  /** What each of the lists holds: planned sections the file lacks; managed ones that are not
      planned; planned ones with other settings, before and after; what the user wrote; and the
      minimal template where it is not as planned. */
  lemma DiffSays(c: Conf, planned: Conf, e: (string, Settings), change: Change)
    ensures var d := DiffOf(c, planned);
      && (e in d.added <==> e in planned && !Has(c, e.0))
      && (e in d.removed <==> e in c && IsManaged(e.0) && !Has(planned, e.0))
      && (e in d.manual <==> e in c && !IsManaged(e.0) && !IsTemplate(e.0))
      && (change in d.changed <==>
            && (change.name, change.before) in c && IsManaged(change.name) && Has(planned, change.name)
            && change.after == Get(planned, change.name) && AsMap(change.after) != AsMap(change.before))
      && (change in d.templates <==>
            && change.name == "template_minimal" && change.after == MINIMAL_SETTINGS
            && change.before == (if Has(c, TEMPLATE_MINIMAL) then Get(c, TEMPLATE_MINIMAL) else [])
            && AsMap(change.after) != AsMap(change.before))
  {
    AddedHas(planned, c, e);
    RemovedHas(c, planned, e);
    ManualIs(c, e);
    ChangedHas(c, planned, change);
  }

  lemma {:induction false} ManualAll(c: Conf)
    requires forall i :: 0 <= i < |c| ==> IsManual(c[i].0)
    ensures ManualOf(c) == c
  {
    if c != [] {
      ManualAll(c[..|c| - 1]);
      SplitLast(c);
    }
  }

  lemma {:induction false} ManualNone(c: Conf)
    requires forall i :: 0 <= i < |c| ==> !IsManual(c[i].0)
    ensures ManualOf(c) == []
  {
    if c != [] {
      ManualNone(c[..|c| - 1]);
    }
  }

  lemma {:induction false} ManualJoin(a: Conf, b: Conf)
    ensures ManualOf(a + b) == ManualOf(a) + ManualOf(b)
  {
    if b == [] {
      assert a + b == a;
    } else {
      var n := |b| - 1;
      assert (a + b)[..|a| + n] == a + b[..n];
      ManualJoin(a, b[..n]);
    }
  }

  lemma {:induction false} ManualGood(c: Conf)
    requires GoodConf(c)
    ensures AllManual(ManualOf(c)) && forall i :: 0 <= i < |ManualOf(c)| ==> ManualOf(c)[i] in c
  {
    if c != [] {
      var n := |c| - 1;
      ManualGood(c[..n]);
      var rest := ManualOf(c[..n]);
      forall i | 0 <= i < |rest|
        ensures rest[i] in c && rest[i].0 != c[n].0
      {
        var j :| 0 <= j < n && c[..n][j] == rest[i];
        assert c[j] == rest[i];
      }
    }
  }

  /** Nothing changes exactly when the file's managed sections are the planned ones, with
      the same settings, and its minimal template is as setup writes it. */
  lemma NothingChangesExactly(c: Conf, planned: Conf)
    requires UniqueKeys(c) && UniqueKeys(planned) && forall i :: 0 <= i < |planned| ==> IsManaged(planned[i].0)
    ensures DiffOf(c, planned).NothingChanges() <==>
      && (forall name :: IsManaged(name) ==> (Has(c, name) <==> Has(planned, name)))
      && (forall name :: IsManaged(name) && Has(c, name) && Has(planned, name) ==>
            AsMap(Get(c, name)) == AsMap(Get(planned, name)))
      && Has(c, TEMPLATE_MINIMAL) && AsMap(Get(c, TEMPLATE_MINIMAL)) == AsMap(MINIMAL_SETTINGS)
  {
    RemovedEmpty(c, planned);
    ChangedEmpty(c, planned);
    AddedEmpty(planned, c);
    forall i | 0 <= i < |c|
      ensures Has(c, c[i].0) && Get(c, c[i].0) == c[i].1
    {
      GetAt(c, i);
    }
    forall name | Has(c, name)
      ensures exists i :: 0 <= i < |c| && c[i].0 == name && c[i].1 == Get(c, name)
    {
      var i :| 0 <= i < |c| && c[i].0 == name;
      GetAt(c, i);
    }
    MinimalNotEmpty();
  }

  lemma MinimalNotEmpty()
    ensures AsMap([]) != AsMap(MINIMAL_SETTINGS)
  {
    assert "autosnap" in AsMap(MINIMAL_SETTINGS);
  }

  // ---- setting up twice ---------------------------------------------------------------

  lemma {:induction false} PlannedGood(rules: seq<Planned>)
    requires GoodRules(rules)
    ensures UniqueKeys(PlannedMap(rules)) && forall i :: 0 <= i < |PlannedMap(rules)| ==>
      IsManaged(PlannedMap(rules)[i].0)
  {
    PlannedUnique(rules);
    var planned := PlannedMap(rules);
    forall i | 0 <= i < |planned|
      ensures IsManaged(planned[i].0)
    {
      assert Has(planned, planned[i].0);
      PlannedManaged(rules, planned[i].0);
    }
  }

  lemma {:induction false} PlannedUnique(rules: seq<Planned>)
    ensures UniqueKeys(PlannedMap(rules))
  {
    if rules != [] {
      var last := rules[|rules| - 1];
      PlannedUnique(rules[..|rules| - 1]);
      PutUnique(PlannedMap(rules[..|rules| - 1]), last.name, SettingsOf(last.rule));
    }
  }

  lemma RegeneratedUnique(planned: Conf, manual: Conf)
    requires UniqueKeys(planned) && (forall i :: 0 <= i < |planned| ==> IsManaged(planned[i].0)) && AllManual(manual)
    ensures UniqueKeys(planned + manual + TEMPLATES)
  {
    TemplatesGood();
    TemplateNames();
  }

  /** A section of a regenerated file: the planned ones, and no other managed one. */
  lemma RegeneratedHas(planned: Conf, manual: Conf, name: string)
    requires (forall i :: 0 <= i < |planned| ==> IsManaged(planned[i].0)) && AllManual(manual) && IsManaged(name)
    ensures Has(planned + manual + TEMPLATES, name) <==> Has(planned, name)
    ensures Has(planned, name) ==> Get(planned + manual + TEMPLATES, name) == Get(planned, name)
  {
    HasJoin(planned, manual);
    HasJoin(planned + manual, TEMPLATES);
    TemplateNames();
    if Has(planned, name) {
      GetJoin(planned, manual, name);
      GetJoin(planned + manual, TEMPLATES, name);
    }
  }

  lemma RegeneratedTemplate(planned: Conf, manual: Conf)
    requires (forall i :: 0 <= i < |planned| ==> IsManaged(planned[i].0)) && AllManual(manual)
    ensures Has(planned + manual + TEMPLATES, TEMPLATE_MINIMAL)
    ensures Get(planned + manual + TEMPLATES, TEMPLATE_MINIMAL) == MINIMAL_SETTINGS
  {
    HasJoin(planned, manual);
    TemplateNames();
    TemplatesGood();
    assert TEMPLATES[1].0 == TEMPLATE_MINIMAL;
    GetAt(TEMPLATES, 1);
    GetJoin(planned + manual, TEMPLATES, TEMPLATE_MINIMAL);
  }

  lemma RegeneratedManual(planned: Conf, manual: Conf)
    requires (forall i :: 0 <= i < |planned| ==> IsManaged(planned[i].0)) && AllManual(manual)
    ensures ManualOf(planned + manual + TEMPLATES) == manual
  {
    ManualJoin(planned + manual, TEMPLATES);
    ManualJoin(planned, manual);
    ManualNone(planned);
    ManualAll(manual);
    NoManualTemplate();
    assert [] + manual == manual && manual + [] == manual;
  }

  lemma NoManualTemplate()
    ensures ManualOf(TEMPLATES) == []
  {
    TemplateNames();
    ManualNone(TEMPLATES);
  }

  /** The file setup writes over `text` for these rules. */
  function Rewritten(text: string, rules: seq<Planned>): string {
    Unlines(ConfLines(rules, ManualOf(Parse(text))))
  }

  lemma ReadAgain(text: string, rules: seq<Planned>)
    requires GoodRules(rules)
    ensures Parse(Rewritten(text, rules)) == PlannedMap(rules) + ManualOf(Parse(text)) + TEMPLATES
    ensures GoodConf(Parse(text)) && AllManual(ManualOf(Parse(text)))
  {
    ParseGood(Lines(text), START);
    ManualGood(Parse(text));
    RegeneratedReads(rules, ManualOf(Parse(text)));
  }

  lemma RegeneratedAgrees(planned: Conf, manual: Conf)
    requires UniqueKeys(planned) && (forall i :: 0 <= i < |planned| ==> IsManaged(planned[i].0)) && AllManual(manual)
    ensures DiffOf(planned + manual + TEMPLATES, planned).NothingChanges()
  {
    var c := planned + manual + TEMPLATES;
    RegeneratedUnique(planned, manual);
    RegeneratedTemplate(planned, manual);
    forall name | IsManaged(name)
      ensures Has(c, name) <==> Has(planned, name)
      ensures Has(planned, name) ==> Get(c, name) == Get(planned, name)
    {
      RegeneratedHas(planned, manual, name);
    }
    NothingChangesExactly(c, planned);
  }

  /** Whatever the file was: read again and compared again it differs in nothing, and
      has exactly the sections the user wrote. */
  lemma SecondSetup(text: string, rules: seq<Planned>)
    requires GoodRules(rules)
    ensures var d := DiffOf(Parse(Rewritten(text, rules)), PlannedMap(rules));
      d.NothingChanges() && d.manual == ManualOf(Parse(text))
  {
    ReadAgain(text, rules);
    PlannedGood(rules);
    RegeneratedAgrees(PlannedMap(rules), ManualOf(Parse(text)));
    RegeneratedManual(PlannedMap(rules), ManualOf(Parse(text)));
  }

  /** What is left of a file once it is rewritten: the sections of the user's that are
      not templates. A template of the user's own is lost. */
  lemma KeptExactly(text: string, rules: seq<Planned>, name: string)
    requires GoodRules(rules) && !IsManaged(name) && Has(Parse(text), name)
    ensures Has(Parse(Rewritten(text, rules)), name) <==>
      !IsTemplate(name) || name in [TEMPLATE_PRODUCTION, TEMPLATE_MINIMAL]
    ensures !IsTemplate(name) ==> Get(Parse(Rewritten(text, rules)), name) == Get(Parse(text), name)
  {
    ReadAgain(text, rules);
    PlannedGood(rules);
    KeptOf(Parse(text), PlannedMap(rules), name);
  }

  lemma KeptOf(c: Conf, planned: Conf, name: string)
    requires GoodConf(c) && AllManual(ManualOf(c)) && (forall i :: 0 <= i < |planned| ==> IsManaged(planned[i].0))
    requires !IsManaged(name) && Has(c, name)
    ensures var again := planned + ManualOf(c) + TEMPLATES;
      && (Has(again, name) <==> !IsTemplate(name) || name in [TEMPLATE_PRODUCTION, TEMPLATE_MINIMAL])
      && (!IsTemplate(name) ==> Get(again, name) == Get(c, name))
  {
    var manual := ManualOf(c);
    HasJoin(planned, manual);
    HasJoin(planned + manual, TEMPLATES);
    HasTemplates(name);
    if !IsTemplate(name) {
      ManualHas(c, name);
      GetJoin(planned, manual, name);
      GetJoin(planned + manual, TEMPLATES, name);
    }
  }

  lemma HasTemplates(name: string)
    ensures Has(TEMPLATES, name) <==> name in [TEMPLATE_PRODUCTION, TEMPLATE_MINIMAL]
  {
    assert TEMPLATES[0].0 == TEMPLATE_PRODUCTION && TEMPLATES[1].0 == TEMPLATE_MINIMAL;
  }

  lemma ManualHas(c: Conf, name: string)
    requires GoodConf(c) && Has(c, name) && IsManual(name)
    ensures Has(ManualOf(c), name) && Get(ManualOf(c), name) == Get(c, name)
  {
    var i :| 0 <= i < |c| && c[i].0 == name;
    GetAt(c, i);
    ManualKeeps(c, i);
    ManualGood(c);
    var j :| 0 <= j < |ManualOf(c)| && ManualOf(c)[j] == c[i];
    GetAt(ManualOf(c), j);
  }

  lemma {:induction false} ManualKeeps(c: Conf, i: nat)
    requires i < |c| && IsManual(c[i].0)
    ensures c[i] in ManualOf(c)
  {
    var n := |c| - 1;
    if i < n {
      ManualKeeps(c[..n], i);
    }
  }

  // ---- the rules setup discovers -----------------------------------------------------------

  function PathOf(name: Name): string {
    if name == [] then "" else if |name| == 1 then name[0] else name[0] + "/" + PathOf(name[1..])
  }

  predicate NoSlash(name: Name) {
    forall i :: 0 <= i < |name| ==> '/' !in name[i]
  }

  lemma PathHead(name: Name)
    requires |name| >= 1 && NoSlash(name)
    ensures var path := PathOf(name);
      Find(path, '/') == |name[0]| && path[..|name[0]|] == name[0] && (|path| == |name[0]| <==> |name| == 1)
    ensures |name| > 1 ==> PathOf(name)[|name[0]| + 1..] == PathOf(name[1..])
  {
    var path := PathOf(name);
    if |name| == 1 {
      assert forall i :: 0 <= i < |path| ==> path[i] in name[0];
    } else {
      assert path == name[0] + ['/'] + PathOf(name[1..]);
      FindAt(name[0], '/', PathOf(name[1..]));
    }
  }

  /** Two datasets have two paths. */
  lemma {:induction false} PathDiffers(a: Name, b: Name)
    requires |a| >= 1 && |b| >= 1 && NoSlash(a) && NoSlash(b) && PathOf(a) == PathOf(b)
    ensures a == b
    decreases |a|
  {
    PathHead(a);
    PathHead(b);
    assert a == [a[0]] + a[1..] && b == [b[0]] + b[1..];
    if |a| > 1 {
      PathDiffers(a[1..], b[1..]);
    }
  }

  /** A dataset of the system's pools, by a name sanoid.conf can hold. */
  predicate PlainName(name: Name) {
    |name| >= 1 && NoSlash(name) && GoodName(PathOf(name)) && (name[0] == "rpool" || name[0] == "bpool")
  }

  lemma PathManaged(name: Name)
    requires PlainName(name)
    ensures IsManaged(PathOf(name))
  {
    PathHead(name);
    assert PathOf(name)[0] == name[0][0];
  }

  function PlannedOf(sections: seq<Section>): (rules: seq<Planned>)
    ensures |rules| == |sections|
    ensures forall i :: 0 <= i < |rules| ==> rules[i] == Planned(PathOf(sections[i].name), sections[i].rule)
  {
    seq(|sections|, i requires 0 <= i < |sections| => Planned(PathOf(sections[i].name), sections[i].rule))
  }

  /** The rules of a policy can be printed, and a second setup with them changes
      nothing. */
  lemma DiscoveredSetup(p: Policy, out: seq<Section>, text: string)
    requires p.Valid() && AreSections(p, out) && forall s :: s in out ==> PlainName(s.name)
    ensures GoodRules(PlannedOf(out))
    ensures DiffOf(Parse(Rewritten(text, PlannedOf(out))), PlannedMap(PlannedOf(out))).NothingChanges()
  {
    var rules := PlannedOf(out);
    forall i | 0 <= i < |rules|
      ensures GoodName(rules[i].name) && IsManaged(rules[i].name)
    {
      assert out[i] in out;
      PathManaged(out[i].name);
    }
    forall i, j | 0 <= i < j < |rules| && rules[i].name == rules[j].name
      ensures rules[i].rule == rules[j].rule
    {
      assert out[i] in out && out[j] in out;
      PathDiffers(out[i].name, out[j].name);
      SameSection(p, out[i], out[j]);
    }
    SecondSetup(text, rules);
  }
}
