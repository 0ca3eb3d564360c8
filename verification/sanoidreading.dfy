/** What sanoid makes of the text: of the file that setup writes, read back and taken in any
    order, each dataset gets the snapshots that are intended for it. */
module SanoidReading {
  import opened Replication
  import opened ConfText
  import opened SanoidPolicy
  import opened SanoidConf
  import opened SanoidPrint
  import opened SanoidSetup

  // ---- sanoid's side -----------------------------------------------------------------

  /** A section's setting: its own, else that of the template it names. */
  function ValueIn(c: Conf, name: string, key: string): Option<string> {
    if !Has(c, name) then None
    else
      var own := Get(c, name);
      if Has(own, key) then Some(Get(own, key))
      else if Has(own, "use_template") && Has(c, TEMPLATE + Get(own, "use_template")) then
        var from := Get(c, TEMPLATE + Get(own, "use_template"));
        if Has(from, key) then Some(Get(from, key)) else None
      else None
  }

  /** A section is for its dataset, a recursive one for every dataset below it too. */
  predicate WritesTo(c: Conf, name: string, path: string) {
    && !IsTemplate(name)
    && (path == name || (ValueIn(c, name, "recursive") == Some("yes") && name + "/" <= path))
  }

  /** The section a dataset ends with: a later one overwrites an earlier one. */
  function WriterOf(c: Conf, order: seq<string>, path: string): (w: Option<string>)
    ensures w.Some? ==> w.value in order && WritesTo(c, w.value, path)
    ensures w.None? ==> forall n :: n in order ==> !WritesTo(c, n, path)
  {
    if order == [] then None
    else
      var last := order[|order| - 1];
      if WritesTo(c, last, path) then Some(last) else WriterOf(c, order[..|order| - 1], path)
  }

  predicate Keeps(c: Conf, name: string, hourly: string, daily: string, weekly: string, monthly: string) {
    && ValueIn(c, name, "hourly") == Some(hourly) && ValueIn(c, name, "daily") == Some(daily)
    && ValueIn(c, name, "weekly") == Some(weekly) && ValueIn(c, name, "monthly") == Some(monthly)
    && ValueIn(c, name, "frequently") == Some("0") && ValueIn(c, name, "yearly") == Some("0")
  }

  predicate Does(c: Conf, name: string, snapshots: string, prunes: string) {
    ValueIn(c, name, "autosnap") == Some(snapshots) && ValueIn(c, name, "autoprune") == Some(prunes)
  }

  /** What the policy means by each template. */
  predicate Says(c: Conf, name: string, t: Template) {
    match t
    case Production => Keeps(c, name, "24", "7", "4", "3") && Does(c, name, "yes", "yes")
    case Minimal => Keeps(c, name, "0", "14", "8", "3") && Does(c, name, "yes", "yes")
    case Drained => Keeps(c, name, "0", "0", "0", "0") && Does(c, name, "no", "yes")
    case NoSnapshots => Does(c, name, "no", "no")
  }

  // ---- a printed section ---------------------------------------------------------------

  predicate HasTemplatesIn(c: Conf) {
    && Has(c, TEMPLATE_PRODUCTION) && Get(c, TEMPLATE_PRODUCTION) == PRODUCTION_SETTINGS
    && Has(c, TEMPLATE_MINIMAL) && Get(c, TEMPLATE_MINIMAL) == MINIMAL_SETTINGS
  }

  lemma EntryAt(s: Settings, i: nat, key: string, value: string)
    requires UniqueKeys(s) && i < |s| && s[i] == (key, value)
    ensures Has(s, key) && Get(s, key) == value
  {
    GetAt(s, i);
  }

  predicate Sets(s: Settings, key: string, value: string) {
    Has(s, key) && Get(s, key) == value
  }

  predicate CountsAre(s: Settings, hourly: string, daily: string, weekly: string, monthly: string) {
    && Sets(s, "frequently", "0") && Sets(s, "hourly", hourly) && Sets(s, "daily", daily)
    && Sets(s, "weekly", weekly) && Sets(s, "monthly", monthly) && Sets(s, "yearly", "0")
    && Sets(s, "autoprune", "yes") && Sets(s, "autosnap", "yes")
  }

  lemma ProductionIs()
    ensures CountsAre(PRODUCTION_SETTINGS, "24", "7", "4", "3")
  {
    var s := PRODUCTION_SETTINGS;
    CountsUnique();
    EntryAt(s, 0, "frequently", "0");
    EntryAt(s, 1, "hourly", "24");
    EntryAt(s, 2, "daily", "7");
    EntryAt(s, 3, "weekly", "4");
    EntryAt(s, 4, "monthly", "3");
    EntryAt(s, 5, "yearly", "0");
    EntryAt(s, 6, "autoprune", "yes");
    EntryAt(s, 7, "autosnap", "yes");
  }

  lemma MinimalIs()
    ensures CountsAre(MINIMAL_SETTINGS, "0", "14", "8", "3")
  {
    var s := MINIMAL_SETTINGS;
    CountsUnique();
    EntryAt(s, 0, "frequently", "0");
    EntryAt(s, 1, "hourly", "0");
    EntryAt(s, 2, "daily", "14");
    EntryAt(s, 3, "weekly", "8");
    EntryAt(s, 4, "monthly", "3");
    EntryAt(s, 5, "yearly", "0");
    EntryAt(s, 6, "autoprune", "yes");
    EntryAt(s, 7, "autosnap", "yes");
  }

  lemma DrainedIs()
    ensures var s := DRAINED_SETTINGS;
      && Has(s, "frequently") && Get(s, "frequently") == "0" && Has(s, "hourly") && Get(s, "hourly") == "0"
      && Has(s, "daily") && Get(s, "daily") == "0" && Has(s, "weekly") && Get(s, "weekly") == "0"
      && Has(s, "monthly") && Get(s, "monthly") == "0" && Has(s, "yearly") && Get(s, "yearly") == "0"
      && Has(s, "autoprune") && Get(s, "autoprune") == "yes" && Has(s, "autosnap") && Get(s, "autosnap") == "no"
      && Has(s, "recursive") && Get(s, "recursive") == "yes"
  {
    var s := DRAINED_SETTINGS;
    DrainedUnique();
    EntryAt(s, 0, "autosnap", "no");
    EntryAt(s, 1, "autoprune", "yes");
    EntryAt(s, 2, "frequently", "0");
    EntryAt(s, 3, "hourly", "0");
    EntryAt(s, 4, "daily", "0");
    EntryAt(s, 5, "weekly", "0");
    EntryAt(s, 6, "monthly", "0");
    EntryAt(s, 7, "yearly", "0");
    EntryAt(s, 8, "recursive", "yes");
  }

  /** A section that names a template has its setting of any other key. */
  lemma FromTemplate(c: Conf, name: string, t: string, recursive: bool, key: string)
    requires Has(c, name) && Get(c, name) == [("use_template", t), ("recursive", if recursive then "yes" else "no")]
    requires Has(c, TEMPLATE + t) && Has(Get(c, TEMPLATE + t), key) && key != "use_template" && key != "recursive"
    ensures ValueIn(c, name, key) == Some(Get(Get(c, TEMPLATE + t), key))
  {
    var s := Get(c, name);
    assert "use_template" != "recursive" && UniqueKeys(s);
    EntryAt(s, 0, "use_template", t);
    assert s[0].0 != key && s[1].0 != key;
  }

  lemma OwnRecursive(c: Conf, name: string, t: string, recursive: bool)
    requires Has(c, name) && Get(c, name) == [("use_template", t), ("recursive", if recursive then "yes" else "no")]
    ensures ValueIn(c, name, "recursive") == Some("yes") <==> recursive
  {
    var s := Get(c, name);
    assert "use_template" != "recursive" && UniqueKeys(s);
    EntryAt(s, 1, "recursive", if recursive then "yes" else "no");
  }

  /** So it has its counts. */
  lemma CountsFrom(c: Conf, name: string, t: string, recursive: bool, hourly: string, daily: string, weekly: string,
                   monthly: string)
    requires Has(c, name) && Get(c, name) == [("use_template", t), ("recursive", if recursive then "yes" else "no")]
    requires Has(c, TEMPLATE + t) && CountsAre(Get(c, TEMPLATE + t), hourly, daily, weekly, monthly)
    ensures Keeps(c, name, hourly, daily, weekly, monthly) && Does(c, name, "yes", "yes")
  {
    FromTemplate(c, name, t, recursive, "frequently");
    FromTemplate(c, name, t, recursive, "hourly");
    FromTemplate(c, name, t, recursive, "daily");
    FromTemplate(c, name, t, recursive, "weekly");
    FromTemplate(c, name, t, recursive, "monthly");
    FromTemplate(c, name, t, recursive, "yearly");
    assert "autoprune"[0] == 'a' && "recursive"[0] == 'r';
    FromTemplate(c, name, t, recursive, "autoprune");
    FromTemplate(c, name, t, recursive, "autosnap");
  }

  lemma NoSnapshotsIs(s: Settings)
    requires s == [("autosnap", "no"), ("autoprune", "no")]
    ensures Has(s, "autosnap") && Get(s, "autosnap") == "no" && Has(s, "autoprune") && Get(s, "autoprune") == "no"
    ensures !Has(s, "recursive") && !Has(s, "use_template")
  {
    assert |"autosnap"| == 8 && |"autoprune"| == 9 && UniqueKeys(s);
    EntryAt(s, 0, "autosnap", "no");
    EntryAt(s, 1, "autoprune", "no");
    assert "autoprune"[0] == 'a' && "recursive"[0] == 'r' && |"recursive"| == 9 && |"use_template"| == 12;
    assert s[0].0 != "recursive" && s[1].0 != "recursive" && s[0].0 != "use_template" && s[1].0 != "use_template";
  }

  lemma TemplatesNamed()
    ensures TEMPLATE + "production" == TEMPLATE_PRODUCTION && TEMPLATE + "minimal" == TEMPLATE_MINIMAL
  {
  }

  lemma ProductionSays(c: Conf, name: string, recursive: bool)
    requires Has(c, name) && Get(c, name) == SettingsOf(Rule(Production, recursive)) && HasTemplatesIn(c)
    ensures Keeps(c, name, "24", "7", "4", "3") && Does(c, name, "yes", "yes")
  {
    TemplatesNamed();
    ProductionIs();
    CountsFrom(c, name, "production", recursive, "24", "7", "4", "3");
  }

  lemma MinimalSays(c: Conf, name: string, recursive: bool)
    requires Has(c, name) && Get(c, name) == SettingsOf(Rule(Minimal, recursive)) && HasTemplatesIn(c)
    ensures Keeps(c, name, "0", "14", "8", "3") && Does(c, name, "yes", "yes")
  {
    TemplatesNamed();
    MinimalIs();
    CountsFrom(c, name, "minimal", recursive, "0", "14", "8", "3");
  }

  /** The section of a rule says what its template means, and is recursive if the rule is. */
  lemma RuleSays(c: Conf, name: string, rule: Rule)
    requires Has(c, name) && Get(c, name) == SettingsOf(rule) && HasTemplatesIn(c)
    requires rule.template == Drained ==> rule.recursive
    requires rule.template == NoSnapshots ==> !rule.recursive
    ensures Says(c, name, rule.template) && (ValueIn(c, name, "recursive") == Some("yes") <==> rule.recursive)
  {
    match rule.template
    case Drained => DrainedIs();
    case NoSnapshots => NoSnapshotsIs(SettingsOf(rule));
    case Production =>
      ProductionSays(c, name, rule.recursive);
      OwnRecursive(c, name, "production", rule.recursive);
    case Minimal =>
      MinimalSays(c, name, rule.recursive);
      OwnRecursive(c, name, "minimal", rule.recursive);
  }

  // ---- paths --------------------------------------------------------------------------

  /** The path of a dataset below another is that one's path, a slash, and the rest. */
  lemma {:induction false} PathJoin(n: Name, rest: Name)
    requires |n| >= 1 && |rest| >= 1
    ensures PathOf(n + rest) == PathOf(n) + "/" + PathOf(rest)
    decreases |n|
  {
    var all := n + rest;
    assert all[0] == n[0] && all[1..] == n[1..] + rest;
    if |n| == 1 {
      assert all[1..] == rest;
    } else {
      PathJoin(n[1..], rest);
      assert PathOf(all) == n[0] + "/" + (PathOf(n[1..]) + "/" + PathOf(rest));
    }
  }

  /** One path goes on another exactly when its dataset is below the other's. */
  lemma PathBelow(n: Name, x: Name)
    requires |n| >= 1 && |x| >= 1 && NoSlash(n) && NoSlash(x)
    ensures PathOf(n) + "/" <= PathOf(x) <==> Below(x, n)
  {
    if Below(x, n) {
      BelowIsLonger(x, n);
      var rest := x[|n|..];
      assert n + rest == x;
      PathJoin(n, rest);
    }
    if PathOf(n) + "/" <= PathOf(x) {
      PathGoesOn(n, x);
    }
  }

  lemma {:induction false} PathGoesOn(n: Name, x: Name)
    requires |n| >= 1 && |x| >= 1 && NoSlash(n) && NoSlash(x) && PathOf(n) + "/" <= PathOf(x)
    ensures Below(x, n)
    decreases |n|
  {
    var p, q := PathOf(n), PathOf(x);
    PathHead(n);
    PathHead(x);
    assert q[..|p| + 1] == p + "/";
    FirstPart(p, q);
    assert n[0] == x[0];
    if |n| > 1 {
      assert p[|n[0]| + 1..] == PathOf(n[1..]) && q[|n[0]| + 1..] == PathOf(x[1..]);
      PrefixRest(p, q, |n[0]| + 1);
      PathGoesOn(n[1..], x[1..]);
      assert n == [n[0]] + n[1..] && x == [x[0]] + x[1..];
    } else {
      assert n == [n[0]];
    }
  }

  lemma PrefixRest(p: string, q: string, k: nat)
    requires p + "/" <= q && k <= |p|
    ensures p[k..] + "/" <= q[k..]
  {
    assert q[..|p| + 1] == p + "/";
    assert q[k..][..|p| + 1 - k] == p[k..] + "/";
  }

  /** What comes before the first slash is the same. */
  lemma FirstPart(p: string, q: string)
    requires p + "/" <= q
    ensures Find(p, '/') == Find(q, '/') && p[..Find(p, '/')] == q[..Find(q, '/')]
  {
    var i, j := Find(p, '/'), Find(q, '/');
    assert q[..|p| + 1] == p + "/";
    assert forall k :: 0 <= k < |p| ==> q[k] == p[k];
    assert q[|p|] == '/';
  }

  /** Only sections of the managed pools write to their datasets. */
  lemma OnlyManagedWrite(c: Conf, name: string, x: Name)
    requires PlainName(x) && WritesTo(c, name, PathOf(x))
    ensures IsManaged(name)
  {
    PathManaged(x);
    if name != PathOf(x) {
      FirstPart(name, PathOf(x));
    }
  }

  // ---- the whole file -------------------------------------------------------------------

  lemma RuleKinds(kinds: Kinds, ubuntu: string, n: Name)
    requires n in Classified(kinds, ubuntu)
    ensures var rule := Classified(kinds, ubuntu)[n];
      rule.template != Drained && (rule.template == NoSnapshots ==> !rule.recursive)
  {
  }

  /** A section of a policy: drained ones are recursive, those without snapshots are not. */
  lemma SectionRule(p: Policy, kinds: Kinds, ubuntu: string, s: Section)
    requires IsPolicy(p, kinds, ubuntu) && IsSection(p, s)
    ensures s.rule.template == Drained ==> s.rule.recursive
    ensures s.rule.template == NoSnapshots ==> !s.rule.recursive
  {
    if !(s.name in p.drained && s.rule == DRAIN) {
      var n :| Gives(p, n, s);
      assert p.rules[n] == Classified(kinds, ubuntu)[n];
      RuleKinds(kinds, ubuntu, n);
    }
  }

  lemma {:induction false} PlannedGet(rules: seq<Planned>, i: nat)
    requires GoodRules(rules) && i < |rules|
    ensures Has(PlannedMap(rules), rules[i].name) && Get(PlannedMap(rules), rules[i].name) == SettingsOf(rules[i].rule)
  {
    var n := |rules| - 1;
    var last, before := rules[n], PlannedMap(rules[..n]);
    if i < n {
      PlannedGet(rules[..n], i);
    }
    PutGet(before, last.name, SettingsOf(last.rule), rules[i].name);
  }

  function FileOf(text: string, out: seq<Section>): Conf {
    Parse(Rewritten(text, PlannedOf(out)))
  }

  /** What the file holds, part by part. */
  lemma FileParts(p: Policy, out: seq<Section>, text: string)
    requires p.Valid() && AreSections(p, out) && forall s :: s in out ==> PlainName(s.name)
    ensures var rules, manual := PlannedOf(out), ManualOf(Parse(text));
      && GoodRules(rules) && AllManual(manual)
      && (forall i :: 0 <= i < |PlannedMap(rules)| ==> IsManaged(PlannedMap(rules)[i].0))
      && FileOf(text, out) == PlannedMap(rules) + manual + TEMPLATES
  {
    DiscoveredSetup(p, out, text);
    ReadAgain(text, PlannedOf(out));
    PlannedGood(PlannedOf(out));
  }

  lemma FileTemplates(p: Policy, out: seq<Section>, text: string)
    requires p.Valid() && AreSections(p, out) && forall s :: s in out ==> PlainName(s.name)
    ensures HasTemplatesIn(FileOf(text, out))
  {
    FileParts(p, out, text);
    RegeneratedTemplate(PlannedMap(PlannedOf(out)), ManualOf(Parse(text)));
    RegeneratedProduction(PlannedMap(PlannedOf(out)), ManualOf(Parse(text)));
  }

  /** Its managed sections are the policy's. */
  lemma FileManaged(p: Policy, out: seq<Section>, text: string, name: string) returns (s: Section)
    requires p.Valid() && AreSections(p, out) && forall s :: s in out ==> PlainName(s.name)
    requires IsManaged(name) && Has(FileOf(text, out), name)
    ensures s in out && PathOf(s.name) == name
  {
    var rules := PlannedOf(out);
    FileParts(p, out, text);
    RegeneratedHas(PlannedMap(rules), ManualOf(Parse(text)), name);
    PlannedHas(rules, name);
    var r :| r in rules && r.name == name && Get(PlannedMap(rules), name) == SettingsOf(r.rule);
    var i :| 0 <= i < |rules| && rules[i] == r;
    s := out[i];
  }

  lemma FileSection(p: Policy, out: seq<Section>, text: string, s: Section)
    requires p.Valid() && AreSections(p, out) && forall s :: s in out ==> PlainName(s.name)
    requires s in out
    ensures HasSection(FileOf(text, out), s)
  {
    var rules := PlannedOf(out);
    FileParts(p, out, text);
    var i :| 0 <= i < |out| && out[i] == s;
    PlannedGet(rules, i);
    PathManaged(s.name);
    RegeneratedHas(PlannedMap(rules), ManualOf(Parse(text)), PathOf(s.name));
  }

  ghost predicate HasSection(c: Conf, s: Section) {
    Has(c, PathOf(s.name)) && Get(c, PathOf(s.name)) == SettingsOf(s.rule)
  }

  lemma RegeneratedProduction(planned: Conf, manual: Conf)
    requires (forall i :: 0 <= i < |planned| ==> IsManaged(planned[i].0)) && AllManual(manual)
    ensures Has(planned + manual + TEMPLATES, TEMPLATE_PRODUCTION)
    ensures Get(planned + manual + TEMPLATES, TEMPLATE_PRODUCTION) == PRODUCTION_SETTINGS
  {
    HasJoin(planned, manual);
    TemplateNames();
    TemplatesGood();
    assert TEMPLATES[0].0 == TEMPLATE_PRODUCTION;
    GetAt(TEMPLATES, 0);
    GetJoin(planned + manual, TEMPLATES, TEMPLATE_PRODUCTION);
  }

  /** A section writes to a dataset in the text exactly when it does in the policy, and says
      what its template means. */
  lemma SectionWrites(p: Policy, kinds: Kinds, ubuntu: string, c: Conf, s: Section, x: Name)
    requires IsPolicy(p, kinds, ubuntu) && IsSection(p, s) && PlainName(s.name) && PlainName(x)
    requires HasTemplatesIn(c) && HasSection(c, s)
    ensures WritesTo(c, PathOf(s.name), PathOf(x)) <==> Writes(s, x)
    ensures Says(c, PathOf(s.name), s.rule.template)
  {
    SectionRule(p, kinds, ubuntu, s);
    RuleSays(c, PathOf(s.name), s.rule);
    PathManaged(s.name);
    PathBelow(s.name, x);
    if PathOf(x) == PathOf(s.name) {
      PathDiffers(x, s.name);
    }
  }

  /** The file that setup writes over `text`, read back, its sections taken in any order: a
      dataset is drained inside an excluded subtree, elsewhere has the snapshots intended for
      it, and no section writes to one for which nothing is intended. */
  lemma FileMeans(p: Policy, kinds: Kinds, ubuntu: string, out: seq<Section>, text: string, order: seq<string>, x: Name)
    requires IsPolicy(p, kinds, ubuntu) && AreSections(p, out) && x in kinds && PlainName(x)
    requires forall s :: s in out ==> PlainName(s.name)
    requires forall n :: n in order <==> Has(FileOf(text, out), n)
    ensures var want := if p.Inside(x) then Some(Drained) else Intended(kinds, ubuntu, x);
      var w := WriterOf(FileOf(text, out), order, PathOf(x));
      if want.Some? then w.Some? && Says(FileOf(text, out), w.value, want.value) else w.None?
  {
    var c := FileOf(text, out);
    PolicyValid(p, kinds, ubuntu);
    FileTemplates(p, out, text);
    EveryDatasetMeant(kinds, ubuntu, x);
    var w := WriterOf(c, order, PathOf(x));
    if w.Some? {
      OnlyManagedWrite(c, w.value, x);
      var s := FileManaged(p, out, text, w.value);
      FileSection(p, out, text, s);
      SectionWrites(p, kinds, ubuntu, c, s, x);
      WritesWanted(p, kinds, ubuntu, s, x);
    } else if Wanted(p, Classified(kinds, ubuntu), x).Some? {
      var s := SomeWrites(p, kinds, ubuntu, x);
      FileSection(p, out, text, s);
      SectionWrites(p, kinds, ubuntu, c, s, x);
    }
  }
}
