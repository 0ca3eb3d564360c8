/** sanoid.conf regenerated: the printer, the comparison, and that a second setup
    changes nothing. */
module SanoidPrint {
  import opened ConfText
  import opened Replication
  import opened SanoidPolicy
  import opened SanoidConf

  // ---- the printer ------------------------------------------------------------------

  function SettingLine(key: string, value: string): string {
    key + " = " + value
  }

  function SettingLines(s: Settings): seq<string> {
    if s == [] then [] else SettingLines(s[..|s| - 1]) + [SettingLine(s[|s| - 1].0, s[|s| - 1].1)]
  }

  function SectionLines(name: string, s: Settings): seq<string> {
    ["[" + name + "]"] + SettingLines(s)
  }

  function RuleLines(rules: seq<Planned>): seq<string> {
    if rules == [] then []
    else
      var last := rules[|rules| - 1];
      RuleLines(rules[..|rules| - 1]) + (SectionLines(last.name, SettingsOf(last.rule)) + [""])
  }

  function ManualLines(manual: Conf): seq<string> {
    if manual == [] then []
    else
      var last := manual[|manual| - 1];
      ManualLines(manual[..|manual| - 1]) + (SectionLines(last.0, last.1) + [""])
  }

  function PreservedLines(manual: Conf): seq<string> {
    if manual == [] then [] else [PRESERVED, ""] + ManualLines(manual)
  }

  const TEMPLATE_LINES: seq<string> :=
    SectionLines(TEMPLATE_PRODUCTION, PRODUCTION_SETTINGS) + [""] + SectionLines(TEMPLATE_MINIMAL, MINIMAL_SETTINGS)

  function ConfLines(rules: seq<Planned>, manual: Conf): seq<string> {
    HEADER + RuleLines(rules) + PreservedLines(manual) + TEMPLATE_LINES
  }

  method PrintSettings(s: Settings) returns (out: seq<string>)
    ensures out == SettingLines(s)
  {
    out := [];
    for i := 0 to |s|
      invariant out == SettingLines(s[..i])
    {
      out := out + [SettingLine(s[i].0, s[i].1)];
      assert s[..i + 1][..i] == s[..i];
    }
    assert s[..|s|] == s;
  }

  /** The whole file, from the rules and the sections to keep. */
  method GenerateConf(rules: seq<Planned>, manual: Conf) returns (text: string)
    ensures text == Unlines(ConfLines(rules, manual))
  {
    var out: seq<string> := [];
    for i := 0 to |rules|
      invariant out == RuleLines(rules[..i])
    {
      var lines := PrintSettings(SettingsOf(rules[i].rule));
      out := out + (["[" + rules[i].name + "]"] + lines + [""]);
      assert rules[..i + 1][..i] == rules[..i];
    }
    assert rules[..|rules|] == rules;
    var kept: seq<string> := [];
    for i := 0 to |manual|
      invariant kept == ManualLines(manual[..i])
    {
      var lines := PrintSettings(manual[i].1);
      kept := kept + (["[" + manual[i].0 + "]"] + lines + [""]);
      assert manual[..i + 1][..i] == manual[..i];
    }
    assert manual[..|manual|] == manual;
    text := Unlines(HEADER + out + (if manual == [] then [] else [PRESERVED, ""] + kept) + TEMPLATE_LINES);
  }

  // ---- a printed line read back -------------------------------------------------------

  lemma HeaderRead(name: string)
    requires GoodName(name)
    ensures ReadLine("[" + name + "]") == Opens(name)
  {
    var line := "[" + name + "]";
    StrippedStays(line);
    StrippedStays(name);
    assert line[1..|line| - 1] == name;
  }

  lemma StrippedStays(s: string)
    requires IsStripped(s)
    ensures Strip(s) == s
  {
    StripPad("", s, "");
    assert "" + s + "" == s;
  }

  /** A printed setting is read as that setting. */
  lemma SettingRead(key: string, value: string)
    requires GoodSetting(key, value)
    ensures ReadLine(SettingLine(key, value)) == Sets(key, value)
  {
    var left := if key == "" then "" else key + " ";
    var right := if value == "" then "" else " " + value;
    var line := left + ['='] + right;
    StripLine(key, value, left, right);
    PartsBack(key, value, left, right);
    NoEquals(key, left);
    FindAt(left, '=', right);
    LineBack(key, value, left, right, line);
  }

  lemma NoEquals(key: string, left: string)
    requires '=' !in key && (left == "" || left == key + " ")
    ensures '=' !in left
  {
  }

  lemma LineBack(key: string, value: string, left: string, right: string, line: string)
    requires GoodSetting(key, value) && line == left + ['='] + right && Find(line, '=') == |left|
    requires left == (if key == "" then "" else key + " ") && right == (if value == "" then "" else " " + value)
    requires Strip(left) == key && Strip(right) == value
    ensures LineOf(line) == Sets(key, value)
  {
    var i := |left|;
    assert line[..i] == left && line[i + 1..] == right;
    assert key != "" ==> line[0] == key[0];
    assert value != "" ==> line[|line| - 1] == value[|value| - 1];
  }

  lemma StripLine(key: string, value: string, left: string, right: string)
    requires IsStripped(key) && IsStripped(value)
    requires left == (if key == "" then "" else key + " ") && right == (if value == "" then "" else " " + value)
    ensures Strip(SettingLine(key, value)) == left + ['='] + right
  {
    var line := left + ['='] + right;
    var a := if key == "" then " " else "";
    var b := if value == "" then " " else "";
    assert SettingLine(key, value) == a + line + b;
    assert IsStripped(line);
    StripPad(a, line, b);
  }

  lemma PartsBack(key: string, value: string, left: string, right: string)
    requires IsStripped(key) && IsStripped(value)
    requires left == (if key == "" then "" else key + " ") && right == (if value == "" then "" else " " + value)
    ensures Strip(left) == key && Strip(right) == value
  {
    StripEmpty();
    StripPad("", key, " ");
    StripPad(" ", value, "");
    assert key + " " == "" + key + " ";
    assert " " + value == " " + value + "";
  }

  // ---- a printed section read back ------------------------------------------------------

  lemma ParseOne(lines: seq<string>, line: string, st: Parsing)
    requires InSection(st)
    ensures ParseLines(lines + [line], st) == Step(ParseLines(lines, st), ReadLine(line))
  {
    var all := lines + [line];
    assert all[..|all| - 1] == lines;
  }

  /** The settings of a section that was just opened, read one after another. */
  lemma {:induction false} SettingsRead(conf: Conf, name: string, s: Settings)
    requires !Has(conf, name) && GoodSettings(s)
    ensures InSection(Parsing(conf + [(name, [])], Some(name)))
    ensures ParseLines(SettingLines(s), Parsing(conf + [(name, [])], Some(name))) ==
      Parsing(conf + [(name, s)], Some(name))
  {
    PutLast(conf, name, [], []);
    if s != [] {
      var n := |s| - 1;
      SettingsRead(conf, name, s[..n]);
      SettingRead(s[n].0, s[n].1);
      SplitLast(s);
      LastIsNew(s);
      PutNew(s[..n], s[n].0, s[n].1);
      PutLast(conf, name, s[..n], s);
      ParseOne(SettingLines(s[..n]), SettingLine(s[n].0, s[n].1), Parsing(conf + [(name, [])], Some(name)));
    }
  }

  /** The settings of a section that has them already. */
  lemma {:induction false} SettingsSame(conf: Conf, name: string, s: Settings, k: nat)
    requires Has(conf, name) && Get(conf, name) == s && GoodSettings(s) && k <= |s|
    ensures ParseLines(SettingLines(s[..k]), Parsing(conf, Some(name))) == Parsing(conf, Some(name))
  {
    if k > 0 {
      var n := k - 1;
      var st := Parsing(conf, Some(name));
      SettingsSame(conf, name, s, n);
      assert s[..k][..n] == s[..n] && s[..k][n] == s[n];
      SettingRead(s[n].0, s[n].1);
      GetAt(s, n);
      PutSame(s, s[n].0);
      PutSame(conf, name);
      ParseOne(SettingLines(s[..n]), SettingLine(s[n].0, s[n].1), st);
    }
  }

  /** A section printed, new or as it was, is read as put in its place. */
  lemma SectionRead(st: Parsing, name: string, s: Settings)
    requires InSection(st) && GoodName(name) && GoodSettings(s) && (Has(st.conf, name) ==> Get(st.conf, name) == s)
    ensures ParseLines(SectionLines(name, s), st) == Parsing(Put(st.conf, name, s), Some(name))
  {
    var head := ["[" + name + "]"];
    HeaderRead(name);
    ParseOne([], "[" + name + "]", st);
    assert [] + head == head;
    ParseJoin(head, SettingLines(s), st);
    if Has(st.conf, name) {
      SettingsSame(st.conf, name, s, |s|);
      assert s[..|s|] == s;
      PutSame(st.conf, name);
    } else {
      SettingsRead(st.conf, name, s);
      PutNew(st.conf, name, s);
    }
  }

  lemma BlockRead(st: Parsing, name: string, s: Settings)
    requires InSection(st) && GoodName(name) && GoodSettings(s) && (Has(st.conf, name) ==> Get(st.conf, name) == s)
    ensures ParseLines(SectionLines(name, s) + [""], st) == Parsing(Put(st.conf, name, s), Some(name))
  {
    SectionRead(st, name, s);
    NoteRead("");
    ParseOne(SectionLines(name, s), "", st);
  }

  // ---- the whole file read back -----------------------------------------------------------

  predicate IsWord(s: string) {
    s != "" && forall i :: 0 <= i < |s| ==> 'a' <= s[i] <= 'z' || '0' <= s[i] <= '9' || s[i] == '_'
  }

  lemma WordsGood(key: string, value: string)
    requires IsWord(key) && IsWord(value)
    ensures GoodSetting(key, value)
  {
  }

  predicate AreWords(s: Settings) {
    forall i :: 0 <= i < |s| ==> IsWord(s[i].0) && IsWord(s[i].1)
  }

  lemma AllWordsGood(s: Settings)
    requires AreWords(s) && UniqueKeys(s)
    ensures GoodSettings(s)
  {
    forall i | 0 <= i < |s| { WordsGood(s[i].0, s[i].1); }
  }

  lemma KeysAreWords()
    ensures IsWord("autosnap") && IsWord("autoprune") && IsWord("frequently") && IsWord("hourly") && IsWord("daily")
    ensures IsWord("weekly") && IsWord("monthly") && IsWord("yearly") && IsWord("recursive") && IsWord("use_template")
  {
  }

  lemma ValuesAreWords()
    ensures IsWord("yes") && IsWord("no") && IsWord("0") && IsWord("24") && IsWord("7") && IsWord("4") && IsWord("3")
    ensures IsWord("14") && IsWord("8") && IsWord("production") && IsWord("minimal")
  {
  }

  lemma DrainedUnique()
    ensures UniqueKeys(DRAINED_SETTINGS)
  {
  }

  lemma CountsUnique()
    ensures UniqueKeys(PRODUCTION_SETTINGS) && UniqueKeys(MINIMAL_SETTINGS)
  {
  }

  lemma DrainedGood()
    ensures GoodSettings(DRAINED_SETTINGS)
  {
    KeysAreWords();
    ValuesAreWords();
    DrainedUnique();
    AllWordsGood(DRAINED_SETTINGS);
  }

  lemma TemplatesGood()
    ensures GoodSettings(PRODUCTION_SETTINGS) && GoodSettings(MINIMAL_SETTINGS)
    ensures GoodName(TEMPLATE_PRODUCTION) && GoodName(TEMPLATE_MINIMAL) && TEMPLATE_PRODUCTION != TEMPLATE_MINIMAL
  {
    KeysAreWords();
    ValuesAreWords();
    CountsUnique();
    AllWordsGood(PRODUCTION_SETTINGS);
    AllWordsGood(MINIMAL_SETTINGS);
  }

  lemma SettingsOfGood(rule: Rule)
    ensures GoodSettings(SettingsOf(rule))
  {
    if rule.template == Drained {
      DrainedGood();
    } else {
      KeysAreWords();
      ValuesAreWords();
      AllWordsGood(SettingsOf(rule));
    }
  }

  /** Rules setup can print: of datasets of the managed pools, and one rule a name. */
  ghost predicate GoodRules(rules: seq<Planned>) {
    && (forall i :: 0 <= i < |rules| ==> GoodName(rules[i].name) && IsManaged(rules[i].name))
    && (forall i, j :: 0 <= i < j < |rules| && rules[i].name == rules[j].name ==> rules[i].rule == rules[j].rule)
  }

  /** The planned sections, by name. */
  function PlannedMap(rules: seq<Planned>): Conf {
    if rules == [] then []
    else
      var last := rules[|rules| - 1];
      Put(PlannedMap(rules[..|rules| - 1]), last.name, SettingsOf(last.rule))
  }

  lemma {:induction false} PlannedHas(rules: seq<Planned>, name: string)
    requires GoodRules(rules) && Has(PlannedMap(rules), name)
    ensures exists r :: r in rules && r.name == name && Get(PlannedMap(rules), name) == SettingsOf(r.rule)
  {
    var n := |rules| - 1;
    var last, before := rules[n], PlannedMap(rules[..n]);
    SplitLast(rules);
    PutGet(before, last.name, SettingsOf(last.rule), name);
    if name != last.name {
      PlannedHas(rules[..n], name);
      var r :| r in rules[..n] && r.name == name && Get(before, name) == SettingsOf(r.rule);
      assert r in rules;
    } else {
      assert last in rules;
    }
  }

  /** A name printed before was printed with the same settings. */
  lemma SameBefore(rules: seq<Planned>)
    requires GoodRules(rules) && rules != []
    ensures var n := |rules| - 1; var before := PlannedMap(rules[..n]);
      Has(before, rules[n].name) ==> Get(before, rules[n].name) == SettingsOf(rules[n].rule)
  {
    var n := |rules| - 1;
    var before, name := PlannedMap(rules[..n]), rules[n].name;
    if Has(before, name) {
      PlannedHas(rules[..n], name);
      var r :| r in rules[..n] && r.name == name && Get(before, name) == SettingsOf(r.rule);
      var i :| 0 <= i < n && rules[..n][i] == r;
      assert rules[i] == r;
    }
  }

  lemma {:induction false} RulesRead(rules: seq<Planned>, st: Parsing)
    requires GoodRules(rules) && st == START
    ensures ParseLines(RuleLines(rules), st).conf == PlannedMap(rules)
  {
    if rules != [] {
      var n := |rules| - 1;
      var last := rules[n];
      RulesRead(rules[..n], st);
      var mid := ParseLines(RuleLines(rules[..n]), st);
      SameBefore(rules);
      SettingsOfGood(last.rule);
      BlockRead(mid, last.name, SettingsOf(last.rule));
      ParseJoin(RuleLines(rules[..n]), SectionLines(last.name, SettingsOf(last.rule)) + [""], st);
    }
  }

  lemma {:induction false} ManualRead(manual: Conf, st: Parsing)
    requires InSection(st) && GoodConf(manual) && forall i :: 0 <= i < |manual| ==> !Has(st.conf, manual[i].0)
    ensures ParseLines(ManualLines(manual), st).conf == st.conf + manual
  {
    if manual != [] {
      var n := |manual| - 1;
      var last, before := manual[n], manual[..n];
      ManualRead(before, st);
      var mid := ParseLines(ManualLines(before), st);
      HasJoin(st.conf, before);
      LastIsNew(manual);
      PutNew(mid.conf, last.0, last.1);
      BlockRead(mid, last.0, last.1);
      ParseJoin(ManualLines(before), SectionLines(last.0, last.1) + [""], st);
      JoinLast(st.conf, manual);
    } else {
      assert st.conf + manual == st.conf;
    }
  }

  const TEMPLATES: Conf := [(TEMPLATE_PRODUCTION, PRODUCTION_SETTINGS), (TEMPLATE_MINIMAL, MINIMAL_SETTINGS)]

  lemma TemplatesRead(st: Parsing)
    requires InSection(st) && !Has(st.conf, TEMPLATE_PRODUCTION) && !Has(st.conf, TEMPLATE_MINIMAL)
    ensures ParseLines(TEMPLATE_LINES, st).conf == st.conf + TEMPLATES
  {
    var a := SectionLines(TEMPLATE_PRODUCTION, PRODUCTION_SETTINGS) + [""];
    var b := SectionLines(TEMPLATE_MINIMAL, MINIMAL_SETTINGS);
    TemplatesGood();
    BlockRead(st, TEMPLATE_PRODUCTION, PRODUCTION_SETTINGS);
    PutNew(st.conf, TEMPLATE_PRODUCTION, PRODUCTION_SETTINGS);
    var mid := ParseLines(a, st);
    HasJoin(st.conf, [(TEMPLATE_PRODUCTION, PRODUCTION_SETTINGS)]);
    SectionRead(mid, TEMPLATE_MINIMAL, MINIMAL_SETTINGS);
    PutNew(mid.conf, TEMPLATE_MINIMAL, MINIMAL_SETTINGS);
    ParseJoin(a, b, st);
    assert TEMPLATES == [(TEMPLATE_PRODUCTION, PRODUCTION_SETTINGS)] + [(TEMPLATE_MINIMAL, MINIMAL_SETTINGS)];
  }

  predicate AreNotes(lines: seq<string>) {
    forall i :: 0 <= i < |lines| ==> IsNote(lines[i])
  }

  lemma NoteRead(line: string)
    requires IsNote(line)
    ensures ReadLine(line) == Skipped
  {
    if line == "" {
      StripEmpty();
    } else {
      StripKeepsFirst(line);
    }
  }

  lemma {:induction false} NotesSkipped(lines: seq<string>, st: Parsing)
    requires InSection(st) && AreNotes(lines)
    ensures ParseLines(lines, st) == st
  {
    if lines != [] {
      NotesSkipped(lines[..|lines| - 1], st);
      NoteRead(lines[|lines| - 1]);
    }
  }

  lemma HeadersAreNotes()
    ensures AreNotes(HEADER) && AreNotes([PRESERVED, ""])
  {
  }

  /** What a regenerated file holds when it is read again. */
  function Regenerated(rules: seq<Planned>, manual: Conf): Conf {
    PlannedMap(rules) + manual + TEMPLATES
  }

  ghost predicate AllManual(manual: Conf) {
    GoodConf(manual) && forall i :: 0 <= i < |manual| ==> IsManual(manual[i].0)
  }

  lemma {:induction false} PlannedManaged(rules: seq<Planned>, name: string)
    requires GoodRules(rules)
    ensures Has(PlannedMap(rules), name) ==> IsManaged(name)
  {
    if Has(PlannedMap(rules), name) {
      PlannedHas(rules, name);
    }
  }

  lemma LinesRead(rules: seq<Planned>, manual: Conf)
    requires GoodRules(rules) && AllManual(manual)
    ensures ParseLines(ConfLines(rules, manual), START).conf == Regenerated(rules, manual)
  {
    HeadersAreNotes();
    NotesSkipped(HEADER, START);
    ParseJoin(HEADER, RuleLines(rules), START);
    RulesRead(rules, START);
    var a := ParseLines(HEADER + RuleLines(rules), START);
    ParseJoin(HEADER + RuleLines(rules), PreservedLines(manual), START);
    forall name { PlannedManaged(rules, name); }
    PreservedRead(manual, a);
    var b := ParseLines(HEADER + RuleLines(rules) + PreservedLines(manual), START);
    HasJoin(PlannedMap(rules), manual);
    TemplateNames();
    assert !Has(b.conf, TEMPLATE_PRODUCTION) && !Has(b.conf, TEMPLATE_MINIMAL);
    TemplatesRead(b);
    ParseJoin(HEADER + RuleLines(rules) + PreservedLines(manual), TEMPLATE_LINES, START);
  }

  lemma TemplateNames()
    ensures IsTemplate(TEMPLATE_PRODUCTION) && IsTemplate(TEMPLATE_MINIMAL)
  {
  }

  lemma PreservedRead(manual: Conf, st: Parsing)
    requires InSection(st) && AllManual(manual) && forall name :: Has(st.conf, name) ==> IsManaged(name)
    ensures ParseLines(PreservedLines(manual), st).conf == st.conf + manual
  {
    if manual == [] {
      assert st.conf + manual == st.conf;
    } else {
      HeadersAreNotes();
      NotesSkipped([PRESERVED, ""], st);
      ParseJoin([PRESERVED, ""], ManualLines(manual), st);
      ManualRead(manual, st);
    }
  }

  // ---- no line breaks inside a line --------------------------------------------------------

  predicate OneLine(s: string) {
    forall i :: 0 <= i < |s| ==> s[i] != '\n'
  }

  predicate AreLines(lines: seq<string>) {
    forall i :: 0 <= i < |lines| ==> OneLine(lines[i])
  }

  lemma CommentIsLine(first: string, rest: string)
    requires OneLine(first) && OneLine(rest)
    ensures OneLine(Comment(first, rest))
  {
  }

  lemma HeaderLines()
    ensures AreLines(HEADER)
  {
    CommentIsLine(" Generated by zark setup. Edit ", "freely; zark will ask before overwriting.");
    CommentIsLine(" Sections under rpool/* and bpool/* ", "are managed by zark; others are");
    CommentIsLine(" preserved untouched across ", "regenerations.");
  }

  lemma PreservedLine()
    ensures OneLine(PRESERVED)
  {
    CommentIsLine(" \U{2500}\U{2500} Preserved user sections ", "(not managed by zark) \U{2500}\U{2500}");
  }

  lemma {:induction false} SettingsAreLines(s: Settings)
    requires GoodSettings(s)
    ensures AreLines(SettingLines(s))
  {
    if s != [] {
      var n := |s| - 1;
      SettingsAreLines(s[..n]);
      assert GoodSetting(s[n].0, s[n].1);
      assert OneLine(s[n].0) && OneLine(s[n].1);
      assert OneLine(SettingLine(s[n].0, s[n].1));
    }
  }

  lemma SectionIsLines(name: string, s: Settings)
    requires GoodName(name) && GoodSettings(s)
    ensures AreLines(SectionLines(name, s)) && AreLines(SectionLines(name, s) + [""])
  {
    SettingsAreLines(s);
    assert OneLine(name);
    assert OneLine("[" + name + "]");
  }

  lemma {:induction false} RulesAreLines(rules: seq<Planned>)
    requires GoodRules(rules)
    ensures AreLines(RuleLines(rules))
  {
    if rules != [] {
      var last := rules[|rules| - 1];
      RulesAreLines(rules[..|rules| - 1]);
      SettingsOfGood(last.rule);
      SectionIsLines(last.name, SettingsOf(last.rule));
    }
  }

  lemma {:induction false} ManualAreLines(manual: Conf)
    requires GoodConf(manual)
    ensures AreLines(ManualLines(manual)) && AreLines(PreservedLines(manual))
  {
    PreservedLine();
    if manual != [] {
      var last := manual[|manual| - 1];
      ManualAreLines(manual[..|manual| - 1]);
      SectionIsLines(last.0, last.1);
    }
  }

  lemma ConfAreLines(rules: seq<Planned>, manual: Conf)
    requires GoodRules(rules) && GoodConf(manual)
    ensures AreLines(ConfLines(rules, manual))
  {
    HeaderLines();
    RulesAreLines(rules);
    ManualAreLines(manual);
    TemplatesGood();
    SectionIsLines(TEMPLATE_PRODUCTION, PRODUCTION_SETTINGS);
    SectionIsLines(TEMPLATE_MINIMAL, MINIMAL_SETTINGS);
  }

  /** A regenerated file reads as the rules, the sections kept and the templates. */
  lemma RegeneratedReads(rules: seq<Planned>, manual: Conf)
    requires GoodRules(rules) && AllManual(manual)
    ensures Parse(Unlines(ConfLines(rules, manual))) == Regenerated(rules, manual)
  {
    ConfAreLines(rules, manual);
    var lines := ConfLines(rules, manual);
    forall l | l in lines
      ensures '\n' !in l
    {
      var i :| 0 <= i < |lines| && lines[i] == l;
      assert OneLine(lines[i]);
    }
    LinesBack(lines);
    LinesRead(rules, manual);
  }
}
