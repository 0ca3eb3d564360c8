/** sanoid.conf: printed from the rules, parsed, and compared with them. */
module SanoidConf {
  import opened ConfText
  import opened Replication
  import opened SanoidPolicy

  type Settings = Dict<string>
  type Conf = Dict<Settings>

  /** A rule under the name sanoid.conf gives its dataset. */
  datatype Planned = Planned(name: string, rule: Rule)

  const DRAINED_SETTINGS: Settings :=
    [("autosnap", "no"), ("autoprune", "yes"), ("frequently", "0"), ("hourly", "0"), ("daily", "0"),
     ("weekly", "0"), ("monthly", "0"), ("yearly", "0"), ("recursive", "yes")]
  const PRODUCTION_SETTINGS: Settings :=
    [("frequently", "0"), ("hourly", "24"), ("daily", "7"), ("weekly", "4"), ("monthly", "3"),
     ("yearly", "0"), ("autoprune", "yes"), ("autosnap", "yes")]
  const MINIMAL_SETTINGS: Settings :=
    [("frequently", "0"), ("hourly", "0"), ("daily", "14"), ("weekly", "8"), ("monthly", "3"),
     ("yearly", "0"), ("autoprune", "yes"), ("autosnap", "yes")]

  const TEMPLATE := "template_"
  const TEMPLATE_MINIMAL := "template_minimal"
  const TEMPLATE_PRODUCTION := "template_production"

  predicate IsNote(line: string) {
    line == "" || line[0] == '#'
  }

  function Comment(first: string, rest: string): (line: string)
    ensures IsNote(line)
  {
    "#" + first + rest
  }

  const NOTE_GENERATED := Comment(" Generated by zark setup. Edit ", "freely; zark will ask before overwriting.")
  const NOTE_MANAGED := Comment(" Sections under rpool/* and bpool/* ", "are managed by zark; others are")
  const NOTE_OTHERS := Comment(" preserved untouched across ", "regenerations.")
  const HEADER: seq<string> := [NOTE_GENERATED, NOTE_MANAGED, NOTE_OTHERS, ""]
  const PRESERVED := Comment(" \U{2500}\U{2500} Preserved user sections ", "(not managed by zark) \U{2500}\U{2500}")

  /** What a rule is in the file. */
  function SettingsOf(rule: Rule): Settings {
    match rule.template
    case Drained => DRAINED_SETTINGS
    case NoSnapshots => [("autosnap", "no"), ("autoprune", "no")]
    case Production => [("use_template", "production"), ("recursive", if rule.recursive then "yes" else "no")]
    case Minimal => [("use_template", "minimal"), ("recursive", if rule.recursive then "yes" else "no")]
  }

  predicate IsTemplate(name: string) {
    TEMPLATE <= name
  }

  predicate IsManaged(name: string) {
    !IsTemplate(name) && name[..Find(name, '/')] in ["rpool", "bpool"]
  }

  predicate IsManual(name: string) {
    !IsManaged(name) && !IsTemplate(name)
  }

  // ---- the parser -------------------------------------------------------------------

  datatype Parsing = Parsing(conf: Conf, current: Option<string>)

  predicate IsHeader(line: string) {
    |line| >= 2 && line[0] == '[' && line[|line| - 1] == ']'
  }

  /** The current section is one that was read. */
  predicate InSection(st: Parsing) {
    st.current.Some? ==> Has(st.conf, st.current.value)
  }

  /** What a line says. */
  datatype Line = Skipped | Opens(name: string) | Sets(key: string, value: string)

  function LineOf(line: string): Line {
    if line == "" || line[0] == '#' then Skipped
    else if IsHeader(line) then Opens(Strip(line[1..|line| - 1]))
    else
      var i := Find(line, '=');
      if i == |line| then Skipped else Sets(Strip(line[..i]), Strip(line[i + 1..]))
  }

  function ReadLine(raw: string): Line {
    LineOf(Strip(raw))
  }

  /** One line taken in. */
  function Step(st: Parsing, line: Line): (next: Parsing)
    requires InSection(st)
    ensures InSection(next)
  {
    match line
    case Skipped => st
    case Opens(name) =>
      var entry: Conf := [(name, [])];
      HasJoin(st.conf, entry);
      assert entry[0].0 == name;
      Parsing(if Has(st.conf, name) then st.conf else st.conf + entry, Some(name))
    case Sets(key, value) =>
      if st.current.None? then st
      else st.(conf := Put(st.conf, st.current.value, Put(Get(st.conf, st.current.value), key, value)))
  }

  function ParseLines(lines: seq<string>, st: Parsing): (last: Parsing)
    requires InSection(st)
    ensures InSection(last)
  {
    if lines == [] then st else Step(ParseLines(lines[..|lines| - 1], st), ReadLine(lines[|lines| - 1]))
  }

  const START := Parsing([], None)

  function Parse(text: string): Conf {
    ParseLines(Lines(text), START).conf
  }

  /** Reading a file, line by line. */
  method ParseConf(text: string) returns (conf: Conf)
    ensures conf == Parse(text)
  {
    var st := START;
    var lines := Lines(text);
    for i := 0 to |lines|
      invariant InSection(st) && st == ParseLines(lines[..i], START)
    {
      st := Step(st, ReadLine(lines[i]));
      assert lines[..i + 1][..i] == lines[..i];
    }
    assert lines[..|lines|] == lines;
    conf := st.conf;
  }

  lemma {:induction false} ParseJoin(a: seq<string>, b: seq<string>, st: Parsing)
    requires InSection(st)
    ensures ParseLines(a + b, st) == ParseLines(b, ParseLines(a, st))
  {
    if b == [] {
      assert a + b == a;
    } else {
      var n := |b| - 1;
      var all, m := a + b, |a| + n;
      assert all[..m] == a + b[..n] && all[m] == b[n] && |all| - 1 == m;
      ParseJoin(a, b[..n], st);
      assert ParseLines(all, st) == Step(ParseLines(all[..m], st), ReadLine(all[m]));
    }
  }

  // ---- what a parser can have read --------------------------------------------------

  predicate GoodName(name: string) {
    IsStripped(name) && '\n' !in name
  }

  /** A key and a value that a line can hold and a reader gives back. */
  predicate GoodSetting(key: string, value: string) {
    && IsStripped(key) && IsStripped(value) && '\n' !in key && '\n' !in value && '=' !in key
    && (key == "" || (key[0] != '#' && !(key[0] == '[' && value != "" && value[|value| - 1] == ']')))
  }

  ghost predicate GoodSettings(s: Settings) {
    UniqueKeys(s) && forall i :: 0 <= i < |s| ==> GoodSetting(s[i].0, s[i].1)
  }

  ghost predicate GoodConf(c: Conf) {
    UniqueKeys(c) && forall i :: 0 <= i < |c| ==> GoodName(c[i].0) && GoodSettings(c[i].1)
  }

  lemma {:induction false} PutGoodSettings(s: Settings, key: string, value: string)
    requires GoodSettings(s) && GoodSetting(key, value)
    ensures GoodSettings(Put(s, key, value))
  {
    PutUnique(s, key, value);
    if s != [] && s[0].0 != key {
      PutGoodSettings(s[1..], key, value);
      assert Put(s, key, value)[1..] == Put(s[1..], key, value);
      assert forall i :: 1 <= i < |Put(s, key, value)| ==> Put(s, key, value)[i] == Put(s[1..], key, value)[i - 1];
    }
  }

  lemma {:induction false} PutGoodConf(c: Conf, name: string, s: Settings)
    requires GoodConf(c) && GoodName(name) && GoodSettings(s)
    ensures GoodConf(Put(c, name, s))
  {
    PutUnique(c, name, s);
    if c != [] && c[0].0 != name {
      PutGoodConf(c[1..], name, s);
      assert Put(c, name, s)[1..] == Put(c[1..], name, s);
      assert forall i :: 1 <= i < |Put(c, name, s)| ==> Put(c, name, s)[i] == Put(c[1..], name, s)[i - 1];
    }
  }

  lemma {:induction false} GetGood(c: Conf, name: string)
    requires GoodConf(c) && Has(c, name)
    ensures GoodName(name) && GoodSettings(Get(c, name))
  {
    var i :| 0 <= i < |c| && c[i].0 == name;
    GetAt(c, i);
  }

  lemma GoodParts(line: string, before: string, after: string, key: string, value: string)
    requires line != "" && line[0] != '#' && !IsHeader(line) && '\n' !in line
    requires line == before + "=" + after && '=' !in before
    requires key == Strip(before) && value == Strip(after)
    requires key != "" ==> key[0] == line[0]
    requires value != "" ==> value[|value| - 1] == line[|line| - 1]
    ensures GoodSetting(key, value)
  {
    StripIs(before, '=');
    StripIs(before, '\n');
    StripIs(after, '\n');
  }

  /** What a line gives is good. */
  lemma LineGivesGood(line: string, i: nat)
    requires IsStripped(line) && line != "" && line[0] != '#' && !IsHeader(line) && '\n' !in line
    requires i == Find(line, '=') && i < |line|
    ensures GoodSetting(Strip(line[..i]), Strip(line[i + 1..]))
  {
    var before, after := line[..i], line[i + 1..];
    if before != "" {
      StripKeepsFirst(before);
      assert before[0] == line[0];
    } else {
      StripEmpty();
    }
    if after != "" {
      assert after[|after| - 1] == line[|line| - 1];
      StripKeepsLast(after);
    } else {
      StripEmpty();
    }
    SplitAt(line, i);
    assert Strip(before) != "" ==> Strip(before)[0] == line[0];
    assert Strip(after) != "" ==> Strip(after)[|Strip(after)| - 1] == line[|line| - 1];
    GoodParts(line, before, after, Strip(before), Strip(after));
  }

  ghost predicate GoodLine(line: Line) {
    match line
    case Skipped => true
    case Opens(name) => GoodName(name)
    case Sets(key, value) => GoodSetting(key, value)
  }

  lemma ReadGood(raw: string)
    requires '\n' !in raw
    ensures GoodLine(ReadLine(raw))
  {
    var line := Strip(raw);
    StripIs(raw, '\n');
    if line != "" && line[0] != '#' {
      if IsHeader(line) {
        StripIs(line[1..|line| - 1], '\n');
      } else if Find(line, '=') < |line| {
        LineGivesGood(line, Find(line, '='));
      }
    }
  }

  lemma StepGood(st: Parsing, line: Line)
    requires InSection(st) && GoodConf(st.conf) && GoodLine(line)
    ensures GoodConf(Step(st, line).conf)
  {
    if line.Opens? && !Has(st.conf, line.name) {
      PutNew(st.conf, line.name, []);
      PutGoodConf(st.conf, line.name, []);
    }
    if line.Sets? && st.current.Some? {
      GetGood(st.conf, st.current.value);
      var s := Get(st.conf, st.current.value);
      PutGoodSettings(s, line.key, line.value);
      PutGoodConf(st.conf, st.current.value, Put(s, line.key, line.value));
    }
  }

  lemma {:induction false} ParseGood(lines: seq<string>, st: Parsing)
    requires InSection(st) && GoodConf(st.conf) && forall l :: l in lines ==> '\n' !in l
    ensures GoodConf(ParseLines(lines, st).conf)
  {
    if lines != [] {
      var n := |lines| - 1;
      assert lines[n] in lines;
      ParseGood(lines[..n], st);
      ReadGood(lines[n]);
      StepGood(ParseLines(lines[..n], st), ReadLine(lines[n]));
    }
  }
}
