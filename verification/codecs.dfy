/** An encoder as the records need one exists: what it writes is read back, and no
    two texts have one digest. */
module Codecs {
  import opened Replication
  import opened PointRecords

  // ---- words that end by themselves -------------------------------------------------

  function Quoted(s: string): string {
    if s == "" then "." else "+" + [s[0]] + Quoted(s[1..])
  }

  function NameText(n: Name): string {
    if n == [] then "." else "+" + (Quoted(n[0]) + NameText(n[1..]))
  }

  lemma HeadBack(c: char, a: string, d: char, b: string, x: string, y: string)
    requires [c] + a + x == [d] + b + y
    ensures c == d && a + x == b + y
  {
    assert ([c] + a + x)[0] == c && ([d] + b + y)[0] == d;
    assert ([c] + a + x)[1..] == a + x && ([d] + b + y)[1..] == b + y;
  }

  lemma {:induction false} QuotedBack(s: string, t: string, x: string, y: string)
    requires Quoted(s) + x == Quoted(t) + y
    ensures s == t && x == y
  {
    var a, b := Quoted(s) + x, Quoted(t) + y;
    assert a[0] == Quoted(s)[0] && b[0] == Quoted(t)[0];
    if s == "" {
      assert x == a[1..] && y == b[1..];
    } else {
      assert a[1] == s[0] && b[1] == t[0];
      assert Quoted(s[1..]) + x == a[2..] && Quoted(t[1..]) + y == b[2..];
      QuotedBack(s[1..], t[1..], x, y);
      assert s == [s[0]] + s[1..] && t == [t[0]] + t[1..];
    }
  }

  lemma {:induction false} NameBack(n: Name, m: Name, x: string, y: string)
    requires NameText(n) + x == NameText(m) + y
    ensures n == m && x == y
  {
    assert (NameText(n) + x)[0] == NameText(n)[0] && (NameText(m) + y)[0] == NameText(m)[0];
    if n == [] {
      assert x == (NameText(n) + x)[1..] && y == (NameText(m) + y)[1..];
    } else {
      var p, q := NameText(n[1..]), NameText(m[1..]);
      HeadBack('+', Quoted(n[0]) + p, '+', Quoted(m[0]) + q, x, y);
      PairBack(n[0], p, m[0], q, x, y);
      NameBack(n[1..], m[1..], x, y);
      assert n == [n[0]] + n[1..] && m == [m[0]] + m[1..];
    }
  }

  lemma PairBack(s: string, p: string, t: string, q: string, x: string, y: string)
    requires Quoted(s) + p + x == Quoted(t) + q + y
    ensures s == t && p + x == q + y
  {
    Regroup(Quoted(s), p, x);
    Regroup(Quoted(t), q, y);
    QuotedBack(s, t, p + x, q + y);
  }

  // ---- values -----------------------------------------------------------------------

  function Ticks(n: nat): string {
    seq(n, i => '1')
  }

  ghost function Dumps(j: Json): string
    decreases j, 1, 0
  {
    match j
    case Null => "n"
    case Bool(b) => if b then "t" else "f"
    case Int(n) => if n >= 0 then "i" + Quoted(Ticks(n)) else "m" + Quoted(Ticks(-n))
    case Text(s) => "s" + Quoted(s)
    case Pair(a, b) => "p" + (Quoted(a) + Quoted(b))
    case Object(fields) => "o" + FieldsText(j, fields.Keys)
  }

  /** The fields one after another, in some order. */
  ghost function FieldsText(j: Json, keys: set<Name>): string
    requires j.Object? && keys <= j.fields.Keys
    decreases j, 0, |keys|
  {
    if keys == {} then "."
    else
      var k :| k in keys;
      "+" + (NameText(k) + (Dumps(j.fields[k]) + FieldsText(j, keys - {k})))
  }

  /** A value's text ends by itself and tells the value. */
  lemma {:induction false} DumpsBack(j: Json, k: Json, x: string, y: string)
    requires Dumps(j) + x == Dumps(k) + y
    ensures j == k && x == y
    decreases j, 1, 0
  {
    var s, t := Dumps(j), Dumps(k);
    assert s == [s[0]] + s[1..] && t == [t[0]] + t[1..];
    HeadBack(s[0], s[1..], t[0], t[1..], x, y);
    match j
    case Null =>
      assert s[1..] + x == x && t[1..] + y == y;
    case Bool(_) =>
      assert s[1..] + x == x && t[1..] + y == y;
    case Int(n) =>
      QuotedBack(Ticks(if n >= 0 then n else -n), Ticks(if k.n >= 0 then k.n else -k.n), x, y);
    case Text(a) =>
      QuotedBack(a, k.s, x, y);
    case Pair(a, b) =>
      PairBack(a, Quoted(b), k.first, Quoted(k.second), x, y);
      QuotedBack(b, k.second, x, y);
    case Object(fields) =>
      FieldsBack(j, fields.Keys, k, k.fields.Keys, x, y);
      assert fields == k.fields;
  }

  /** Two texts of some fields, each with its first field taken off. */
  lemma FieldBack(n: Name, j: Json, p: string, m: Name, k: Json, q: string, x: string, y: string)
    requires "+" + (NameText(n) + (Dumps(j) + p)) + x == "+" + (NameText(m) + (Dumps(k) + q)) + y
    ensures n == m && Dumps(j) + (p + x) == Dumps(k) + (q + y)
  {
    HeadBack('+', NameText(n) + (Dumps(j) + p), '+', NameText(m) + (Dumps(k) + q), x, y);
    Regroup(NameText(n), Dumps(j) + p, x);
    Regroup(NameText(m), Dumps(k) + q, y);
    NameBack(n, m, Dumps(j) + p + x, Dumps(k) + q + y);
    Regroup(Dumps(j), p, x);
    Regroup(Dumps(k), q, y);
  }

  lemma FirstField(j: Json, ks: set<Name>) returns (n: Name)
    requires j.Object? && ks <= j.fields.Keys && ks != {}
    ensures n in ks && FieldsText(j, ks) == "+" + (NameText(n) + (Dumps(j.fields[n]) + FieldsText(j, ks - {n})))
  {
    n :| n in ks && FieldsText(j, ks) == "+" + (NameText(n) + (Dumps(j.fields[n]) + FieldsText(j, ks - {n})));
  }

  lemma {:induction false} FieldsBack(j: Json, ks: set<Name>, k: Json, ls: set<Name>, x: string, y: string)
    requires j.Object? && ks <= j.fields.Keys && k.Object? && ls <= k.fields.Keys
    requires FieldsText(j, ks) + x == FieldsText(k, ls) + y
    ensures ks == ls && x == y && forall n :: n in ks ==> j.fields[n] == k.fields[n]
    decreases j, 0, |ks|
  {
    var s, t := FieldsText(j, ks), FieldsText(k, ls);
    assert (s + x)[0] == s[0] && (t + y)[0] == t[0];
    if ks == {} {
      assert x == (s + x)[1..] && y == (t + y)[1..];
    } else {
      var n := FirstField(j, ks);
      var m := FirstField(k, ls);
      var p, q := FieldsText(j, ks - {n}), FieldsText(k, ls - {m});
      FieldBack(n, j.fields[n], p, m, k.fields[m], q, x, y);
      DumpsBack(j.fields[n], k.fields[m], p + x, q + y);
      FieldsBack(j, ks - {n}, k, ls - {m}, x, y);
      assert ks == ks - {n} + {n} && ls == ls - {m} + {m};
    }
  }

  // ---- the codec --------------------------------------------------------------------

  ghost function Loads(s: string): Option<Json> {
    if exists j :: Dumps(j) == s then
      var j :| Dumps(j) == s;
      Some(j)
    else None
  }

  /** With the text itself for a digest. */
  lemma SomeCodecIsValid()
    ensures exists c: Codec :: c.Valid()
  {
    var c := Codec(Dumps, Loads, (s: string) => s);
    forall j: Json
      ensures Loads(Dumps(j)) == Some(j)
    {
      if k: Json :| Dumps(k) == Dumps(j) {
        assert Loads(Dumps(j)).Some? && Dumps(Loads(Dumps(j)).value) == Dumps(j);
        DumpsBack(Loads(Dumps(j)).value, j, "", "");
      }
    }
    assert c.Valid();
  }
}
