/** Text as the configuration reader sees it: lines, and lines without the blanks
    around them. Only newline, space and tab separate. */
module ConfText {

  predicate IsBlank(c: char) {
    c == ' ' || c == '\t'
  }

  predicate AllBlank(s: string) {
    forall i :: 0 <= i < |s| ==> IsBlank(s[i])
  }

  predicate IsStripped(s: string) {
    s == "" || (!IsBlank(s[0]) && !IsBlank(s[|s| - 1]))
  }

  function StripLeft(s: string): string {
    if s != "" && IsBlank(s[0]) then StripLeft(s[1..]) else s
  }

  function StripRight(s: string): string {
    if s != "" && IsBlank(s[|s| - 1]) then StripRight(s[..|s| - 1]) else s
  }

  function Strip(s: string): string {
    StripRight(StripLeft(s))
  }

  lemma {:induction false} StripLeftIs(s: string)
    ensures var r := StripLeft(s); |r| <= |s| && r == s[|s| - |r|..] && (r == "" || !IsBlank(r[0]))
  {
    if s != "" && IsBlank(s[0]) {
      StripLeftIs(s[1..]);
    }
  }

  lemma {:induction false} StripRightIs(s: string)
    ensures var r := StripRight(s); |r| <= |s| && r == s[..|r|] && (r == "" || !IsBlank(r[|r| - 1]))
  {
    if s != "" && IsBlank(s[|s| - 1]) {
      StripRightIs(s[..|s| - 1]);
    }
  }

  /** What is stripped has no blanks around it, and brings in no character. */
  lemma StripIs(s: string, c: char)
    ensures IsStripped(Strip(s)) && (c !in s ==> c !in Strip(s))
  {
    StripLeftIs(s);
    StripRightIs(StripLeft(s));
  }

  lemma {:induction false} StripLeftPad(pad: string, s: string)
    requires AllBlank(pad) && (s == "" || !IsBlank(s[0]))
    ensures StripLeft(pad + s) == s
  {
    if pad != "" {
      assert (pad + s)[1..] == pad[1..] + s;
      StripLeftPad(pad[1..], s);
    } else {
      assert pad + s == s;
    }
  }

  lemma {:induction false} StripRightPad(s: string, pad: string)
    requires AllBlank(pad) && (s == "" || !IsBlank(s[|s| - 1]))
    ensures StripRight(s + pad) == s
  {
    if pad != "" {
      var n := |pad| - 1;
      assert (s + pad)[..|s| + n] == s + pad[..n];
      StripRightPad(s, pad[..n]);
    } else {
      assert s + pad == s;
    }
  }

  lemma {:induction false} StripLeftStops(s: string)
    requires s != "" && !IsBlank(s[|s| - 1])
    ensures StripLeft(s) != ""
  {
    if IsBlank(s[0]) {
      StripLeftStops(s[1..]);
    }
  }

  lemma {:induction false} StripRightStops(s: string)
    requires s != "" && !IsBlank(s[0])
    ensures StripRight(s) != ""
  {
    if IsBlank(s[|s| - 1]) {
      StripRightStops(s[..|s| - 1]);
    }
  }

  lemma StripKeepsLast(s: string)
    requires s != "" && !IsBlank(s[|s| - 1])
    ensures Strip(s) != "" && Strip(s)[|Strip(s)| - 1] == s[|s| - 1]
  {
    StripLeftStops(s);
    StripLeftIs(s);
  }

  lemma StripKeepsFirst(s: string)
    requires s != "" && !IsBlank(s[0])
    ensures Strip(s) != "" && Strip(s)[0] == s[0]
  {
    StripRightStops(s);
    StripRightIs(s);
  }

  /** Blanks around a stripped text go, and nothing else. */
  lemma StripPad(left: string, s: string, right: string)
    requires AllBlank(left) && AllBlank(right) && IsStripped(s)
    ensures Strip(left + s + right) == s
  {
    if s == "" {
      assert left + s + right == (left + right) + "";
      StripLeftPad(left + right, "");
    } else {
      assert left + s + right == left + (s + right);
      StripLeftPad(left, s + right);
      StripRightPad(s, right);
    }
  }

  /** The place of a character, or the end. */
  function Find(s: string, c: char): (i: nat)
    ensures i <= |s| && (i < |s| ==> s[i] == c)
    ensures forall j :: 0 <= j < i ==> s[j] != c
  {
    if s == "" || s[0] == c then 0 else 1 + Find(s[1..], c)
  }

  lemma FindAt(before: string, c: char, after: string)
    requires c !in before
    ensures Find(before + [c] + after, c) == |before|
  {
    var s := before + [c] + after;
    var i := Find(s, c);
    assert s[|before|] == c;
    assert forall j :: 0 <= j < |before| ==> s[j] == before[j] && before[j] in before;
  }

  lemma SplitAt(s: string, i: nat)
    requires i < |s|
    ensures s == s[..i] + [s[i]] + s[i + 1..]
  {
  }

  lemma StripEmpty()
    ensures Strip("") == ""
  {
  }

  function Lines(text: string): (lines: seq<string>)
    ensures forall l :: l in lines ==> '\n' !in l
  {
    if text == "" then []
    else
      var i := Find(text, '\n');
      if i == |text| then assert text[..i] == text; [text]
      else assert |text[i + 1..]| < |text|; [text[..i]] + Lines(text[i + 1..])
  }

  /** Each line ended. */
  function Unlines(lines: seq<string>): string {
    if lines == [] then "" else lines[0] + "\n" + Unlines(lines[1..])
  }

  lemma {:induction false} LinesBack(lines: seq<string>)
    requires forall l :: l in lines ==> '\n' !in l
    ensures Lines(Unlines(lines)) == lines
  {
    if lines != [] {
      var l, rest := lines[0], Unlines(lines[1..]);
      assert l in lines;
      var text := Unlines(lines);
      assert text == l + ['\n'] + rest;
      FindAt(l, '\n', rest);
      assert text[..|l|] == l && text[|l| + 1..] == rest;
      LinesBack(lines[1..]);
      assert lines == [l] + lines[1..];
    }
  }

  // ---- dictionaries, in the order their keys came ----------------------------------

  type Dict<V> = seq<(string, V)>

  predicate Has<V>(d: Dict<V>, k: string) {
    exists i :: 0 <= i < |d| && d[i].0 == k
  }

  function Get<V>(d: Dict<V>, k: string): V
    requires Has(d, k)
  {
    if d[0].0 == k then d[0].1 else
      assert Has(d[1..], k) by {
        var i :| 0 <= i < |d| && d[i].0 == k;
        assert d[1..][i - 1].0 == k;
      }
      Get(d[1..], k)
  }

  function Put<V>(d: Dict<V>, k: string, v: V): (r: Dict<V>)
    ensures Has(r, k) && forall j :: Has(r, j) <==> Has(d, j) || j == k
  {
    if d == [] then assert [(k, v)][0].0 == k; [(k, v)]
    else if d[0].0 == k then
      var r := [(k, v)] + d[1..];
      HasHead(d);
      HasHead(r);
      r
    else
      var r := [d[0]] + Put(d[1..], k, v);
      HasHead(d);
      HasHead(r);
      r
  }

  lemma HasHead<V>(d: Dict<V>)
    requires d != []
    ensures forall j :: Has(d, j) <==> j == d[0].0 || Has(d[1..], j)
  {
    forall j
      ensures Has(d, j) <==> j == d[0].0 || Has(d[1..], j)
    {
      if Has(d, j) {
        var i :| 0 <= i < |d| && d[i].0 == j;
        assert i > 0 ==> d[1..][i - 1].0 == j;
      }
      if Has(d[1..], j) {
        var i :| 0 <= i < |d[1..]| && d[1..][i].0 == j;
        assert d[i + 1].0 == j;
      }
    }
  }

  ghost predicate UniqueKeys<V>(d: Dict<V>) {
    forall i, j :: 0 <= i < j < |d| ==> d[i].0 != d[j].0
  }

  /** A key that is not there comes last. */
  lemma {:induction false} PutNew<V>(d: Dict<V>, k: string, v: V)
    requires !Has(d, k)
    ensures Put(d, k, v) == d + [(k, v)]
  {
    if d != [] {
      HasHead(d);
      PutNew(d[1..], k, v);
    }
  }

  /** A key that is the last keeps its place. */
  lemma {:induction false} PutLast<V>(d: Dict<V>, k: string, v: V, w: V)
    requires !Has(d, k)
    ensures Has(d + [(k, v)], k) && Get(d + [(k, v)], k) == v && Put(d + [(k, v)], k, w) == d + [(k, w)]
  {
    var all := d + [(k, v)];
    assert all[|d|].0 == k;
    if d != [] {
      HasHead(d);
      assert all[1..] == d[1..] + [(k, v)];
      PutLast(d[1..], k, v, w);
      assert all[0] == d[0];
    }
  }

  /** Putting what is there changes nothing. */
  lemma {:induction false} PutSame<V>(d: Dict<V>, k: string)
    requires Has(d, k)
    ensures Put(d, k, Get(d, k)) == d
  {
    if d[0].0 != k {
      HasHead(d);
      PutSame(d[1..], k);
    }
  }

  lemma {:induction false} PutGet<V>(d: Dict<V>, k: string, v: V, j: string)
    requires Has(d, j) || j == k
    ensures Get(Put(d, k, v), j) == if j == k then v else Get(d, j)
    decreases |d|
  {
    if d != [] && d[0].0 != k {
      HasHead(d);
      if j != d[0].0 {
        PutGet(d[1..], k, v, j);
      }
      assert Put(d, k, v)[1..] == Put(d[1..], k, v);
    } else if d != [] {
      HasHead(d);
      assert Put(d, k, v)[1..] == d[1..];
    }
  }

  lemma FirstIsNew<V>(d: Dict<V>)
    requires UniqueKeys(d) && d != []
    ensures !Has(d[1..], d[0].0)
  {
    forall i | 0 <= i < |d[1..]|
      ensures d[1..][i].0 != d[0].0
    {
      assert d[1..][i] == d[i + 1];
    }
  }

  lemma {:induction false} PutUnique<V>(d: Dict<V>, k: string, v: V)
    requires UniqueKeys(d)
    ensures UniqueKeys(Put(d, k, v))
  {
    if d != [] && d[0].0 != k {
      HasHead(d);
      PutUnique(d[1..], k, v);
      var r := Put(d[1..], k, v);
      FirstIsNew(d);
      forall j | 0 <= j < |r|
        ensures r[j].0 != d[0].0
      {
        assert Has(r, r[j].0);
      }
    }
  }

  lemma {:induction false} GetAt<V>(d: Dict<V>, i: nat)
    requires UniqueKeys(d) && i < |d|
    ensures Has(d, d[i].0) && Get(d, d[i].0) == d[i].1
  {
    if i > 0 {
      GetAt(d[1..], i - 1);
    }
  }

  lemma LastIsNew<V>(d: Dict<V>)
    requires UniqueKeys(d) && d != []
    ensures !Has(d[..|d| - 1], d[|d| - 1].0)
  {
  }

  lemma JoinLast<V>(a: Dict<V>, d: Dict<V>)
    requires d != []
    ensures a + d[..|d| - 1] + [d[|d| - 1]] == a + d
  {
  }

  lemma HasJoin<V>(a: Dict<V>, b: Dict<V>)
    ensures forall k :: Has(a + b, k) <==> Has(a, k) || Has(b, k)
  {
    var all := a + b;
    forall k
      ensures Has(all, k) <==> Has(a, k) || Has(b, k)
    {
      if Has(all, k) {
        var i :| 0 <= i < |all| && all[i].0 == k;
        assert if i < |a| then a[i].0 == k else b[i - |a|].0 == k;
      }
      if i :| 0 <= i < |a| && a[i].0 == k {
        assert all[i].0 == k;
      }
      if i :| 0 <= i < |b| && b[i].0 == k {
        assert all[|a| + i].0 == k;
      }
    }
  }

  lemma {:induction false} GetJoin<V>(a: Dict<V>, b: Dict<V>, k: string)
    requires Has(a, k) || Has(b, k)
    ensures Has(a + b, k) && Get(a + b, k) == if Has(a, k) then Get(a, k) else Get(b, k)
  {
    HasJoin(a, b);
    if a == [] {
      assert a + b == b;
    } else {
      HasHead(a);
      assert (a + b)[1..] == a[1..] + b;
      if a[0].0 != k {
        GetJoin(a[1..], b, k);
      }
    }
  }
}
