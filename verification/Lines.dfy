/** Text as lines, the way `strings.Split`, `Join` and the trimming functions see it. */
module Lines {

  function Split(s: string): (r: seq<string>)
    ensures r != []
  {
    if s == "" then [""]
    else if s[0] == '\n' then [""] + Split(s[1..])
    else var r := Split(s[1..]); [[s[0]] + r[0]] + r[1..]
  }

  function Join(parts: seq<string>, sep: string): string {
    if parts == [] then "" else if |parts| == 1 then parts[0] else parts[0] + sep + Join(parts[1..], sep)
  }

  /** Each line with its end. */
  function Unlines(ls: seq<string>): string {
    if ls == [] then "" else ls[0] + "\n" + Unlines(ls[1..])
  }

  predicate OneLine(s: string) {
    '\n' !in s
  }

  predicate OneLines(ls: seq<string>) {
    forall i | 0 <= i < |ls| :: OneLine(ls[i])
  }

  lemma {:induction false} SplitOneLine(l: string)
    requires OneLine(l)
    ensures Split(l) == [l]
  {
    if l != "" {
      SplitOneLine(l[1..]);
      assert [l[0]] + l[1..] == l;
    }
  }

  lemma {:induction false} SplitFirst(l: string, rest: string)
    requires OneLine(l)
    ensures Split(l + "\n" + rest) == [l] + Split(rest)
  {
    if l == "" {
      assert l + "\n" + rest == "\n" + rest;
    } else {
      SplitFirst(l[1..], rest);
      assert (l + "\n" + rest)[1..] == l[1..] + "\n" + rest;
      assert [l[0]] + l[1..] == l;
    }
  }

  lemma {:induction false} SplitUnlines(ls: seq<string>, rest: string)
    requires OneLines(ls)
    ensures Split(Unlines(ls) + rest) == ls + Split(rest)
  {
    if ls == [] {
      assert Unlines(ls) + rest == rest;
    } else {
      SplitUnlines(ls[1..], rest);
      SplitFirst(ls[0], Unlines(ls[1..]) + rest);
      assert Unlines(ls) + rest == ls[0] + "\n" + (Unlines(ls[1..]) + rest);
    }
  }

  lemma {:induction false} SplitJoin(ls: seq<string>)
    requires ls != [] && OneLines(ls)
    ensures Split(Join(ls, "\n")) == ls
  {
    if |ls| == 1 {
      SplitOneLine(ls[0]);
    } else {
      SplitJoin(ls[1..]);
      SplitFirst(ls[0], Join(ls[1..], "\n"));
    }
  }

  lemma {:induction false} UnlinesConcat(a: seq<string>, b: seq<string>)
    ensures Unlines(a + b) == Unlines(a) + Unlines(b)
  {
    if a == [] {
      assert a + b == b;
    } else {
      UnlinesConcat(a[1..], b);
      assert (a + b)[0] == a[0] && (a + b)[1..] == a[1..] + b;
    }
  }

  lemma {:induction false} UnlinesIsJoin(ls: seq<string>)
    requires ls != []
    ensures Unlines(ls) == Join(ls, "\n") + "\n"
  {
    if |ls| > 1 {
      UnlinesIsJoin(ls[1..]);
    }
  }

  lemma {:induction false} SplitGivesOneLines(s: string)
    ensures OneLines(Split(s)) && Join(Split(s), "\n") == s
  {
    if s != "" {
      SplitGivesOneLines(s[1..]);
      var r := Split(s[1..]);
      if s[0] == '\n' {
        assert ([""] + r)[1..] == r;
        assert s == "\n" + s[1..];
      } else {
        assert ([[s[0]] + r[0]] + r[1..])[1..] == r[1..];
        assert s == [s[0]] + s[1..];
      }
    }
  }

  function CutSuffix(s: string, suffix: string): (r: (string, bool))
    ensures r.1 ==> s == r.0 + suffix
    ensures !r.1 ==> r.0 == s
  {
    if |suffix| <= |s| && s[|s| - |suffix|..] == suffix then
      assert s == s[..|s| - |suffix|] + suffix;
      (s[..|s| - |suffix|], true)
    else (s, false)
  }

  function TrimRight(s: string, c: char): (r: string)
    ensures r <= s && (r != "" ==> r[|r| - 1] != c)
    ensures s == "" || s[|s| - 1] != c ==> r == s
  {
    if s != "" && s[|s| - 1] == c then TrimRight(s[..|s| - 1], c) else s
  }

  function TrimLeft(s: string, c: char): (r: string)
    ensures |r| <= |s| && r == s[|s| - |r|..] && (r != "" ==> r[0] != c)
    ensures forall i | 0 <= i < |s| - |r| :: s[i] == c
  {
    if s != "" && s[0] == c then TrimLeft(s[1..], c) else s
  }

  /** The text cut at every space. */
  function Words(s: string): (ws: seq<string>)
    ensures ws != []
  {
    if s == "" then [""]
    else if s[0] == ' ' then [""] + Words(s[1..])
    else var ws := Words(s[1..]); [[s[0]] + ws[0]] + ws[1..]
  }

  lemma {:induction false} WordsJoin(s: string)
    ensures Join(Words(s), " ") == s
  {
    if s != "" {
      WordsJoin(s[1..]);
      var ws := Words(s[1..]);
      assert s == [s[0]] + s[1..];
      if s[0] == ' ' {
        assert ([""] + ws)[1..] == ws;
      } else {
        assert ([[s[0]] + ws[0]] + ws[1..])[1..] == ws[1..];
      }
    }
  }

  /** Words are made of the text's characters other than the space. */
  lemma {:induction false} WordsLack(s: string, c: char)
    requires c == ' ' || c !in s
    ensures forall w | w in Words(s) :: c !in w
  {
    if s != "" {
      WordsLack(s[1..], c);
      var ws := Words(s[1..]);
      assert ws[0] in ws;
      assert s[0] != ' ' ==> c !in [s[0]] + ws[0];
    }
  }

  lemma OneLineConcat(a: string, b: string)
    ensures OneLine(a + b) <==> OneLine(a) && OneLine(b)
  {
    if OneLine(a + b) {
      assert forall c | c in a :: c in a + b;
      assert forall c | c in b :: c in a + b;
    }
  }

  predicate IsSpace(c: char) {
    c in {'\t', '\n', '\U{0B}', '\U{0C}', '\r', ' ', '\U{85}', '\U{A0}', '\U{1680}', '\U{2028}', '\U{2029}', '\U{202F}',
          '\U{205F}', '\U{3000}'} || '\U{2000}' <= c <= '\U{200A}'
  }

  function TrimSpace(s: string): string
    decreases |s|
  {
    if s == "" then s
    else if IsSpace(s[0]) then TrimSpace(s[1..])
    else if IsSpace(s[|s| - 1]) then TrimSpace(s[..|s| - 1])
    else s
  }

  lemma {:induction false} TrimIndented(s: string)
    requires s != "" && !IsSpace(s[0]) && !IsSpace(s[|s| - 1])
    ensures TrimSpace(s) == s && TrimSpace("    " + s) == s
  {
    hide IsSpace;
    assert IsSpace(' ') by { SpaceIsSpace(); }
    assert TrimSpace(" " + s) == s by { assert (" " + s)[1..] == s; }
    assert TrimSpace("  " + s) == s by { assert ("  " + s)[1..] == " " + s; }
    assert TrimSpace("   " + s) == s by { assert ("   " + s)[1..] == "  " + s; }
    assert ("    " + s)[1..] == "   " + s;
  }

  lemma SpaceIsSpace()
    ensures IsSpace(' ') && !IsSpace('r') && !IsSpace(';') && !IsSpace('i') && !IsSpace('{') && !IsSpace('}') && !IsSpace('#') && !IsSpace('.')
  {
  }
}
