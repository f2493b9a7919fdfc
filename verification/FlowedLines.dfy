/** Flowed text by its characters alone: which lines stay as typed, what a line comes back as,
    which written lines start with "From ", and when two lines join. */
module FlowedLines {
  import opened Lines
  import opened Flowed

  /** A line of one quote depth. */
  function Quoted(m: string, a: string): string {
    if m == "" then a else m + " " + a
  }

  predicate Marks(m: string) {
    forall c | c in m :: c == '>'
  }

  lemma {:induction false} TrimEnds(a: string, n: nat)
    requires a == "" || a[|a| - 1] != ' '
    ensures TrimRight(a + Repeated(' ', n), ' ') == a
    decreases n
  {
    var s := a + Repeated(' ', n);
    if n == 0 {
      assert s == a;
    } else {
      assert s[..|s| - 1] == a + Repeated(' ', n - 1);
      TrimEnds(a, n - 1);
    }
  }

  lemma Unquoted(a: string)
    requires a == "" || a[0] != '>'
    ensures Markers(a) == ""
  {
    MarkersAre(a);
  }

  /** Spaces typed behind an unquoted line are not sent; the signature mark keeps its own. */
  lemma TrimmedIs(a: string, n: nat)
    requires a == "" || (a[0] != '>' && a[|a| - 1] != ' ')
    ensures Trimmed(a + Repeated(' ', n)) == if a == "--" && n == 1 then "-- " else a
  {
    hide Markers, TrimRight;
    var s := a + Repeated(' ', n);
    Unquoted(s);
    TrimEnds(a, n);
    assert a == "--" && n == 1 ==> s == "-- ";
    if s == "-- " { MarkIs(a, n); }
  }

  lemma MarkIs(a: string, n: nat)
    requires (a == "" || a[|a| - 1] != ' ') && a + Repeated(' ', n) == "-- "
    ensures n == 1 && a == "--"
  {
    var s := a + Repeated(' ', n);
    assert |s| == 3 && s[0] == '-' && s[1] == '-' && s[2] == ' ';
    assert forall i | |a| <= i < |s| :: s[i] == ' ';
    assert a != "" ==> a[|a| - 1] == s[|a| - 1];
    assert a == s[..|a|];
  }

  lemma QuotedTrimmed(m: string, a: string)
    requires m != "" && Marks(m) && (a == "" || a[0] != '>')
    ensures Markers(m + a) == m && Trimmed(m + a) == m + a && Content(m + a) == (if " " <= a then a[1..] else a)
  {
    hide TrimLeft;
    TrimMarkers(m, a);
    assert (m + a)[..|m|] == m && (m + a)[|m|..] == a;
  }

  /** What a typed line is to come back as: itself, less its line end and the spaces behind it;
      a quoted line with one space behind its markers, typed or not. */
  lemma NormalIs(m: string, a: string, n: nat, end: string)
    requires Marks(m) && (a == "" || a[0] != '>') && '\r' !in a && (end == "" || end == "\r")
    ensures m == "" && (a == "" || a[|a| - 1] != ' ') ==>
      Normal(a + Repeated(' ', n) + end) == if a == "--" && n == 1 then "-- " else a
    ensures m != "" ==> Normal(m + a + end) == m + " " + if " " <= a then a[1..] else a
  {
    hide Markers, Trimmed, Content, CutSuffix;
    if m == "" {
      var s := a + Repeated(' ', n);
      assert s != "" ==> s[|s| - 1] == ' ' || s[|s| - 1] in a;
      CutReturn(s, end);
      if a == "" || a[|a| - 1] != ' ' {
        TrimmedIs(a, n);
        Unquoted(a);
        Unquoted("-- ");
      }
    } else {
      assert m + a != "" && ((m + a)[|m + a| - 1] in m || (m + a)[|m + a| - 1] in a);
      CutReturn(m + a, end);
      QuotedTrimmed(m, a);
    }
  }

  /** A line of at most 72 octets or an indented one is sent as it is, but for the stuffing
      before a space or "From ". */
  lemma ShortLinesStay(line: string, end: string)
    requires '\r' !in line && (end == "" || end == "\r")
    requires line == "" || line == "-- " || line[0] == '>' || line[|line| - 1] != ' '
    requires |line| <= 72 || " " <= line || "\t" <= line
    ensures WrapLine(line + end) == [(if " " <= line || "From " <= line then " " else "") + line + end]
  {
    hide Fill, Words, Content, Lead, Emitted, Trimmed, CutSuffix;
    assert line != "" ==> line[|line| - 1] in line;
    CutsEnd(line, end);
    TrimmedStays(line);
    assert "" + line + end == line + end;
  }

  lemma TrimmedStays(line: string)
    requires line == "" || line == "-- " || line[0] == '>' || line[|line| - 1] != ' '
    ensures Trimmed(line) == line
  {
    hide Markers, TrimRight;
    MarkersAre(line);
  }

  lemma CutsEnd(line: string, end: string)
    requires (end == "" || end == "\r") && (line == "" || line[|line| - 1] != '\r')
    ensures CutSuffix(line + end, "\r") == (line, end == "\r")
  {
    if end == "\r" {
      assert (line + end)[|line|..] == "\r" && (line + end)[..|line|] == line;
    } else {
      assert line + end == line;
    }
  }

  // ----- lines that start with "From "

  lemma StuffedFrom(x: string, tail: string)
    requires tail == "" || tail == "\r" || tail == " " || tail == " \r"
    ensures "From " <= Stuffed(x) + tail <==> x == "From" && " " <= tail
  {
    var s := Stuffed(x) + tail;
    assert !NeedsStuffing("From") by { assert "From"[0] == 'F' && |"From"| == 4; }
    if NeedsStuffing(x) {
      assert s[0] == ' ' && "From "[0] == 'F';
    } else {
      FromPrefix(x, tail);
    }
  }

  lemma FromPrefix(x: string, tail: string)
    requires tail == "" || tail == "\r" || tail == " " || tail == " \r"
    ensures "From " <= x + tail <==> "From " <= x || (x == "From" && " " <= tail)
  {
    var s := x + tail;
    if |x| >= 5 {
      assert x[..5] == s[..5];
    } else if "From " <= s {
      assert s[0] == 'F' && s[1] == 'r' && s[2] == 'o' && s[3] == 'm' && s[4] == ' ';
      assert s[|x|] == tail[0];
      assert x == s[..|x|];
    }
  }

  lemma EndHasNoSpace(cr: string)
    requires cr == "" || cr == "\r"
    ensures !(" " <= cr)
  {
    assert cr != "" ==> cr[0] == '\r';
  }

  lemma {:induction false} EmittedFrom(lead: string, ps: seq<string>, cr: string)
    requires ps != [] && (cr == "" || cr == "\r")
    ensures (exists i | 0 <= i < |ps| :: "From " <= Emitted(lead, ps, cr)[i])
       <==> exists i | 0 <= i < |ps| - 1 :: lead + ps[i] == "From"
    decreases |ps|
  {
    hide Stuffed;
    var es := Emitted(lead, ps, cr);
    if |ps| == 1 {
      StuffedFrom(lead + ps[0], cr);
      EndHasNoSpace(cr);
      assert es[0] == Stuffed(lead + ps[0]) + cr;
    } else {
      var rest := Emitted(lead, ps[1..], cr);
      StuffedFrom(lead + ps[0], " " + cr);
      assert es[0] == Stuffed(lead + ps[0]) + (" " + cr);
      EmittedFrom(lead, ps[1..], cr);
      SomeOf(es, rest, lead, ps);
    }
  }

  lemma SomeOf(es: seq<string>, rest: seq<string>, lead: string, ps: seq<string>)
    requires |ps| > 1 && |es| == |ps| && es[1..] == rest
    requires "From " <= es[0] <==> lead + ps[0] == "From"
    requires (exists i | 0 <= i < |ps| - 1 :: "From " <= rest[i]) <==> exists i | 0 <= i < |ps| - 2 :: lead + ps[1..][i] == "From"
    ensures (exists i | 0 <= i < |ps| :: "From " <= es[i]) <==> exists i | 0 <= i < |ps| - 1 :: lead + ps[i] == "From"
  {
    if i :| 0 <= i < |ps| && "From " <= es[i] {
      if i > 0 {
        assert rest[i - 1] == es[i];
        var j :| 0 <= j < |ps| - 2 && lead + ps[1..][j] == "From";
        assert ps[1..][j] == ps[j + 1];
      }
    }
    if i :| 0 <= i < |ps| - 1 && lead + ps[i] == "From" {
      if i > 0 {
        assert ps[1..][i - 1] == ps[i];
        var j :| 0 <= j < |ps| - 1 && "From " <= rest[j];
        assert es[j + 1] == rest[j];
      }
    }
  }

  /** No line is written that starts with "From ", but where the word stands alone on a line
      broken behind it: the space that marks the break is not seen by the stuffing. */
  lemma FromExactly(raw: string)
    ensures var t := Trimmed(CutSuffix(raw, "\r").0);
      (exists i | 0 <= i < |WrapLine(raw)| :: "From " <= WrapLine(raw)[i]) <==>
        !LeftAlone(t) && Markers(t) == "" && exists i | 0 <= i < |Pieces(t)| - 1 :: Pieces(t)[i] == "From"
  {
    hide Trimmed, Markers, Stuffed, Fill, Emitted, Content;
    var (line, cr) := CutSuffix(raw, "\r");
    var t, end := Trimmed(line), if cr then "\r" else "";
    if LeftAlone(t) {
      StuffedFrom(t, end);
      EndHasNoSpace(end);
      assert WrapLine(raw) == [Stuffed(t) + end];
    } else {
      EmittedFrom(Lead(t), Pieces(t), end);
      assert WrapLine(raw) == Emitted(Lead(t), Pieces(t), end) && |WrapLine(raw)| == |Pieces(t)|;
      LeadFrom(t);
    }
  }

  lemma LeadFrom(t: string)
    ensures forall p: string :: Lead(t) + p == "From" <==> Markers(t) == "" && p == "From"
  {
    MarkersAre(t);
    hide Markers;
    if Markers(t) != "" {
      var m := Markers(t);
      assert m[0] in m;
      forall p: string
        ensures Lead(t) + p != "From"
      {
        assert (Lead(t) + p)[0] == '>';
      }
    } else {
      forall p: string
        ensures Lead(t) + p == p
      {
      }
    }
  }

  /** The word before one of 68 octets. */
  lemma FromAlone(w: string)
    requires |w| >= 68 && ' ' !in w && '\r' !in w
    ensures WrapLine("From " + w)[0] == "From "
  {
    hide WrapLine, Words, Markers, Trimmed, CutSuffix, Content, Fill;
    var t := "From " + w;
    assert w[|w| - 1] in w;
    CutsEnd(t, "");
    assert t + "" == t;
    PlainFrom(t);
    assert t == "From" + " " + w;
    TwoWords("From", w);
    FillTwo("From", w);
    FromWrapped(t, w);
  }

  lemma FromWrapped(t: string, w: string)
    requires CutSuffix(t, "\r") == (t, false) && Trimmed(t) == t && Markers(t) == "" && !LeftAlone(t)
    requires Fill(0, "", Words(Content(t))) == ["From", w]
    ensures WrapLine(t)[0] == "From "
  {
    hide Words, Markers, Trimmed, CutSuffix, Content, Fill;
    assert Emitted("", ["From", w], "")[0] == Stuffed("" + "From") + " " + "";
  }

  lemma PlainFrom(t: string)
    requires "From " <= t && t[|t| - 1] != ' '
    ensures Trimmed(t) == t && Markers(t) == "" && Content(t) == t && !(" " <= t) && !("\t" <= t)
  {
    hide TrimRight;
    assert t[0] == 'F';
    Unquoted(t);
  }

  lemma TwoWords(a: string, b: string)
    requires ' ' !in a && ' ' !in b
    ensures Words(a + " " + b) == [a, b]
    decreases |a|
  {
    if a == "" {
      assert a + " " + b == " " + b && (" " + b)[1..] == b;
      OneWord(b);
    } else {
      assert a[0] in a && forall c | c in a[1..] :: c in a;
      assert (a + " " + b)[1..] == a[1..] + " " + b;
      TwoWords(a[1..], b);
      assert [a[0]] + a[1..] == a;
    }
  }

  lemma {:induction false} OneWord(w: string)
    requires ' ' !in w
    ensures Words(w) == [w]
  {
    if w != "" {
      OneWord(w[1..]);
      assert w == [w[0]] + w[1..];
    }
  }

  lemma FillTwo(a: string, w: string)
    requires |a| == 4 && |w| >= 68
    ensures Fill(0, "", [a, w]) == [a, w]
  {
    assert Fill(0, w, []) == [w];
    assert [a, w][1..] == [w] && [w][1..] == [];
    assert Fill(0, a, [w]) == [a] + Fill(0, w, []);
  }

  // ----- two lines

  /** A line of the depth its markers tell, sent without stuffing. */
  predicate Plain(m: string, a: string) {
    && Marks(m) && OneLine(m) && OneLine(a) && '\r' !in a && (m == "" ==> a == "" || (a[0] != '>' && a[0] != ' '))
  }

  lemma PlainParsed(m: string, a: string)
    requires Plain(m, a)
    ensures Parsed(Quoted(m, a)) == (|m|, a) && Opening(Quoted(m, a)) == if m == "" then "" else m + " "
  {
    hide Parsed, Repeated;
    assert a != "" ==> a[|a| - 1] in a;
    RepeatedMarkers(m);
    if m == "" {
      ParsedPlain(a, false, "");
      assert a + "" == a;
    } else {
      ParsedQuoted(m, a, "");
      assert m + " " + a + "" == m + " " + a;
    }
  }

  lemma SoftParsed(m: string, a: string, delSp: bool)
    requires Plain(m, a) && a != "" && a != "--"
    ensures var line := Quoted(m, a + " ");
      && Parsed(line) == (|m|, a + " ") && Opening(line) == (if m == "" then "" else m + " ") && Soft(line) && Said(line, delSp) == a + if delSp then "" else " "
  {
    hide Parsed;
    assert Plain(m, a + " ") by { OneLineConcat(a, " "); }
    PlainParsed(m, a + " ");
    SoftPiece(a);
    assert (a + " ")[..|a|] == a;
    assert a + "" == a;
  }

  lemma HardSaid(m: string, a: string, delSp: bool)
    requires Plain(m, a) && a != "-- " && (a == "" || a[|a| - 1] != ' ')
    ensures Parsed(Quoted(m, a)) == (|m|, a) && Said(Quoted(m, a), delSp) == a
    ensures Opening(Quoted(m, a)) == if m == "" then "" else m + " "
  {
    hide Parsed;
    PlainParsed(m, a);
    assert !IsSoft(a);
  }

  lemma SameMarks(m: string, n: string)
    requires Marks(m) && Marks(n)
    ensures m == n <==> |m| == |n|
  {
    assert (forall i | 0 <= i < |m| :: m[i] in m) && forall i | 0 <= i < |n| :: n[i] in n;
  }

  lemma TwoLines(a: string, b: string)
    requires OneLine(a) && OneLine(b)
    ensures Split(a + "\n" + b) == [a, b]
  {
    SplitFirst(a, b);
    SplitOneLine(b);
  }

  lemma QuotedOneLine(m: string, a: string)
    requires Plain(m, a)
    ensures OneLine(Quoted(m, a)) && OneLine(Quoted(m, a + " "))
  {
    OneLineConcat(m + " ", a);
    OneLineConcat(m, " ");
    OneLineConcat(a, " ");
    OneLineConcat(m + " ", a + " ");
  }

  lemma {:induction false} TwoRead(first: string, second: string, delSp: bool)
    requires Split(first + "\n" + second) == [first, second]
    ensures Unflowed(first + "\n" + second, delSp)
         == Join(ReadLine(ReadLine(Reading([], false, -1), first, delSp), second, delSp).out, "\n")
  {
    hide ReadLine, Join, Split;
    var start := Reading([], false, -1);
    var r := ReadLine(start, first, delSp);
    assert [first, second][1..] == [second] && [second][1..] == [];
    assert ReadAll(r, [second], delSp) == ReadLine(r, second, delSp);
    assert ReadAll(start, [first, second], delSp) == ReadAll(r, [second], delSp);
  }

  /** A line broken softly joins the next where both are quoted alike, with its space or, where
      that is asked for, without; where the depths differ they stay two lines. */
  lemma SoftLineJoins(m: string, a: string, n: string, b: string, delSp: bool)
    requires Plain(m, a) && a != "" && a != "--" && Plain(n, b) && b != "-- " && (b == "" || b[|b| - 1] != ' ')
    ensures var said := a + if delSp then "" else " ";
      Unflowed(Quoted(m, a + " ") + "\n" + Quoted(n, b), delSp)
      == if m == n then Quoted(m, said + b) else Quoted(m, said) + "\n" + Quoted(n, b)
  {
    hide Quoted, Split, ReadLine, Plain, OneLine, Unflowed, Join;
    var first, second, said := Quoted(m, a + " "), Quoted(n, b), a + if delSp then "" else " ";
    QuotedOneLine(m, a);
    QuotedOneLine(n, b);
    TwoLines(first, second);
    TwoRead(first, second, delSp);
    SoftRead(m, a, delSp);
    MarksOf(m, a);
    SecondRead(m, said, n, b, delSp);
    JoinsTwo(Quoted(m, said), b, second);
    QuotedMore(m, said, b);
  }

  lemma SoftRead(m: string, a: string, delSp: bool)
    requires Plain(m, a) && a != "" && a != "--"
    ensures ReadLine(Reading([], false, -1), Quoted(m, a + " "), delSp)
         == Reading([Quoted(m, a + if delSp then "" else " ")], true, |m|)
  {
    hide Parsed, Opening, Soft, Said, ReadLine, Plain;
    var first, said := Quoted(m, a + " "), a + if delSp then "" else " ";
    SoftParsed(m, a, delSp);
    ReadLineIs(Reading([], false, -1), first, delSp);
    assert Opening(first) + said == Quoted(m, said);
    assert [] + [Quoted(m, said)] == [Quoted(m, said)];
  }

  lemma SecondRead(m: string, said: string, n: string, b: string, delSp: bool)
    requires Marks(m) && Plain(n, b) && b != "-- " && (b == "" || b[|b| - 1] != ' ')
    ensures ReadLine(Reading([Quoted(m, said)], true, |m|), Quoted(n, b), delSp).out
         == if m == n then Extended([Quoted(m, said)], b) else [Quoted(m, said)] + [Quoted(n, b)]
  {
    hide Parsed, Opening, Soft, Said, ReadLine, Plain;
    HardSaid(n, b, delSp);
    MarksOf(n, b);
    SameMarks(m, n);
    ReadLineIs(Reading([Quoted(m, said)], true, |m|), Quoted(n, b), delSp);
    assert Opening(Quoted(n, b)) + b == Quoted(n, b);
  }

  lemma QuotedMore(m: string, said: string, b: string)
    ensures Quoted(m, said) + b == Quoted(m, said + b)
  {
    assert m + " " + said + b == m + " " + (said + b);
  }

  lemma MarksOf(m: string, a: string)
    requires Plain(m, a)
    ensures Marks(m)
  {
  }

  lemma JoinsTwo(a: string, b: string, second: string)
    ensures Join(Extended([a], b), "\n") == a + b
    ensures Join([a] + [second], "\n") == a + "\n" + second
  {
    assert [a, second][1..] == [second];
  }
}
