/** The forwarding script, printed and read back. */
module SieveForwarding {
  import opened Basics
  import opened Lines
  import opened SieveText

  datatype Forward = Forward(address: string, off: bool)

  datatype Forwarding = Forwarding(forwards: seq<Forward>, keep: bool)

  const HEADING := "# Forwarding" + (", composed on " + "the Forwarding page.")
  const OFF := "if false {"

  predicate Plain(f: Forwarding) {
    forall i | 0 <= i < |f.forwards| :: OneLine(f.forwards[i].address)
  }

  // ----- printing

  function Verb(keep: bool): string {
    if keep then "redirect :copy " else "redirect "
  }

  function Redirect(keep: bool, address: string): string {
    Verb(keep) + (Quote(address) + ";")
  }

  function ForwardLines(keep: bool, f: Forward): seq<string> {
    if f.off then [OFF, "    " + Redirect(keep, f.address), "}"] else [Redirect(keep, f.address)]
  }

  function AllLines(keep: bool, fs: seq<Forward>): seq<string> {
    if fs == [] then [] else ForwardLines(keep, fs[0]) + AllLines(keep, fs[1..])
  }

  function Heading(keep: bool): seq<string> {
    if keep then [HEADING, RequireLine(["copy"])] else [HEADING]
  }

  function Script(f: Forwarding): string {
    if f.forwards == [] then "" else Unlines(Heading(f.keep) + AllLines(f.keep, f.forwards))
  }

  // ----- reading

  function MatchAddress(s: string, verb: string): Option<string> {
    match After(s, verb)
    case None => None
    case Some(q) =>
      match MatchQuoted(q)
      case None => None
      case Some((body, rest)) => if rest == ";" then Some(body) else None
  }

  datatype Line = Skipped | Opens | Closes | Sends(address: string, copy: bool) | Foreign

  function ReadLine(raw: string): Line {
    var line := TrimSpace(raw);
    if line == "" || "#" <= line || "require " <= line then Skipped
    else if line == OFF then Opens
    else if line == "}" then Closes
    else match MatchAddress(line, Verb(true))
         case Some(body) => Sends(Unquote(body), true)
         case None =>
           match MatchAddress(line, Verb(false)) case Some(body) => Sends(Unquote(body), false) case None => Foreign
  }

  function ReadLines(ls: seq<string>, off: bool, f: Forwarding): Option<Forwarding>
    decreases |ls|
  {
    if ls == [] then Some(f)
    else match ReadLine(ls[0])
         case Skipped => ReadLines(ls[1..], off, f)
         case Opens => ReadLines(ls[1..], true, f)
         case Closes => ReadLines(ls[1..], false, f)
         case Sends(address, copy) =>
           ReadLines(ls[1..], off, Forwarding(f.forwards + [Forward(address, off)], f.keep && copy))
         case Foreign => None
  }

  function Read(content: string): (Forwarding, bool) {
    match ReadLines(Split(content), false, Forwarding([], true))
    case None => (Forwarding([], false), false)
    case Some(f) => (f, Script(f) == content)
  }

  // ----- the round trip

  lemma {:induction false} AddressRoundTrip(keep: bool, address: string)
    ensures MatchAddress(Redirect(keep, address), Verb(keep)) == Some(Escaped(address))
    ensures !keep ==> MatchAddress(Redirect(keep, address), Verb(true)).None?
  {
    hide MatchQuoted, Quote, After;
    AfterLiteral(Verb(keep), Quote(address) + ";");
    QuotedRoundTrip(address, ";");
    if !keep {
      assert !(Verb(true) <= Redirect(keep, address)) by {
        assert Redirect(keep, address)[9] == Quote(address)[0] by { QuoteStarts(address); }
        QuoteStarts(address);
        assert Verb(true)[9] == ':';
      }
    }
  }

  lemma QuoteStarts(v: string)
    ensures |Quote(v)| > 0 && Quote(v)[0] == '\"'
  {
  }

  lemma {:induction false} RedirectRoundTrip(keep: bool, address: string)
    ensures ReadLine(Redirect(keep, address)) == Sends(address, keep)
    ensures ReadLine("    " + Redirect(keep, address)) == Sends(address, keep)
  {
    var line := Redirect(keep, address);
    AddressRoundTrip(keep, address);
    QuotedRoundTrip(address, "");
    RedirectEnds(keep, address);
    hide MatchAddress, Redirect, Unquote, IsSpace, TrimSpace;
    SpaceIsSpace();
    TrimIndented(line);
  }

  lemma RedirectEnds(keep: bool, address: string)
    ensures var line := Redirect(keep, address);
            |line| > 3 && line[0] == 'r' && line[2] == 'd' && line[|line| - 1] == ';'
  {
    hide Quote;
  }

  lemma ReadBraces()
    ensures ReadLine(OFF) == Opens && ReadLine("}") == Closes && ReadLine("") == Skipped
  {
    hide MatchAddress, IsSpace;
    SpaceIsSpace();
    TrimIndented(OFF);
    TrimIndented("}");
  }

  lemma {:induction false} ForwardRoundTrip(keep: bool, f: Forward, rest: seq<string>, g: Forwarding)
    ensures ReadLines(ForwardLines(keep, f) + rest, false, g)
         == ReadLines(rest, false, Forwarding(g.forwards + [f], g.keep && keep))
  {
    hide ReadLine, Redirect;
    ReadBraces();
    RedirectRoundTrip(keep, f.address);
    var line := (if f.off then "    " else "") + Redirect(keep, f.address);
    var ls := ForwardLines(keep, f) + rest;
    if f.off {
      var h := Forwarding(g.forwards + [f], g.keep && keep);
      assert ReadLines(["}"] + rest, true, h) == ReadLines(rest, false, h) by { assert (["}"] + rest)[1..] == rest; }
      assert ReadLines([line, "}"] + rest, true, g) == ReadLines(["}"] + rest, true, h) by {
        assert ([line, "}"] + rest)[1..] == ["}"] + rest;
      }
      assert ls[1..] == [line, "}"] + rest;
    } else {
      assert "" + Redirect(keep, f.address) == Redirect(keep, f.address);
      assert ls[1..] == rest;
    }
  }

  lemma {:induction false} AllRoundTrip(keep: bool, fs: seq<Forward>, rest: seq<string>, g: Forwarding)
    requires ReadLines(rest, false, Forwarding(g.forwards + fs, g.keep && (fs == [] || keep)))
          == Some(Forwarding(g.forwards + fs, g.keep && (fs == [] || keep)))
    ensures ReadLines(AllLines(keep, fs) + rest, false, g) == Some(Forwarding(g.forwards + fs, g.keep && (fs == [] || keep)))
    decreases |fs|
  {
    hide ReadLines, ForwardLines;
    if fs == [] {
      assert AllLines(keep, fs) + rest == rest;
      assert g.forwards + fs == g.forwards;
    } else {
      var h := Forwarding(g.forwards + [fs[0]], g.keep && keep);
      assert AllLines(keep, fs) + rest == ForwardLines(keep, fs[0]) + (AllLines(keep, fs[1..]) + rest);
      ForwardRoundTrip(keep, fs[0], AllLines(keep, fs[1..]) + rest, g);
      assert h.forwards + fs[1..] == g.forwards + fs by { assert fs == [fs[0]] + fs[1..]; }
      AllRoundTrip(keep, fs[1..], rest, h);
    }
  }

  lemma {:induction false} SkipLine(line: string, rest: seq<string>, g: Forwarding)
    requires ReadLine(line) == Skipped
    ensures ReadLines([line] + rest, false, g) == ReadLines(rest, false, g)
  {
    hide ReadLine;
    assert ([line] + rest)[1..] == rest;
  }

  lemma HeadingSkipped()
    ensures ReadLine(HEADING) == Skipped && ReadLine(RequireLine(["copy"])) == Skipped
  {
    hide MatchAddress, IsSpace, Quote, Join;
    SpaceIsSpace();
    HeadingEnds();
    TrimIndented(HEADING);
    TrimIndented(RequireLine(["copy"]));
    assert RequireLine(["copy"])[..8] == "require ";
  }

  lemma HeadingEnds()
    ensures |HEADING| > 0 && HEADING[0] == '#' && HEADING[|HEADING| - 1] == '.'
    ensures var r := RequireLine(["copy"]); |r| > 9 && r[0] == 'r' && r[|r| - 1] == ';' && "require " <= r
  {
    hide Quote, Join;
    assert HEADING[0] == "# Forwarding"[0];
    var page := "the Forwarding page.";
    assert |page| == 20 && page[19] == '.';
    var r := RequireLine(["copy"]);
    assert r[..9] == "require [";
    assert "require [" == "require " + "[";
  }

  lemma HeadingRead(keep: bool, rest: seq<string>, g: Forwarding)
    ensures ReadLines(Heading(keep) + rest, false, g) == ReadLines(rest, false, g)
  {
    hide ReadLine, ReadLines, RequireLine, HEADING;
    HeadingSkipped();
    if keep {
      SkipLine(HEADING, [RequireLine(["copy"])] + rest, g);
      SkipLine(RequireLine(["copy"]), rest, g);
      assert Heading(keep) + rest == [HEADING] + ([RequireLine(["copy"])] + rest);
    } else {
      SkipLine(HEADING, rest, g);
    }
  }

  lemma {:induction false} LinesOneLine(keep: bool, fs: seq<Forward>)
    requires forall i | 0 <= i < |fs| :: OneLine(fs[i].address)
    ensures OneLines(AllLines(keep, fs))
  {
    hide Redirect;
    if fs != [] {
      RedirectOneLine(keep, fs[0].address);
      OneLineConcat("    ", Redirect(keep, fs[0].address));
      LinesOneLine(keep, fs[1..]);
    }
  }

  lemma RedirectOneLine(keep: bool, address: string)
    requires OneLine(address)
    ensures OneLine(Redirect(keep, address))
  {
    hide Quote;
    EscapedKeepsLine(address);
    OneLineConcat(Quote(address), ";");
    OneLineConcat(Verb(keep), Quote(address) + ";");
  }

  lemma HeadingOneLines(keep: bool)
    ensures OneLines(Heading(keep))
  {
    hide RequireLine, HEADING;
    HeadingOneLine();
    RequireOneLine();
  }

  lemma HeadingOneLine()
    ensures OneLine(HEADING)
  {
    OneLineConcat(", composed on ", "the Forwarding page.");
    OneLineConcat("# Forwarding", ", composed on " + "the Forwarding page.");
  }

  lemma RequireOneLine()
    ensures OneLine(RequireLine(["copy"]))
  {
    hide Quote;
    EscapedKeepsLine("copy");
    OneLineConcat("require [", Quote("copy"));
    OneLineConcat("require [" + Quote("copy"), "];");
  }

  /** A forwarding is read back as it was exactly when it forwards at all or keeps a copy: an
      empty script cannot say that no copy is kept. */
  lemma ForwardingRoundTrip(f: Forwarding)
    requires Plain(f)
    ensures Read(Script(f)) == (f, true) <==> f.forwards != [] || f.keep
  {
    hide ReadLine, AllLines, Unlines, Heading;
    var blank := Forwarding([], true);
    ReadBraces();
    if f.forwards == [] {
      assert Split("") == [""];
      SkipLine("", [], blank);
      assert [""] + [] == [""];
    } else {
      var ls := Heading(f.keep) + AllLines(f.keep, f.forwards);
      HeadingOneLines(f.keep);
      LinesOneLine(f.keep, f.forwards);
      SplitUnlines(ls, "");
      assert Unlines(ls) + "" == Unlines(ls);
      assert Split("") == [""];
      assert blank.forwards + f.forwards == f.forwards;
      SkipLine("", [], f);
      assert [""] + [] == [""];
      AllRoundTrip(f.keep, f.forwards, [""], blank);
      HeadingRead(f.keep, AllLines(f.keep, f.forwards) + [""], blank);
      assert ls + [""] == Heading(f.keep) + (AllLines(f.keep, f.forwards) + [""]);
    }
  }

  // ----- as it is written

  method WriteScript(f: Forwarding) returns (s: string)
    ensures s == Script(f)
  {
    hide RequireLine, Redirect, HEADING, Heading, AllLines, Unlines;
    if |f.forwards| == 0 { return ""; }
    s := HEADING + "\n";
    if f.keep { s := s + (RequireLine(["copy"]) + "\n"); }
    HeadingText(f.keep, s);
    s := WriteForwards(s, f.keep, f.forwards);
    UnlinesConcat(Heading(f.keep), AllLines(f.keep, f.forwards));
  }

  /** Each address's lines behind the text so far. */
  method WriteForwards(head: string, keep: bool, fs: seq<Forward>) returns (s: string)
    ensures s == head + Unlines(AllLines(keep, fs))
  {
    hide Redirect, ForwardLines, AllLines, Unlines;
    s := head;
    assert fs[0..] == fs;
    for i := 0 to |fs|
      invariant s + Unlines(AllLines(keep, fs[i..])) == head + Unlines(AllLines(keep, fs))
    {
      var line := Redirect(keep, fs[i].address) + "\n";
      if fs[i].off { line := OFF + "\n" + "    " + line + "}\n"; }
      ForwardText(keep, fs[i], line);
      assert fs[i..][0] == fs[i] && fs[i..][1..] == fs[i + 1..];
      NextForward(keep, fs[i..], line);
      ghost var rest := Unlines(AllLines(keep, fs[i + 1..]));
      assert s + (line + rest) == s + line + rest;
      s := s + line;
    }
    NoForwards(keep);
    assert fs[|fs|..] == [] && s + "" == s;
  }

  lemma NoForwards(keep: bool)
    ensures Unlines(AllLines(keep, [])) == ""
  {
  }

  lemma HeadingText(keep: bool, s: string)
    requires s == if keep then HEADING + "\n" + (RequireLine(["copy"]) + "\n") else HEADING + "\n"
    ensures s == Unlines(Heading(keep))
  {
    hide RequireLine, HEADING;
    var require := RequireLine(["copy"]);
    assert [HEADING, require][1..] == [require];
    assert Unlines([require]) == require + "\n";
    assert Unlines([HEADING]) == HEADING + "\n";
  }

  lemma ForwardText(keep: bool, f: Forward, line: string)
    requires line == if f.off then OFF + "\n" + "    " + (Redirect(keep, f.address) + "\n") + "}\n" else Redirect(keep, f.address) + "\n"
    ensures line == Unlines(ForwardLines(keep, f))
  {
    hide Redirect;
    var send := Redirect(keep, f.address);
    if f.off {
      hide Unlines;
      ThreeLines(OFF, "    " + send, "}");
      assert line == OFF + "\n" + ("    " + send + "\n" + ("}" + "\n"));
    } else {
      OneText(send);
    }
  }

  lemma OneText(a: string)
    ensures Unlines([a]) == a + "\n"
  {
    assert [a][1..] == [] && Unlines([a]) == a + "\n" + "";
  }

  lemma ThreeLines(a: string, b: string, c: string)
    ensures Unlines([a, b, c]) == a + "\n" + (b + "\n" + (c + "\n"))
  {
    OneText(c);
    assert [b, c][1..] == [c] && [a, b, c][1..] == [b, c];
    assert Unlines([b, c]) == b + "\n" + (c + "\n");
  }

  lemma {:induction false} NextForward(keep: bool, fs: seq<Forward>, line: string)
    requires fs != [] && line == Unlines(ForwardLines(keep, fs[0]))
    ensures Unlines(AllLines(keep, fs)) == line + Unlines(AllLines(keep, fs[1..]))
  {
    hide ForwardLines;
    UnlinesConcat(ForwardLines(keep, fs[0]), AllLines(keep, fs[1..]));
  }

  method ReadForwarding(content: string) returns (f: Forwarding, ok: bool)
    ensures (f, ok) == Read(content)
  {
    hide ReadLine, Script;
    var lines := Split(content);
    f := Forwarding([], true);
    var off, i := false, 0;
    assert lines[0..] == lines;
    while i < |lines|
      invariant i <= |lines|
      invariant ReadLines(lines, false, Forwarding([], true)) == ReadLines(lines[i..], off, f)
    {
      assert lines[i..][1..] == lines[i + 1..];
      match ReadLine(lines[i]) {
        case Skipped =>
        case Opens => off := true;
        case Closes => off := false;
        case Sends(address, copy) => f := Forwarding(f.forwards + [Forward(address, off)], f.keep && copy);
        case Foreign => return Forwarding([], false), false;
      }
      i := i + 1;
    }
    var script := WriteScript(f);
    ok := script == content;
  }
}
