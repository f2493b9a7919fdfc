/** The rules script: a printer, a parser built on line patterns, and their round trip. */
module SieveRules {
  import opened Basics
  import opened Lines
  import opened SieveText

  datatype Condition = Condition(field: string, relation: string, value: string)

  datatype Rule = Rule(
    name: string, any: bool, conditions: seq<Condition>, folder: string, markRead: bool, star: bool,
    discard: bool, forward: string, stop: bool, off: bool)

  function HeaderOf(field: string): string {
    if field == "from" then "from" else if field == "to" then "to" else if field == "cc" then "cc"
    else if field == "subject" then "subject" else if field == "list" then "list-id" else ""
  }

  function FieldOf(header: string): string {
    if header == "from" then "from" else if header == "to" then "to" else if header == "cc" then "cc"
    else if header == "subject" then "subject" else if header == "list-id" then "list" else ""
  }

  predicate Known(c: Condition) {
    && HeaderOf(c.field) != ""
    && (c.relation == "is" || c.relation == "contains" || c.relation == "domain")
    && OneLine(c.value)
  }

  /** What the page can write: known fields and matches, and no line break anywhere. */
  predicate Plain(r: Rule) {
    && OneLine(r.name) && OneLine(r.folder) && OneLine(r.forward)
    && forall i | 0 <= i < |r.conditions| :: Known(r.conditions[i])
  }

  // ----- printing

  function Kind(c: Condition): string {
    if c.relation != "domain" && (c.field == "subject" || c.field == "list") then "header :" else "address :"
  }

  /** "domain" matches the domain part of an address whole. */
  function How(c: Condition): string {
    if c.relation == "domain" then "domain :is" else c.relation
  }

  function Test(c: Condition): string {
    Kind(c) + ((How(c) + " ") + (Quote(HeaderOf(c.field)) + (" " + Quote(c.value))))
  }

  function Tests(cs: seq<Condition>): string {
    if cs == [] then "" else if |cs| == 1 then Test(cs[0]) else Test(cs[0]) + ", " + Tests(cs[1..])
  }

  function Group(r: Rule): string {
    (if r.any then "anyof(" else "allof(") + Tests(r.conditions) + ")"
  }

  function IfLine(r: Rule): string {
    "if " + (if r.off then "allof(false, " + Group(r) + ")" else Group(r)) + " {"
  }

  /** One action as its line says it; a string argument is kept as it was written. */
  datatype Action = FileInto(body: string) | AddSeen | AddFlagged | Redirect(body: string) | Discard | Stop

  function Command(a: Action): string {
    match a
    case FileInto(body) => "fileinto \"" + body + "\""
    case AddSeen => "addflag \"\\\\Seen\""
    case AddFlagged => "addflag \"\\\\Flagged\""
    case Redirect(body) => "redirect :copy \"" + body + "\""
    case Discard => "discard"
    case Stop => "stop"
  }

  function ActionLine(a: Action): string {
    "    " + Command(a) + ";"
  }

  function When(b: bool, a: Action): seq<Action> {
    if b then [a] else []
  }

  /** A rule's actions in the order they are written. */
  function Actions(r: Rule): seq<Action> {
    When(r.markRead, AddSeen) + When(r.star, AddFlagged) + When(r.folder != "", FileInto(Escaped(r.folder)))
    + When(r.forward != "", Redirect(Escaped(r.forward))) + When(r.discard, Discard) + When(r.stop, Stop)
  }

  function ActionLines(acts: seq<Action>): seq<string> {
    if acts == [] then [] else [ActionLine(acts[0])] + ActionLines(acts[1..])
  }

  function Spaced(name: string): string {
    if name == "" then "" else [if name[0] == '\n' then ' ' else name[0]] + Spaced(name[1..])
  }

  function BlockLines(r: Rule): seq<string> {
    ["# rule: " + Spaced(r.name), IfLine(r)] + ActionLines(Actions(r)) + ["}"]
  }

  function AllBlocks(rules: seq<Rule>): seq<string> {
    if rules == [] then [] else [""] + BlockLines(rules[0]) + AllBlocks(rules[1..])
  }

  function Needing(need: seq<string>, wanted: bool, extension: string): seq<string> {
    if wanted && extension !in need then need + [extension] else need
  }

  function Needs(need: seq<string>, rules: seq<Rule>): seq<string>
    decreases |rules|
  {
    if rules == [] then need
    else
      var r := rules[0];
      Needs(Needing(Needing(Needing(need, r.folder != "", "fileinto"), r.markRead || r.star, "imap4flags"), r.forward != "", "copy"),
            rules[1..])
  }

  /** The extensions required are those some rule asks for, each once. */
  lemma {:induction false} NeedsExactly(need: seq<string>, rules: seq<Rule>)
    requires forall i, j | 0 <= i < j < |need| :: need[i] != need[j]
    ensures forall i, j | 0 <= i < j < |Needs(need, rules)| :: Needs(need, rules)[i] != Needs(need, rules)[j]
    ensures forall x :: x in Needs(need, rules) <==>
      || x in need
      || (x == "fileinto" && exists r | r in rules :: r.folder != "")
      || (x == "imap4flags" && exists r | r in rules :: r.markRead || r.star)
      || (x == "copy" && exists r | r in rules :: r.forward != "")
    decreases |rules|
  {
    if rules != [] {
      var r := rules[0];
      var a := Needing(need, r.folder != "", "fileinto");
      var b := Needing(a, r.markRead || r.star, "imap4flags");
      var c := Needing(b, r.forward != "", "copy");
      NeedsExactly(c, rules[1..]);
      assert forall q :: q in rules <==> q == r || q in rules[1..];
      assert forall x :: x in c <==>
        || x in need
        || (x == "fileinto" && r.folder != "")
        || (x == "imap4flags" && (r.markRead || r.star))
        || (x == "copy" && r.forward != "");
    }
  }

  const HEADING := "# Rules" + (", composed on " + ("the Rules page. " + ("They run in this " + ("order; a rule "
                   + ("that stops ends " + "delivery here.")))))

  function Heading(rules: seq<Rule>): seq<string> {
    var need := Needs([], rules);
    [HEADING] + if need == [] then [] else [RequireLine(need)]
  }

  function Script(rules: seq<Rule>): string {
    if rules == [] then "" else Unlines(Heading(rules) + AllBlocks(rules))
  }

  // ----- reading

  datatype TestMatch = TestMatch(relation: string, header: string, value: string)

  /** The test pattern at the start of `s`, with what follows it. */
  function MatchTest(s: string): (r: Option<(TestMatch, string)>)
    ensures r.Some? ==> |r.value.1| < |s|
  {
    var kind := if "address :" <= s then After(s, "address :") else After(s, "header :");
    if kind.None? then None
    else
      var m := if "is " <= kind.value then "is" else if "contains " <= kind.value then "contains" else "domain :is";
      match After(kind.value, m + " ")
      case None => None
      case Some(a) =>
        match MatchQuoted(a)
        case None => None
        case Some((header, b)) =>
          match After(b, " ")
          case None => None
          case Some(d) =>
            match MatchQuoted(d)
            case None => None
            case Some((value, rest)) => Some((TestMatch(m, header, value), rest))
  }

  /** Every match from left to right, none overlapping another. */
  function FindTests(s: string): seq<TestMatch>
    decreases |s|
  {
    if s == "" then []
    else match MatchTest(s)
         case Some((t, rest)) => [t] + FindTests(rest)
         case None => FindTests(s[1..])
  }

  function AsCondition(t: TestMatch): Condition {
    Condition(FieldOf(Unquote(t.header)), if t.relation == "domain :is" then "domain" else t.relation, Unquote(t.value))
  }

  function AsConditions(ts: seq<TestMatch>): seq<Condition> {
    if ts == [] then [] else [AsCondition(ts[0])] + AsConditions(ts[1..])
  }

  const OFF_PREFIX := "if allof(false, "

  function Between(s: string, head: string, tail: string): Option<string> {
    if head <= s && |head| + |tail| <= |s| && s[|s| - |tail|..] == tail then Some(s[|head|..|s| - |tail|]) else None
  }

  /** The test line of a rule: whether it is off, and whether any or all must hold of what. */
  function ReadIf(line: string): Option<(bool, bool, seq<Condition>)> {
    var off := OFF_PREFIX <= line && CutSuffix(line, ")) {").1;
    var on := if off then "if " + CutSuffix(line[|OFF_PREFIX|..], ")) {").0 + ") {" else line;
    match Between(on, "if allof(", ") {")
    case Some(tests) => Some((off, false, AsConditions(FindTests(tests))))
    case None =>
      match Between(on, "if anyof(", ") {")
      case Some(tests) => Some((off, true, AsConditions(FindTests(tests))))
      case None => None
  }

  function MatchString(s: string, head: string): Option<string> {
    match After(s, head)
    case None => None
    case Some(q) => match MatchQuoted(q) case Some((body, rest)) => (if rest == "" then Some(body) else None) case None => None
  }

  function MatchCommand(s: string): Option<Action> {
    if s == "addflag \"\\\\Seen\"" then Some(AddSeen)
    else if s == "addflag \"\\\\Flagged\"" then Some(AddFlagged)
    else if s == "discard" then Some(Discard)
    else if s == "stop" then Some(Stop)
    else match MatchString(s, "fileinto ")
         case Some(body) => Some(FileInto(body))
         case None => match MatchString(s, "redirect :copy ") case Some(body) => Some(Redirect(body)) case None => None
  }

  function MatchAction(line: string): Option<Action> {
    match Between(line, "    ", ";") case Some(s) => MatchCommand(s) case None => None
  }

  function Acted(r: Rule, a: Action): Rule {
    match a
    case FileInto(body) => if body != "" then r.(folder := Unquote(body)) else r
    case AddSeen => r.(markRead := true)
    case AddFlagged => r.(star := true)
    case Redirect(body) => if body != "" then r.(forward := Unquote(body)) else r
    case Discard => r.(discard := true)
    case Stop => r.(stop := true)
  }

  function AllActed(r: Rule, acts: seq<Action>): Rule
    decreases |acts|
  {
    if acts == [] then r else AllActed(Acted(r, acts[0]), acts[1..])
  }

  function Blank(name: string, any: bool, off: bool, cs: seq<Condition>): Rule {
    Rule(name, any, cs, "", false, false, false, "", false, off)
  }

  /** The actions up to a closing brace or the end, and the lines behind. */
  function ReadActions(ls: seq<string>, r: Rule): (o: Option<(Rule, seq<string>)>)
    ensures o.Some? ==> |o.value.1| <= |ls|
  {
    if ls == [] then Some((r, []))
    else if ls[0] == "}" then Some((r, ls[1..]))
    else match MatchAction(ls[0])
         case None => None
         case Some(a) => ReadActions(ls[1..], Acted(r, a))
  }

  function ReadLines(ls: seq<string>): Option<seq<Rule>>
    decreases |ls|
  {
    if ls == [] then Some([])
    else match After(ls[0], "# rule: ")
         case None => ReadLines(ls[1..])
         case Some(name) =>
           if |ls| < 2 then None
           else match ReadIf(ls[1])
                case None => None
                case Some((off, any, cs)) =>
                  match ReadActions(ls[2..], Blank(name, any, off, cs))
                  case None => None
                  case Some((r, rest)) =>
                    match ReadLines(rest) case None => None case Some(rs) => Some([r] + rs)
  }

  /** Rules are given back as read only when writing them again gives the same script. */
  function Read(content: string): (seq<Rule>, bool) {
    match ReadLines(Split(content))
    case None => ([], false)
    case Some(rules) => (rules, Script(rules) == content)
  }

  // ----- the round trip

  lemma HeaderRoundTrip(field: string)
    requires HeaderOf(field) != ""
    ensures FieldOf(HeaderOf(field)) == field
  {
  }

  /** How the test pattern must match what the printer wrote. */
  function Match(c: Condition): TestMatch {
    TestMatch(How(c), Escaped(HeaderOf(c.field)), Escaped(c.value))
  }

  lemma {:induction false} MatchMeans(c: Condition)
    requires Known(c)
    ensures AsCondition(Match(c)) == c
  {
    hide Escaped, Unquote, HeaderOf, FieldOf;
    QuotedRoundTrip(HeaderOf(c.field), "");
    QuotedRoundTrip(c.value, "");
    HeaderRoundTrip(c.field);
  }

  lemma {:induction false} TestRoundTrip(c: Condition, rest: string)
    requires Known(c)
    ensures MatchTest(Test(c) + rest) == Some((Match(c), rest))
  {
    hide After, MatchQuoted, Quote, HeaderOf, Escaped, Known, Kind, How;
    var m, kind := How(c), Kind(c);
    var value := Quote(c.value) + rest;
    var quoted := Quote(HeaderOf(c.field)) + (" " + value);
    assert Test(c) + rest == kind + ((m + " ") + quoted);
    AfterLiteral(kind, (m + " ") + quoted);
    AfterLiteral(m + " ", quoted);
    HeadDecides(c, kind + ((m + " ") + quoted), (m + " ") + quoted);
    QuotedRoundTrip(HeaderOf(c.field), " " + value);
    AfterLiteral(" ", value);
    QuotedRoundTrip(c.value, rest);
  }

  lemma HeadDecides(c: Condition, t: string, s: string)
    requires Known(c) && Kind(c) <= t && How(c) + " " <= s
    ensures Kind(c) == if "address :" <= t then "address :" else "header :"
    ensures How(c) == if "is " <= s then "is" else if "contains " <= s then "contains" else "domain :is"
  {
    hide HeaderOf;
    assert t[0] == Kind(c)[0];
    assert s[0] == How(c)[0];
  }

  lemma {:induction false} TestsRoundTrip(cs: seq<Condition>)
    requires forall i | 0 <= i < |cs| :: Known(cs[i])
    ensures AsConditions(FindTests(Tests(cs))) == cs
  {
    hide MatchTest, Test, AsCondition, Known;
    if |cs| == 1 {
      FirstTest(cs[0], "");
      assert Test(cs[0]) + "" == Test(cs[0]);
    } else if |cs| > 1 {
      var rest := Tests(cs[1..]);
      FirstTest(cs[0], ", " + rest);
      assert Tests(cs) == Test(cs[0]) + (", " + rest);
      SkipComma(rest);
      TestsRoundTrip(cs[1..]);
    }
  }

  lemma {:induction false} FirstTest(c: Condition, rest: string)
    requires Known(c)
    ensures AsConditions(FindTests(Test(c) + rest)) == [c] + AsConditions(FindTests(rest))
  {
    hide MatchTest, Test, AsCondition, Known;
    TestRoundTrip(c, rest);
    MatchMeans(c);
    assert FindTests(Test(c) + rest) == [Match(c)] + FindTests(rest);
    assert ([Match(c)] + FindTests(rest))[1..] == FindTests(rest);
  }

  lemma {:induction false} SkipComma(s: string)
    ensures FindTests(", " + s) == FindTests(s)
  {
    NoTestAtComma(s);
    hide MatchTest;
    assert (", " + s)[1..] == " " + s;
    assert (" " + s)[1..] == s;
  }

  lemma NoTestAtComma(s: string)
    ensures MatchTest(", " + s).None? && MatchTest(" " + s).None?
  {
    hide MatchQuoted, After;
    assert !("address :" <= ", " + s) && !("header :" <= ", " + s) by { assert (", " + s)[0] == ','; }
    assert !("address :" <= " " + s) && !("header :" <= " " + s) by { assert (" " + s)[0] == ' '; }
  }

  lemma BetweenEnds(head: string, middle: string, tail: string)
    ensures Between(head + middle + tail, head, tail) == Some(middle)
  {
    var s := head + middle + tail;
    assert s[|head|..|s| - |tail|] == middle;
    assert s[|s| - |tail|..] == tail;
  }

  lemma {:induction false} IfRoundTrip(r: Rule)
    requires Plain(r)
    ensures ReadIf(IfLine(r)) == Some((r.off, r.any, r.conditions))
  {
    hide Tests, FindTests, AsConditions, Between, CutSuffix, Plain;
    var tests := Tests(r.conditions);
    assert AsConditions(FindTests(tests)) == r.conditions by { PlainTests(r); }
    var head := if r.any then "if anyof(" else "if allof(";
    var on := head + tests + ") {";
    BetweenEnds(head, tests, ") {");
    if r.any { NotAllOf(on); }
    if r.off {
      OffLine(r, on);
    } else {
      NotOff(r, on);
    }
  }

  lemma PlainTests(r: Rule)
    requires Plain(r)
    ensures AsConditions(FindTests(Tests(r.conditions))) == r.conditions
  {
    TestsRoundTrip(r.conditions);
  }

  lemma NotAllOf(on: string)
    requires "if anyof(" <= on
    ensures Between(on, "if allof(", ") {").None?
  {
    assert on[4] == 'n';
  }

  lemma OffLine(r: Rule, on: string)
    requires r.off && on == (if r.any then "if anyof(" else "if allof(") + Tests(r.conditions) + ") {"
    ensures OFF_PREFIX <= IfLine(r) && CutSuffix(IfLine(r), ")) {").1
    ensures "if " + CutSuffix(IfLine(r)[|OFF_PREFIX|..], ")) {").0 + ") {" == on
  {
    hide CutSuffix, Tests;
    var bare := (if r.any then "anyof(" else "allof(") + Tests(r.conditions);
    assert IfLine(r) == OFF_PREFIX + (bare + ")) {");
    AfterLiteral(OFF_PREFIX, bare + ")) {");
    assert IfLine(r)[|OFF_PREFIX|..] == bare + ")) {";
    SuffixCut(bare, ")) {");
    SuffixCut(OFF_PREFIX + bare, ")) {");
    assert IfLine(r) == OFF_PREFIX + bare + ")) {";
    assert on == "if " + bare + ") {";
  }

  lemma SuffixCut(s: string, suffix: string)
    ensures CutSuffix(s + suffix, suffix) == (s, true)
  {
    assert (s + suffix)[|s|..] == suffix;
  }

  lemma NotOff(r: Rule, on: string)
    requires Plain(r) && on == (if r.any then "if anyof(" else "if allof(") + Tests(r.conditions) + ") {"
    ensures !r.off ==> on == IfLine(r)
    ensures !(OFF_PREFIX <= on)
  {
    hide Tests, Known;
    TestsStart(r.conditions);
    assert on[9] != 'f';
  }

  lemma {:induction false} TestsStart(cs: seq<Condition>)
    requires cs != [] ==> Known(cs[0])
    ensures if cs == [] then Tests(cs) == "" else |Tests(cs)| > 0 && Tests(cs)[0] != 'f'
  {
    hide Test, Known;
    if cs != [] {
      TestStarts(cs[0]);
      assert Tests(cs)[0] == Test(cs[0])[0];
    }
  }

  lemma TestStarts(c: Condition)
    ensures |Test(c)| > 0 && Test(c)[0] != 'f'
  {
    hide Quote, HeaderOf, How;
    assert Test(c)[0] == Kind(c)[0];
  }

  lemma {:induction false} StringRoundTrip(head: string, v: string)
    ensures MatchString(head + Quote(v), head) == Some(Escaped(v))
  {
    hide MatchQuoted, After, Quote;
    AfterLiteral(head, Quote(v));
    QuotedRoundTrip(v, "");
    assert Quote(v) + "" == Quote(v);
  }

  lemma {:induction false} CommandRoundTrip(a: Action, v: string)
    requires a.FileInto? || a.Redirect? ==> a.body == Escaped(v)
    ensures MatchCommand(Command(a)) == Some(a)
  {
    hide MatchString, Escaped;
    if a.FileInto? {
      StringRoundTrip("fileinto ", v);
      assert Command(a) == "fileinto " + Quote(v);
      assert Command(a)[0] == 'f';
    } else if a.Redirect? {
      StringRoundTrip("redirect :copy ", v);
      assert Command(a) == "redirect :copy " + Quote(v);
      assert Command(a)[0] == 'r';
      NoString(Command(a), "fileinto ");
    }
  }

  lemma NoString(s: string, head: string)
    requires !(head <= s)
    ensures MatchString(s, head).None?
  {
  }

  lemma {:induction false} ActionRoundTrip(a: Action)
    requires Written(a)
    ensures MatchAction(ActionLine(a)) == Some(a) && ActionLine(a) != "}"
  {
    hide MatchCommand, Command;
    if a.FileInto? || a.Redirect? {
      var v :| a.body == Escaped(v);
      CommandRoundTrip(a, v);
    } else {
      CommandRoundTrip(a, "");
    }
    BetweenEnds("    ", Command(a), ";");
    assert ActionLine(a)[0] == ' ';
  }

  /** An action whose string was written by the printer. */
  ghost predicate Written(a: Action) {
    a.FileInto? || a.Redirect? ==> exists v :: a.body == Escaped(v)
  }

  lemma {:induction false} ActionsRoundTrip(acts: seq<Action>, r: Rule, rest: seq<string>)
    requires forall a | a in acts :: Written(a)
    ensures ReadActions(ActionLines(acts) + ["}"] + rest, r) == Some((AllActed(r, acts), rest))
    decreases |acts|
  {
    hide MatchAction, ActionLine, Acted, Written;
    var ls := ActionLines(acts) + ["}"] + rest;
    if acts == [] {
      assert ls == ["}"] + rest;
    } else {
      ActionRoundTrip(acts[0]);
      assert ls[0] == ActionLine(acts[0]);
      assert ls[1..] == ActionLines(acts[1..]) + ["}"] + rest;
      ActionsRoundTrip(acts[1..], Acted(r, acts[0]), rest);
    }
  }

  lemma {:induction false} ActedConcat(r: Rule, a: seq<Action>, b: seq<Action>)
    ensures AllActed(r, a + b) == AllActed(AllActed(r, a), b)
    decreases |a|
  {
    hide Acted;
    if a == [] {
      assert a + b == b;
    } else {
      assert (a + b)[0] == a[0] && (a + b)[1..] == a[1..] + b;
      ActedConcat(Acted(r, a[0]), a[1..], b);
    }
  }

  lemma {:induction false} ActedWhen(r: Rule, before: seq<Action>, b: bool, a: Action, to: Rule)
    requires to == if b then Acted(AllActed(r, before), a) else AllActed(r, before)
    ensures AllActed(r, before + When(b, a)) == to
  {
    hide Acted;
    ActedConcat(r, before, When(b, a));
  }

  /** Doing a rule's actions on a blank one gives the rule. */
  lemma {:induction false} ActionsMakeRule(r: Rule)
    ensures AllActed(Blank(r.name, r.any, r.off, r.conditions), Actions(r)) == r
  {
    hide AllActed, When, Escaped, Unquote, Acted;
    var r0 := Blank(r.name, r.any, r.off, r.conditions);
    var forward := Redirect(Escaped(r.forward));
    var s3 := When(r.markRead, AddSeen) + When(r.star, AddFlagged) + When(r.folder != "", FileInto(Escaped(r.folder)));
    var r3 := r0.(markRead := r.markRead, star := r.star, folder := r.folder);
    FlagsAndFolder(r, r0, s3);
    ActedFields(r3, r, forward);
    var s4 := s3 + When(r.forward != "", forward);
    ActedWhen(r0, s3, r.forward != "", forward, r3.(forward := r.forward));
    var s5 := s4 + When(r.discard, Discard);
    ActedFields(r.(discard := false, stop := false), r, forward);
    ActedWhen(r0, s4, r.discard, Discard, r.(stop := false));
    ActedFields(r.(stop := false), r, forward);
    ActedWhen(r0, s5, r.stop, Stop, r);
  }

  lemma {:induction false} FlagsAndFolder(r: Rule, r0: Rule, acts: seq<Action>)
    requires r0 == Blank(r.name, r.any, r.off, r.conditions)
    requires acts == When(r.markRead, AddSeen) + When(r.star, AddFlagged) + When(r.folder != "", FileInto(Escaped(r.folder)))
    ensures AllActed(r0, acts) == r0.(markRead := r.markRead, star := r.star, folder := r.folder)
  {
    hide AllActed, When, Escaped, Unquote;
    UnquoteEscaped(r.folder);
    EscapedKeepsLine(r.folder);
    NoActions(r0);
    var s1 := When(r.markRead, AddSeen);
    ActedWhen(r0, [], r.markRead, AddSeen, r0.(markRead := r.markRead));
    assert [] + s1 == s1;
    ActedWhen(r0, s1, r.star, AddFlagged, r0.(markRead := r.markRead, star := r.star));
    ActedWhen(r0, s1 + When(r.star, AddFlagged), r.folder != "", FileInto(Escaped(r.folder)),
              r0.(markRead := r.markRead, star := r.star, folder := r.folder));
  }

  lemma ActedFields(r: Rule, to: Rule, forward: Action)
    requires forward == Redirect(Escaped(to.forward))
    ensures to.forward != "" ==> Acted(r, forward) == r.(forward := to.forward)
    ensures Acted(r, Discard) == r.(discard := true) && Acted(r, Stop) == r.(stop := true)
  {
    UnquoteEscaped(to.forward);
    EscapedKeepsLine(to.forward);
  }

  lemma NoActions(r: Rule)
    ensures AllActed(r, []) == r
  {
  }

  lemma {:induction false} SpacedIsName(name: string)
    requires OneLine(name)
    ensures Spaced(name) == name
  {
    if name != "" {
      SpacedIsName(name[1..]);
      assert name == [name[0]] + name[1..];
    }
  }

  lemma ActionsAre(r: Rule)
    ensures forall a | a in Actions(r) ::
              (a.FileInto? ==> a == FileInto(Escaped(r.folder))) && (a.Redirect? ==> a == Redirect(Escaped(r.forward)))
  {
    hide Escaped;
    assert forall b, a, c | c in When(b, a) :: c == a;
  }

  lemma ActionsWritten(r: Rule)
    ensures forall a | a in Actions(r) :: Written(a)
  {
    hide Escaped, Actions;
    ActionsAre(r);
  }

  lemma {:induction false} BlockRoundTrip(r: Rule, rest: seq<string>, rs: seq<Rule>)
    requires Plain(r) && ReadLines(rest) == Some(rs)
    ensures ReadLines(BlockLines(r) + rest) == Some([r] + rs)
  {
    hide ReadIf, IfLine, ReadActions, Actions, ActionLines, After, AllActed;
    var ls := BlockLines(r) + rest;
    SpacedIsName(r.name);
    AfterLiteral("# rule: ", r.name);
    IfRoundTrip(r);
    ActionsWritten(r);
    ActionsRoundTrip(Actions(r), Blank(r.name, r.any, r.off, r.conditions), rest);
    ActionsMakeRule(r);
    assert ls[0] == "# rule: " + r.name && ls[1] == IfLine(r);
    assert ls[2..] == ActionLines(Actions(r)) + ["}"] + rest;
  }

  lemma {:induction false} SkipLine(line: string, rest: seq<string>)
    requires !("# rule: " <= line)
    ensures ReadLines([line] + rest) == ReadLines(rest)
  {
    hide ReadIf, ReadActions;
    assert ([line] + rest)[1..] == rest;
  }

  lemma {:induction false} BlocksRoundTrip(rules: seq<Rule>, rest: seq<string>)
    requires forall i | 0 <= i < |rules| :: Plain(rules[i])
    requires ReadLines(rest) == Some([])
    ensures ReadLines(AllBlocks(rules) + rest) == Some(rules)
  {
    hide ReadLines, BlockLines, Plain;
    if rules == [] {
      assert AllBlocks(rules) + rest == rest;
    } else {
      BlocksRoundTrip(rules[1..], rest);
      BlockRoundTrip(rules[0], AllBlocks(rules[1..]) + rest, rules[1..]);
      var ls := BlockLines(rules[0]) + (AllBlocks(rules[1..]) + rest);
      assert AllBlocks(rules) + rest == [""] + ls;
      SkipLine("", ls);
      assert rules == [rules[0]] + rules[1..];
    }
  }

  lemma {:induction false} HeadingSkipped(rules: seq<Rule>, rest: seq<string>)
    ensures ReadLines(Heading(rules) + rest) == ReadLines(rest)
  {
    hide ReadLines, Needs, RequireLine;
    var need := Needs([], rules);
    assert !("# rule: " <= HEADING) by { assert HEADING[2] == "# Rules"[2]; }
    if need == [] {
      assert Heading(rules) + rest == [HEADING] + rest;
      SkipLine(HEADING, rest);
    } else {
      RequireStarts(need);
      assert Heading(rules) + rest == [HEADING] + ([RequireLine(need)] + rest);
      SkipLine(HEADING, [RequireLine(need)] + rest);
      SkipLine(RequireLine(need), rest);
    }
  }

  lemma RequireStarts(need: seq<string>)
    ensures !("# rule: " <= RequireLine(need))
  {
    assert RequireLine(need)[0] == 'r';
  }

  lemma {:induction false} TestsOneLine(cs: seq<Condition>)
    requires forall i | 0 <= i < |cs| :: Known(cs[i])
    ensures OneLine(Tests(cs))
  {
    hide Test, Known;
    if cs != [] {
      TestOneLine(cs[0]);
      if |cs| > 1 {
        TestsOneLine(cs[1..]);
        OneLineConcat(Test(cs[0]), ", ");
        OneLineConcat(Test(cs[0]) + ", ", Tests(cs[1..]));
      }
    }
  }

  lemma TestOneLine(c: Condition)
    requires Known(c)
    ensures OneLine(Test(c))
  {
    hide Quote, Kind, How, HeaderOf;
    HeadOneLine(c);
    EscapedKeepsLine(HeaderOf(c.field));
    EscapedKeepsLine(c.value);
    var values := " " + Quote(c.value);
    OneLineConcat(" ", Quote(c.value));
    OneLineConcat(Quote(HeaderOf(c.field)), values);
    OneLineConcat(How(c), " ");
    OneLineConcat(How(c) + " ", Quote(HeaderOf(c.field)) + values);
    OneLineConcat(Kind(c), (How(c) + " ") + (Quote(HeaderOf(c.field)) + values));
  }

  lemma HeadOneLine(c: Condition)
    requires Known(c)
    ensures OneLine(Kind(c)) && OneLine(How(c)) && OneLine(HeaderOf(c.field))
  {
  }

  lemma {:induction false} IfOneLine(r: Rule)
    requires Plain(r)
    ensures OneLine(IfLine(r))
  {
    hide Tests;
    TestsOneLine(r.conditions);
  }

  lemma {:induction false} ActionLinesOneLine(acts: seq<Action>)
    requires forall a | a in acts :: OneLine(Command(a))
    ensures OneLines(ActionLines(acts))
  {
    hide Command;
    if acts != [] {
      assert OneLine(ActionLine(acts[0]));
      ActionLinesOneLine(acts[1..]);
    }
  }

  lemma BareOneLine()
    ensures forall a: Action | !a.FileInto? && !a.Redirect? :: OneLine(Command(a))
  {
  }

  lemma ActionsOneLine(r: Rule)
    requires OneLine(r.folder) && OneLine(r.forward)
    ensures forall a | a in Actions(r) :: OneLine(Command(a))
  {
    hide Actions, Escaped;
    EscapedKeepsLine(r.folder);
    EscapedKeepsLine(r.forward);
    OneLineConcat("fileinto ", Quote(r.folder));
    assert Command(FileInto(Escaped(r.folder))) == "fileinto " + Quote(r.folder);
    OneLineConcat("redirect :copy ", Quote(r.forward));
    assert Command(Redirect(Escaped(r.forward))) == "redirect :copy " + Quote(r.forward);
    BareOneLine();
    hide Command;
    ActionsAre(r);
  }

  lemma {:induction false} BlockOneLines(r: Rule)
    requires Plain(r)
    ensures OneLines(BlockLines(r))
  {
    hide IfLine, ActionLines, Actions, Command;
    SpacedIsName(r.name);
    IfOneLine(r);
    ActionsOneLine(r);
    ActionLinesOneLine(Actions(r));
    OneLineConcat("# rule: ", r.name);
  }

  lemma {:induction false} BlocksOneLines(rules: seq<Rule>)
    requires forall i | 0 <= i < |rules| :: Plain(rules[i])
    ensures OneLines(AllBlocks(rules))
  {
    hide BlockLines, Plain;
    if rules != [] {
      BlockOneLines(rules[0]);
      BlocksOneLines(rules[1..]);
    }
  }

  lemma {:induction false} NeedsOneLine(need: seq<string>, rules: seq<Rule>)
    requires OneLines(need)
    ensures OneLines(Needs(need, rules))
    decreases |rules|
  {
    if rules != [] {
      var r := rules[0];
      NeedsOneLine(Needing(Needing(Needing(need, r.folder != "", "fileinto"), r.markRead || r.star, "imap4flags"), r.forward != "", "copy"),
                   rules[1..]);
    }
  }

  lemma {:induction false} JoinOneLine(parts: seq<string>)
    requires OneLines(parts)
    ensures OneLine(Join(parts, ", "))
  {
    if |parts| > 1 {
      JoinOneLine(parts[1..]);
      OneLineConcat(parts[0], ", ");
      OneLineConcat(parts[0] + ", ", Join(parts[1..], ", "));
    }
  }

  lemma RequireOneLine(need: seq<string>)
    requires OneLines(need)
    ensures OneLine(RequireLine(need))
  {
    hide Quote, Join;
    var quoted := seq(|need|, i requires 0 <= i < |need| => Quote(need[i]));
    forall i | 0 <= i < |quoted|
      ensures OneLine(quoted[i])
    {
      EscapedKeepsLine(need[i]);
    }
    JoinOneLine(quoted);
    OneLineConcat("require [", Join(quoted, ", "));
  }

  lemma HeadingOneLine()
    ensures OneLine(HEADING)
  {
    OneLineConcat("that stops ends ", "delivery here.");
    OneLineConcat("order; a rule ", "that stops ends " + "delivery here.");
  }

  lemma HeadingOneLines(rules: seq<Rule>)
    ensures OneLines(Heading(rules))
  {
    hide Needs, RequireLine;
    NeedsOneLine([], rules);
    RequireOneLine(Needs([], rules));
    HeadingOneLine();
  }

  /** Every list of rules the page can write is read back from its script as it was, and
      recognised as the page's own. */
  lemma RulesRoundTrip(rules: seq<Rule>)
    requires forall i | 0 <= i < |rules| :: Plain(rules[i])
    ensures Read(Script(rules)) == (rules, true)
  {
    hide Plain, Heading, AllBlocks, Unlines;
    SkipLine("", []);
    assert ReadLines([""]) == Some([]) by { assert [""] + [] == [""]; }
    if rules == [] {
      assert Split("") == [""];
    } else {
      var ls := Heading(rules) + AllBlocks(rules);
      HeadingOneLines(rules);
      BlocksOneLines(rules);
      SplitUnlines(ls, "");
      assert Unlines(ls) + "" == Unlines(ls);
      BlocksRoundTrip(rules, [""]);
      HeadingSkipped(rules, AllBlocks(rules) + [""]);
      assert ls + [""] == Heading(rules) + (AllBlocks(rules) + [""]);
    }
  }

  /** So two lists of rules never share a script. */
  lemma ScriptIsInjective(a: seq<Rule>, b: seq<Rule>)
    requires forall i | 0 <= i < |a| :: Plain(a[i])
    requires forall i | 0 <= i < |b| :: Plain(b[i])
    ensures Script(a) == Script(b) ==> a == b
  {
    hide Script, Read, Plain;
    RulesRoundTrip(a);
    RulesRoundTrip(b);
  }

  // ----- as it is written

  function TextWhen(b: bool, a: Action): string {
    if b then ActionLine(a) + "\n" else ""
  }

  lemma {:induction false} ActionTextGrows(acts: seq<Action>, b: bool, a: Action)
    ensures Unlines(ActionLines(acts + When(b, a))) == Unlines(ActionLines(acts)) + TextWhen(b, a)
  {
    hide ActionLine;
    if b {
      ActionLinesConcat(acts, [a]);
      UnlinesConcat(ActionLines(acts), [ActionLine(a)]);
      assert ActionLines([a]) == [ActionLine(a)];
      assert Unlines([ActionLine(a)]) == ActionLine(a) + "\n";
    } else {
      assert acts + When(b, a) == acts;
    }
  }

  lemma {:induction false} ActionLinesConcat(a: seq<Action>, b: seq<Action>)
    ensures ActionLines(a + b) == ActionLines(a) + ActionLines(b)
  {
    hide ActionLine;
    if a == [] {
      assert a + b == b;
    } else {
      assert (a + b)[0] == a[0] && (a + b)[1..] == a[1..] + b;
      ActionLinesConcat(a[1..], b);
    }
  }

  lemma {:induction false} TextGrows(head: string, s: string, acts: seq<Action>, b: bool, a: Action)
    requires s == head + Unlines(ActionLines(acts))
    ensures (if b then s + (ActionLine(a) + "\n") else s) == head + Unlines(ActionLines(acts + When(b, a)))
  {
    hide ActionLine, When, ActionLines;
    ActionTextGrows(acts, b, a);
  }

  method Block(r: Rule) returns (s: string)
    ensures s == Unlines(BlockLines(r))
  {
    hide ActionLine, ActionLines, Escaped, IfLine, Spaced, When, Unlines;
    var folder, forward := FileInto(Escaped(r.folder)), Redirect(Escaped(r.forward));
    ghost var head, acts: seq<Action> := "# rule: " + Spaced(r.name) + "\n" + IfLine(r) + "\n", [];
    s := "# rule: " + Spaced(r.name) + "\n" + IfLine(r) + "\n";
    NoText();
    TextGrows(head, s, acts, r.markRead, AddSeen);
    if r.markRead { s := s + (ActionLine(AddSeen) + "\n"); }
    acts := acts + When(r.markRead, AddSeen);
    TextGrows(head, s, acts, r.star, AddFlagged);
    if r.star { s := s + (ActionLine(AddFlagged) + "\n"); }
    acts := acts + When(r.star, AddFlagged);
    TextGrows(head, s, acts, r.folder != "", folder);
    if r.folder != "" { s := s + (ActionLine(folder) + "\n"); }
    acts := acts + When(r.folder != "", folder);
    TextGrows(head, s, acts, r.forward != "", forward);
    if r.forward != "" { s := s + (ActionLine(forward) + "\n"); }
    acts := acts + When(r.forward != "", forward);
    TextGrows(head, s, acts, r.discard, Discard);
    if r.discard { s := s + (ActionLine(Discard) + "\n"); }
    acts := acts + When(r.discard, Discard);
    TextGrows(head, s, acts, r.stop, Stop);
    if r.stop { s := s + (ActionLine(Stop) + "\n"); }
    acts := acts + When(r.stop, Stop);
    assert acts == Actions(r) by { assert [] + When(r.markRead, AddSeen) == When(r.markRead, AddSeen); }
    BlockText(r, ActionLines(acts));
    s := s + "}\n";
  }

  lemma NoText()
    ensures Unlines(ActionLines([])) == ""
  {
  }

  lemma {:induction false} BlockText(r: Rule, acts: seq<string>)
    requires acts == ActionLines(Actions(r))
    ensures Unlines(BlockLines(r)) == "# rule: " + Spaced(r.name) + "\n" + IfLine(r) + "\n" + Unlines(acts) + "}\n"
  {
    hide ActionLines, Actions, IfLine, Spaced;
    var name, test := "# rule: " + Spaced(r.name), IfLine(r);
    UnlinesConcat([name, test] + acts, ["}"]);
    UnlinesConcat([name, test], acts);
    assert Unlines([test]) == test + "\n";
    assert [name, test][1..] == [test];
  }

  method RulesScriptFor(rules: seq<Rule>) returns (s: string)
    ensures s == Script(rules)
  {
    hide BlockLines, RequireLine, HEADING, Needs, Heading, AllBlocks, Unlines;
    if |rules| == 0 { return ""; }
    var need := CollectNeeds(rules);
    s := HEADING + "\n" + if need == [] then "" else RequireLine(need) + "\n";
    HeadingText(rules, need, s);
    s := WriteBlocks(s, rules);
    UnlinesConcat(Heading(rules), AllBlocks(rules));
  }

  /** The extensions the rules need, in the order first needed. */
  method CollectNeeds(rules: seq<Rule>) returns (need: seq<string>)
    ensures need == Needs([], rules)
  {
    hide Needing;
    need := [];
    assert rules[0..] == rules;
    for i := 0 to |rules|
      invariant Needs([], rules) == Needs(need, rules[i..])
    {
      var r := rules[i];
      assert rules[i..][0] == r && rules[i..][1..] == rules[i + 1..];
      need := Needing(need, r.folder != "", "fileinto");
      need := Needing(need, r.markRead || r.star, "imap4flags");
      need := Needing(need, r.forward != "", "copy");
    }
    assert rules[|rules|..] == [];
  }

  /** Each rule's block behind the text so far. */
  method WriteBlocks(head: string, rules: seq<Rule>) returns (s: string)
    ensures s == head + Unlines(AllBlocks(rules))
  {
    hide BlockLines, AllBlocks, Unlines;
    s := head;
    assert rules[0..] == rules;
    for i := 0 to |rules|
      invariant s + Unlines(AllBlocks(rules[i..])) == head + Unlines(AllBlocks(rules))
    {
      var block := Block(rules[i]);
      NextBlock(rules[i..]);
      assert rules[i..][0] == rules[i] && rules[i..][1..] == rules[i + 1..];
      ghost var rest := Unlines(AllBlocks(rules[i + 1..]));
      assert s + ("\n" + block + rest) == s + "\n" + block + rest;
      s := s + "\n" + block;
    }
    NoBlocks();
    assert rules[|rules|..] == [] && s + "" == s;
  }

  lemma NoBlocks()
    ensures Unlines(AllBlocks([])) == ""
  {
  }

  lemma HeadingText(rules: seq<Rule>, need: seq<string>, s: string)
    requires need == Needs([], rules)
    requires s == HEADING + "\n" + if need == [] then "" else RequireLine(need) + "\n"
    ensures s == Unlines(Heading(rules))
  {
    hide Needs, RequireLine, HEADING;
    var require := RequireLine(need);
    assert [HEADING, require][1..] == [require];
    assert Unlines([require]) == require + "\n";
    assert Unlines([HEADING, require]) == HEADING + "\n" + (require + "\n");
    assert [HEADING] + [require] == [HEADING, require];
    assert Unlines([HEADING]) == HEADING + "\n";
  }

  lemma {:induction false} NextBlock(rules: seq<Rule>)
    requires rules != []
    ensures Unlines(AllBlocks(rules)) == "\n" + Unlines(BlockLines(rules[0])) + Unlines(AllBlocks(rules[1..]))
  {
    hide BlockLines;
    UnlinesConcat([""] + BlockLines(rules[0]), AllBlocks(rules[1..]));
    UnlinesConcat([""], BlockLines(rules[0]));
    assert Unlines([""]) == "\n";
  }

  method ReadRules(content: string) returns (rules: seq<Rule>, ok: bool)
    ensures (rules, ok) == Read(content)
  {
    hide ReadIf, MatchAction, Acted, Script;
    var lines := Split(content);
    rules := [];
    assert lines[0..] == lines;
    NothingPrepended(ReadLines(lines));
    var i := 0;
    while i < |lines|
      invariant i <= |lines|
      invariant ReadLines(lines) == Prepended(rules, ReadLines(lines[i..]))
    {
      var name := After(lines[i], "# rule: ");
      var from := lines[i..];
      assert from[1..] == lines[i + 1..];
      if name.None? {
        i := i + 1;
        continue;
      }
      i := i + 1;
      if i >= |lines| { return [], false; }
      var test := ReadIf(lines[i]);
      if test.None? { return [], false; }
      var (off, any, cs) := test.value;
      var r := Blank(name.value, any, off, cs);
      i := i + 1;
      ghost var body, blank := lines[i..], r;
      assert from[1] == lines[i - 1] && from[2..] == body;
      while i < |lines| && lines[i] != "}"
        invariant 0 <= i <= |lines|
        invariant ReadActions(body, blank) == ReadActions(lines[i..], r)
      {
        var a := MatchAction(lines[i]);
        assert lines[i..][1..] == lines[i + 1..];
        if a.None? { return [], false; }
        r := Acted(r, a.value);
        i := i + 1;
      }
      ghost var was := rules;
      rules := rules + [r];
      i := if i < |lines| then i + 1 else i;
      OneMore(was, r, ReadLines(lines[i..]));
    }
    assert lines[i..] == [];
    assert rules + [] == rules;
    var script := RulesScriptFor(rules);
    ok := script == content;
  }

  function Prepended(rules: seq<Rule>, rest: Option<seq<Rule>>): Option<seq<Rule>> {
    match rest case None => None case Some(rs) => Some(rules + rs)
  }

  lemma NothingPrepended(o: Option<seq<Rule>>)
    ensures Prepended([], o) == o
  {
    if o.Some? { assert [] + o.value == o.value; }
  }

  lemma OneMore(rules: seq<Rule>, r: Rule, rest: Option<seq<Rule>>)
    ensures Prepended(rules, Prepended([r], rest)) == Prepended(rules + [r], rest)
  {
    if rest.Some? { assert rules + ([r] + rest.value) == rules + [r] + rest.value; }
  }
}
