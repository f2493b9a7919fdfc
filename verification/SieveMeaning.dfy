/** What the composed scripts do to a message: the text, read and run as Sieve, carries out the
    rules and the forwarding it was written from. */
module SieveMeaning {
  import opened Basics
  import opened Lines
  import opened SieveText
  import opened S = Sieve
  import R = SieveRules
  import F = SieveForwarding

  // ----- from text to tokens

  /** `s` is these tokens where `rest` follows it. */
  ghost predicate Lexes(s: string, ts: seq<Token>, rest: string) {
    Lex(s + rest) == Ahead(ts, Lex(rest))
  }

  lemma LexesBoth(a: string, ta: seq<Token>, b: string, tb: seq<Token>, rest: string)
    requires Lexes(a, ta, b + rest) && Lexes(b, tb, rest)
    ensures Lexes(a + b, ta + tb, rest)
  {
    hide Lex;
    assert a + b + rest == a + (b + rest);
    if Lex(rest).Some? { assert ta + (tb + Lex(rest).value) == ta + tb + Lex(rest).value; }
  }

  lemma LexesNothing(rest: string)
    ensures Lexes("", [], rest)
  {
    hide Lex;
    assert "" + rest == rest;
    if Lex(rest).Some? { assert [] + Lex(rest).value == Lex(rest).value; }
  }

  lemma {:induction false} LexesWhite(c: char, rest: string)
    requires White(c)
    ensures Lexes([c], [], rest)
  {
    assert ([c] + rest)[1..] == rest;
    if Lex(rest).Some? { assert [] + Lex(rest).value == Lex(rest).value; }
  }

  lemma {:induction false} LexesMark(c: char, rest: string)
    requires IsMark(c)
    ensures Lexes([c], [Mark(c)], rest)
  {
    assert ([c] + rest)[1..] == rest;
  }

  lemma {:induction false} SpanOf(w: string, rest: string)
    requires forall i | 0 <= i < |w| :: Letter(w[i])
    requires rest == "" || !Letter(rest[0])
    ensures Span(w + rest) == |w|
  {
    if w == "" {
      assert w + rest == rest;
    } else {
      assert (w + rest)[1..] == w[1..] + rest;
      SpanOf(w[1..], rest);
    }
  }

  predicate IsWord(w: string) {
    w != "" && (w[0] == ':' || Letter(w[0])) && forall i | 1 <= i < |w| :: Letter(w[i])
  }

  lemma {:induction false} LexesWord(w: string, rest: string)
    requires IsWord(w) && (rest == "" || !Letter(rest[0]))
    ensures Lexes(w, [Word(w)], rest)
  {
    var s := w + rest;
    assert s[1..] == w[1..] + rest;
    SpanOf(w[1..], rest);
    assert s[..|w|] == w && s[|w|..] == rest;
  }

  lemma {:induction false} QuotedIs(v: string, rest: string)
    ensures S.Quoted(Escaped(v) + ("\"" + rest)) == Some((v, rest))
  {
    var s := Escaped(v) + ("\"" + rest);
    if v == "" {
      assert s == "\"" + rest && s[1..] == rest;
    } else {
      var more := Escaped(v[1..]) + ("\"" + rest);
      QuotedIs(v[1..], rest);
      assert [v[0]] + v[1..] == v;
      if v[0] == '\\' || v[0] == '"' {
        assert s[0] == '\\' && s[1] == v[0] && s[2..] == more;
      } else {
        assert s[0] == v[0] && s[1..] == more;
      }
    }
  }

  lemma {:induction false} LexesText(v: string, rest: string)
    ensures Lexes(Quote(v), [Text(v)], rest)
  {
    QuotedIs(v, rest);
    assert (Quote(v) + rest)[0] == '"' && (Quote(v) + rest)[1..] == Escaped(v) + ("\"" + rest);
  }

  lemma {:induction false} NextLineOf(l: string, rest: string)
    requires OneLine(l)
    ensures NextLine(l + ("\n" + rest)) == rest
  {
    var s := l + ("\n" + rest);
    if l == "" {
      assert s == "\n" + rest && s[1..] == rest;
    } else {
      assert s[1..] == l[1..] + ("\n" + rest);
      NextLineOf(l[1..], rest);
    }
  }

  lemma {:induction false} LexesComment(l: string, rest: string)
    requires OneLine(l)
    ensures Lexes("#" + l + "\n", [], rest)
  {
    var s := "#" + l + "\n" + rest;
    assert s[0] == '#' && s[1..] == l + ("\n" + rest);
    NextLineOf(l, rest);
    if Lex(rest).Some? { assert [] + Lex(rest).value == Lex(rest).value; }
  }

  /** A word with the space behind it. */
  lemma LexesSpaced(w: string, rest: string)
    requires IsWord(w)
    ensures Lexes(w + " ", [Word(w)], rest)
  {
    hide Lexes;
    LexesWord(w, " " + rest);
    LexesWhite(' ', rest);
    LexesBoth(w, [Word(w)], " ", [], rest);
    assert [Word(w)] + [] == [Word(w)];
  }

  /** A mark with the space or the line's end behind it. */
  lemma LexesMarked(c: char, w: char, rest: string)
    requires IsMark(c) && White(w)
    ensures Lexes([c, w], [Mark(c)], rest)
  {
    hide Lexes;
    LexesMark(c, [w] + rest);
    LexesWhite(w, rest);
    LexesBoth([c], [Mark(c)], [w], [], rest);
    assert [c] + [w] == [c, w] && [Mark(c)] + [] == [Mark(c)];
  }

  /** Four spaces in front change nothing. */
  lemma LexesIndented(s: string, ts: seq<Token>, rest: string)
    requires Lexes(s, ts, rest)
    ensures Lexes("    " + s, ts, rest)
  {
    hide Lexes;
    LexesIndent(" ", s, ts, rest);
    LexesIndent(" ", " " + s, ts, rest);
    LexesIndent(" ", " " + (" " + s), ts, rest);
    LexesIndent(" ", " " + (" " + (" " + s)), ts, rest);
    assert "    " + s == " " + (" " + (" " + (" " + s)));
  }

  lemma LexesIndent(w: string, s: string, ts: seq<Token>, rest: string)
    requires w == " " && Lexes(s, ts, rest)
    ensures Lexes(w + s, ts, rest)
  {
    hide Lexes;
    LexesWhite(' ', s + rest);
    LexesBoth(w, [], s, ts, rest);
    assert [] + ts == ts;
  }

  // ----- one test

  /** A condition by what it asks, without a restriction on its value. */
  predicate Asks(c: R.Condition) {
    && (c.field == "from" || c.field == "to" || c.field == "cc" || c.field == "subject" || c.field == "list")
    && (c.relation == "is" || c.relation == "contains" || c.relation == "domain")
  }

  function Named(c: R.Condition): string {
    if c.field == "list" then "list-id" else c.field
  }

  /** The test a condition stands for. */
  function Tested(c: R.Condition): (t: Test)
    ensures t.OfAddress? || t.OfHeader?
  {
    if c.relation == "domain" then OfAddress(true, false, Named(c), c.value)
    else if c.field == "subject" || c.field == "list" then OfHeader(c.relation == "contains", Named(c), c.value)
    else OfAddress(false, c.relation == "contains", Named(c), c.value)
  }

  lemma LexesThen(w: string, s: string, ts: seq<Token>, rest: string)
    requires IsWord(w) && Lexes(s, ts, rest)
    ensures Lexes(w + " " + s, [Word(w)] + ts, rest)
  {
    hide Lexes, IsWord;
    LexesSpaced(w, s + rest);
    LexesBoth(w + " ", [Word(w)], s, ts, rest);
  }

  lemma LexesPair(h: string, v: string, rest: string)
    ensures Lexes(Quote(h) + (" " + Quote(v)), [Text(h), Text(v)], rest)
  {
    hide Lexes, Quote;
    LexesText(v, rest);
    LexesIndent(" ", Quote(v), [Text(v)], rest);
    LexesText(h, " " + Quote(v) + rest);
    LexesBoth(Quote(h), [Text(h)], " " + Quote(v), [Text(v)], rest);
    assert [Text(h)] + [Text(v)] == [Text(h), Text(v)];
  }

  function Relation(contains: bool): string {
    if contains then ":contains" else ":is"
  }

  /** A test as tokens. */
  function TestTokens(t: Test): seq<Token>
    requires t.OfAddress? || t.OfHeader?
  {
    (if t.OfHeader? then [Word("header")] else if t.domain then [Word("address"), Word(":domain")] else [Word("address")])
    + [Word(Relation(t.contains)), Text(t.header), Text(t.key)]
  }

  lemma HowWords()
    ensures IsWord("header") && IsWord("address") && IsWord(":domain") && IsWord(":contains") && IsWord(":is")
  {
  }

  lemma TestText(c: R.Condition)
    requires Asks(c)
    ensures var pair := Quote(Named(c)) + (" " + Quote(c.value));
      R.Test(c) == if c.relation == "domain" then "address" + " " + (":domain" + " " + (":is" + " " + pair))
                   else (if c.field == "subject" || c.field == "list" then "header" else "address") + " "
                        + (Relation(c.relation == "contains") + " " + pair)
  {
    hide Quote;
    var pair := Quote(Named(c)) + (" " + Quote(c.value));
    assert R.HeaderOf(c.field) == Named(c);
    assert R.Test(c) == R.Kind(c) + ((R.How(c) + " ") + pair);
    if c.relation == "domain" {
      assert "address :" + (("domain :is" + " ") + pair) == "address" + " " + (":domain" + " " + (":is" + " " + pair));
    } else if c.relation == "is" {
      assert "address :" + (("is" + " ") + pair) == "address" + " " + (":is" + " " + pair);
      assert "header :" + (("is" + " ") + pair) == "header" + " " + (":is" + " " + pair);
    } else {
      assert "address :" + (("contains" + " ") + pair) == "address" + " " + (":contains" + " " + pair);
      assert "header :" + (("contains" + " ") + pair) == "header" + " " + (":contains" + " " + pair);
    }
  }

  lemma TestLexes(c: R.Condition, rest: string)
    requires Asks(c)
    ensures Lexes(R.Test(c), TestTokens(Tested(c)), rest)
  {
    hide Lexes, IsWord, R.Test, Quote, Named;
    TestText(c);
    HowWords();
    var h, v := Named(c), c.value;
    var pair := Quote(h) + (" " + Quote(v));
    LexesPair(h, v, rest);
    if c.relation == "domain" {
      LexesThen(":is", pair, [Text(h), Text(v)], rest);
      LexesThen(":domain", ":is" + " " + pair, [Word(":is")] + [Text(h), Text(v)], rest);
      LexesThen("address", ":domain" + " " + (":is" + " " + pair), [Word(":domain")] + ([Word(":is")] + [Text(h), Text(v)]), rest);
      assert [Word("address")] + ([Word(":domain")] + ([Word(":is")] + [Text(h), Text(v)])) == TestTokens(Tested(c));
    } else {
      var how := Relation(c.relation == "contains");
      var kind := if c.field == "subject" || c.field == "list" then "header" else "address";
      LexesThen(how, pair, [Text(h), Text(v)], rest);
      LexesThen(kind, how + " " + pair, [Word(how)] + [Text(h), Text(v)], rest);
      assert [Word(kind)] + ([Word(how)] + [Text(h), Text(v)]) == TestTokens(Tested(c));
    }
  }

  // ----- the line of tests

  predicate AsksAll(cs: seq<R.Condition>) {
    forall i | 0 <= i < |cs| :: Asks(cs[i])
  }

  function TestedAll(cs: seq<R.Condition>): (ts: seq<Test>)
    ensures |ts| == |cs| && forall i | 0 <= i < |cs| :: ts[i] == Tested(cs[i])
  {
    if cs == [] then [] else [Tested(cs[0])] + TestedAll(cs[1..])
  }

  function ListTokens(cs: seq<R.Condition>): seq<Token> {
    if cs == [] then []
    else if |cs| == 1 then TestTokens(Tested(cs[0]))
    else TestTokens(Tested(cs[0])) + ([Mark(',')] + ListTokens(cs[1..]))
  }

  lemma {:induction false} ListLexes(cs: seq<R.Condition>, rest: string)
    requires AsksAll(cs)
    ensures Lexes(R.Tests(cs), ListTokens(cs), rest)
  {
    hide Lexes, Asks, R.Test, TestTokens, Tested;
    if cs == [] {
      LexesNothing(rest);
    } else if |cs| == 1 {
      TestLexes(cs[0], rest);
    } else {
      var more := R.Tests(cs[1..]);
      ListLexes(cs[1..], rest);
      LexesMarked(',', ' ', more + rest);
      LexesBoth(", ", [Mark(',')], more, ListTokens(cs[1..]), rest);
      TestLexes(cs[0], ", " + more + rest);
      LexesBoth(R.Test(cs[0]), TestTokens(Tested(cs[0])), ", " + more, [Mark(',')] + ListTokens(cs[1..]), rest);
      assert R.Tests(cs) == R.Test(cs[0]) + (", " + more);
    }
  }

  function GroupTokens(r: R.Rule): seq<Token> {
    [Word(if r.any then "anyof" else "allof"), Mark('(')] + ListTokens(r.conditions) + [Mark(')')]
  }

  function ConditionTokens(r: R.Rule): seq<Token> {
    if r.off then [Word("allof"), Mark('('), Word("false"), Mark(',')] + GroupTokens(r) + [Mark(')')] else GroupTokens(r)
  }

  lemma GroupWords()
    ensures IsWord("anyof") && IsWord("allof") && IsWord("false") && IsWord("if")
  {
  }

  /** A word with an opening parenthesis. */
  lemma LexesOpen(w: string, rest: string)
    requires IsWord(w)
    ensures Lexes(w + "(", [Word(w), Mark('(')], rest)
  {
    hide Lexes, IsWord;
    LexesMark('(', rest);
    LexesWord(w, "(" + rest);
    LexesBoth(w, [Word(w)], "(", [Mark('(')], rest);
    assert [Word(w)] + [Mark('(')] == [Word(w), Mark('(')];
  }

  lemma GroupLexes(r: R.Rule, rest: string)
    requires AsksAll(r.conditions)
    ensures Lexes(R.Group(r), GroupTokens(r), rest)
  {
    hide Lexes, AsksAll, R.Tests, ListTokens, IsWord;
    GroupWords();
    var w := if r.any then "anyof" else "allof";
    var tests := R.Tests(r.conditions);
    LexesMark(')', rest);
    ListLexes(r.conditions, ")" + rest);
    LexesOpen(w, tests + (")" + rest));
    LexesBoth(w + "(", [Word(w), Mark('(')], tests, ListTokens(r.conditions), ")" + rest);
    LexesBoth(w + "(" + tests, [Word(w), Mark('(')] + ListTokens(r.conditions), ")", [Mark(')')], rest);
    assert R.Group(r) == w + "(" + tests + ")";
  }

  lemma OffOpens(rest: string)
    ensures Lexes("allof(false, ", [Word("allof"), Mark('('), Word("false"), Mark(',')], rest)
  {
    hide Lexes, IsWord;
    GroupWords();
    LexesMarked(',', ' ', rest);
    LexesWord("false", ", " + rest);
    LexesBoth("false", [Word("false")], ", ", [Mark(',')], rest);
    LexesOpen("allof", "false" + ", " + rest);
    assert "allof" + "(" == "allof(";
    LexesBoth("allof(", [Word("allof"), Mark('(')], "false" + ", ", [Word("false")] + [Mark(',')], rest);
    assert "allof(" + ("false" + ", ") == "allof(false, ";
    assert [Word("allof"), Mark('(')] + ([Word("false")] + [Mark(',')]) == [Word("allof"), Mark('('), Word("false"), Mark(',')];
  }

  lemma ConditionLexes(r: R.Rule, rest: string)
    requires AsksAll(r.conditions)
    ensures Lexes(if r.off then "allof(false, " + R.Group(r) + ")" else R.Group(r), ConditionTokens(r), rest)
  {
    hide Lexes, AsksAll, R.Group, GroupTokens;
    if r.off {
      var open := [Word("allof"), Mark('('), Word("false"), Mark(',')];
      LexesMark(')', rest);
      GroupLexes(r, ")" + rest);
      OffOpens(R.Group(r) + (")" + rest));
      LexesBoth("allof(false, ", open, R.Group(r), GroupTokens(r), ")" + rest);
      LexesBoth("allof(false, " + R.Group(r), open + GroupTokens(r), ")", [Mark(')')], rest);
    } else {
      GroupLexes(r, rest);
    }
  }

  lemma IfLexes(r: R.Rule, rest: string)
    requires AsksAll(r.conditions)
    ensures Lexes(R.IfLine(r) + "\n", [Word("if")] + (ConditionTokens(r) + [Mark('{')]), rest)
  {
    hide Lexes, AsksAll, R.Group, ConditionTokens, IsWord;
    GroupWords();
    var test := if r.off then "allof(false, " + R.Group(r) + ")" else R.Group(r);
    LexesMarked('{', '\n', rest);
    LexesIndent(" ", "{\n", [Mark('{')], rest);
    ConditionLexes(r, " " + "{\n" + rest);
    LexesBoth(test, ConditionTokens(r), " " + "{\n", [Mark('{')], rest);
    LexesThen("if", test + (" " + "{\n"), ConditionTokens(r) + [Mark('{')], rest);
    assert R.IfLine(r) + "\n" == "if" + " " + (test + (" " + "{\n"));
  }

  // ----- the actions

  /** The command an action line stands for. */
  function Ordered(a: R.Action): Command {
    match a
    case FileInto(body) => FileInto(Unquote(body))
    case AddSeen => AddFlag("\\Seen")
    case AddFlagged => AddFlag("\\Flagged")
    case Redirect(body) => Redirect(true, Unquote(body))
    case Discard => Discard
    case Stop => Stop
  }

  /** An action whose string was written by quoting one. */
  predicate Written(a: R.Action) {
    match a
    case FileInto(body) => body == Escaped(Unquote(body))
    case Redirect(body) => body == Escaped(Unquote(body))
    case _ => true
  }

  function CommandTokens(c: Command): seq<Token> {
    match c
    case If(_, _) => []
    case AddFlag(v) => [Word("addflag"), Text(v), Mark(';')]
    case FileInto(v) => [Word("fileinto"), Text(v), Mark(';')]
    case Redirect(copy, v) => [Word("redirect")] + (if copy then [Word(":copy")] else []) + [Text(v), Mark(';')]
    case Discard => [Word("discard"), Mark(';')]
    case Stop => [Word("stop"), Mark(';')]
  }

  lemma ActionWords()
    ensures IsWord("addflag") && IsWord("fileinto") && IsWord("redirect") && IsWord(":copy") && IsWord("discard") && IsWord("stop")
  {
  }

  lemma LexesArgument(v: string, rest: string)
    ensures Lexes(Quote(v) + ";\n", [Text(v), Mark(';')], rest)
  {
    hide Lexes, Quote;
    LexesMarked(';', '\n', rest);
    LexesText(v, ";\n" + rest);
    LexesBoth(Quote(v), [Text(v)], ";\n", [Mark(';')], rest);
    assert [Text(v)] + [Mark(';')] == [Text(v), Mark(';')];
  }

  lemma LexesBare(w: string, rest: string)
    requires IsWord(w)
    ensures Lexes(w + ";\n", [Word(w), Mark(';')], rest)
  {
    hide Lexes, IsWord;
    LexesMarked(';', '\n', rest);
    LexesWord(w, ";\n" + rest);
    LexesBoth(w, [Word(w)], ";\n", [Mark(';')], rest);
    assert [Word(w)] + [Mark(';')] == [Word(w), Mark(';')];
  }

  lemma LexesRedirect(copy: bool, v: string, rest: string)
    ensures Lexes((if copy then "redirect :copy " else "redirect ") + (Quote(v) + ";\n"), CommandTokens(Redirect(copy, v)), rest)
  {
    hide Lexes, Quote, IsWord;
    ActionWords();
    var argument := Quote(v) + ";\n";
    LexesArgument(v, rest);
    if copy {
      LexesThen(":copy", argument, [Text(v), Mark(';')], rest);
      LexesThen("redirect", ":copy" + " " + argument, [Word(":copy")] + [Text(v), Mark(';')], rest);
      assert "redirect" + " " + (":copy" + " " + argument) == "redirect :copy " + argument;
      assert [Word("redirect")] + ([Word(":copy")] + [Text(v), Mark(';')]) == CommandTokens(Redirect(copy, v));
    } else {
      LexesThen("redirect", argument, [Text(v), Mark(';')], rest);
      assert "redirect" + " " + argument == "redirect " + argument;
      assert [Word("redirect")] + [Text(v), Mark(';')] == CommandTokens(Redirect(copy, v));
    }
  }

  lemma FlagText(name: string)
    requires '\\' !in name && '"' !in name
    ensures Quote("\\" + name) == "\"\\\\" + name + "\""
  {
    hide Escaped;
    QuoteWrites("\\", name, '\\');
    EscapedPlain(name);
  }

  lemma LexesFlag(name: string, rest: string)
    requires name == "Seen" || name == "Flagged"
    ensures Lexes("addflag \"\\\\" + name + "\";\n", [Word("addflag"), Text("\\" + name), Mark(';')], rest)
  {
    hide Lexes, Quote, IsWord;
    ActionWords();
    FlagText(name);
    var v := "\\" + name;
    LexesArgument(v, rest);
    LexesThen("addflag", Quote(v) + ";\n", [Text(v), Mark(';')], rest);
    assert "addflag" + " " + (Quote(v) + ";\n") == "addflag \"\\\\" + name + "\";\n";
    assert [Word("addflag")] + [Text(v), Mark(';')] == [Word("addflag"), Text(v), Mark(';')];
  }

  lemma FlagLexes(a: R.Action, rest: string)
    requires a.AddSeen? || a.AddFlagged?
    ensures Lexes(R.Command(a) + ";\n", CommandTokens(Ordered(a)), rest)
  {
    hide Lexes;
    var name := if a.AddSeen? then "Seen" else "Flagged";
    LexesFlag(name, rest);
    assert Ordered(a) == AddFlag("\\" + name) by { assert "\\" + "Seen" == "\\Seen" && "\\" + "Flagged" == "\\Flagged"; }
    assert R.Command(a) + ";\n" == "addflag \"\\\\" + name + "\";\n";
  }

  lemma StringText(a: R.Action, v: string)
    requires (a.FileInto? || a.Redirect?) && a.body == Escaped(v)
    ensures R.Command(a) + ";\n" == (if a.Redirect? then "redirect :copy " else "fileinto" + " ") + (Quote(v) + ";\n")
  {
    hide Escaped;
    if a.Redirect? {
      assert "redirect :copy \"" + a.body + "\"" + ";\n" == "redirect :copy " + ("\"" + a.body + "\"" + ";\n");
    } else {
      assert "fileinto \"" + a.body + "\"" + ";\n" == "fileinto" + " " + ("\"" + a.body + "\"" + ";\n");
    }
  }

  lemma StringLexes(a: R.Action, rest: string)
    requires Written(a) && (a.FileInto? || a.Redirect?)
    ensures Lexes(R.Command(a) + ";\n", CommandTokens(Ordered(a)), rest)
  {
    hide Lexes, IsWord, Escaped, Unquote, Quote, R.Command;
    ActionWords();
    var v := Unquote(a.body);
    StringText(a, v);
    if a.Redirect? {
      LexesRedirect(true, v, rest);
    } else {
      LexesArgument(v, rest);
      LexesThen("fileinto", Quote(v) + ";\n", [Text(v), Mark(';')], rest);
      assert [Word("fileinto")] + [Text(v), Mark(';')] == CommandTokens(Ordered(a));
    }
  }

  lemma CommandLexes(a: R.Action, rest: string)
    requires Written(a)
    ensures Lexes(R.Command(a) + ";\n", CommandTokens(Ordered(a)), rest)
  {
    hide Lexes, IsWord, Escaped, Unquote;
    ActionWords();
    match a
    case AddSeen => FlagLexes(a, rest);
    case AddFlagged => FlagLexes(a, rest);
    case Discard => LexesBare("discard", rest);
    case Stop => LexesBare("stop", rest);
    case Redirect(_) => StringLexes(a, rest);
    case FileInto(_) => StringLexes(a, rest);
  }

  function CommandsTokens(cs: seq<Command>): seq<Token> {
    if cs == [] then [] else CommandTokens(cs[0]) + CommandsTokens(cs[1..])
  }

  function OrderedAll(acts: seq<R.Action>): (cs: seq<Command>)
    ensures |cs| == |acts|
  {
    if acts == [] then [] else [Ordered(acts[0])] + OrderedAll(acts[1..])
  }

  lemma {:induction false} ActionsLex(acts: seq<R.Action>, rest: string)
    requires WrittenAll(acts)
    ensures Lexes(Unlines(R.ActionLines(acts)), CommandsTokens(OrderedAll(acts)), rest)
  {
    hide Lexes, Written, Ordered, CommandTokens, R.Command, Unlines, R.ActionLine;
    if acts == [] {
      R.NoText();
      LexesNothing(rest);
    } else {
      var line, more := R.Command(acts[0]) + ";\n", Unlines(R.ActionLines(acts[1..]));
      ActionsLex(acts[1..], rest);
      CommandLexes(acts[0], more + rest);
      LexesIndented(line, CommandTokens(Ordered(acts[0])), more + rest);
      LexesBoth("    " + line, CommandTokens(Ordered(acts[0])), more, CommandsTokens(OrderedAll(acts[1..])), rest);
      FirstAction(acts);
    }
  }

  lemma {:induction false} FirstAction(acts: seq<R.Action>)
    requires acts != []
    ensures Unlines(R.ActionLines(acts)) == "    " + (R.Command(acts[0]) + ";\n") + Unlines(R.ActionLines(acts[1..]))
  {
    hide R.Command;
    assert R.ActionLines(acts)[1..] == R.ActionLines(acts[1..]);
  }

  // ----- the script

  predicate AsksRule(r: R.Rule) {
    AsksAll(r.conditions)
  }

  function BlockTokens(r: R.Rule): seq<Token> {
    [Word("if")] + (ConditionTokens(r) + [Mark('{')]) + (CommandsTokens(OrderedAll(R.Actions(r))) + [Mark('}')])
  }

  predicate WrittenAll(acts: seq<R.Action>) {
    forall i | 0 <= i < |acts| :: Written(acts[i])
  }

  lemma WrittenMore(acts: seq<R.Action>, b: bool, a: R.Action)
    requires WrittenAll(acts) && Written(a)
    ensures WrittenAll(acts + R.When(b, a))
  {
    hide Written;
  }

  lemma {:induction false} ActionsWritten(r: R.Rule)
    ensures WrittenAll(R.Actions(r))
  {
    hide Escaped, Unquote, WrittenAll, R.When;
    UnquoteEscaped(r.folder);
    UnquoteEscaped(r.forward);
    var acts: seq<R.Action> := [];
    assert WrittenAll(acts) by { NoneWritten(); }
    WrittenMore(acts, r.markRead, R.AddSeen);
    acts := acts + R.When(r.markRead, R.AddSeen);
    assert acts == R.When(r.markRead, R.AddSeen);
    WrittenMore(acts, r.star, R.AddFlagged);
    acts := acts + R.When(r.star, R.AddFlagged);
    WrittenMore(acts, r.folder != "", R.FileInto(Escaped(r.folder)));
    acts := acts + R.When(r.folder != "", R.FileInto(Escaped(r.folder)));
    WrittenMore(acts, r.forward != "", R.Redirect(Escaped(r.forward)));
    acts := acts + R.When(r.forward != "", R.Redirect(Escaped(r.forward)));
    WrittenMore(acts, r.discard, R.Discard);
    acts := acts + R.When(r.discard, R.Discard);
    WrittenMore(acts, r.stop, R.Stop);
  }

  lemma NoneWritten()
    ensures WrittenAll([])
  {
  }

  lemma {:induction false} SpacedOneLine(name: string)
    ensures OneLine(R.Spaced(name)) && |R.Spaced(name)| == |name|
    ensures forall i | 0 <= i < |name| :: R.Spaced(name)[i] == if name[i] == '\n' then ' ' else name[i]
  {
    if name != "" { SpacedOneLine(name[1..]); }
  }

  lemma {:induction false} BlockLexes(r: R.Rule, rest: string)
    requires AsksRule(r)
    ensures Lexes(Unlines(R.BlockLines(r)), BlockTokens(r), rest)
  {
    hide Lexes, AsksAll, R.IfLine, R.Spaced, R.Actions, R.ActionLines, ConditionTokens, CommandsTokens, Unlines, WrittenAll, OneLine;
    var name, test, acts := " rule: " + R.Spaced(r.name), R.IfLine(r) + "\n", Unlines(R.ActionLines(R.Actions(r)));
    var body := CommandsTokens(OrderedAll(R.Actions(r)));
    var head := [Word("if")] + (ConditionTokens(r) + [Mark('{')]);
    R.BlockText(r, R.ActionLines(R.Actions(r)));
    LexesMarked('}', '\n', rest);
    ActionsWritten(r);
    ActionsLex(R.Actions(r), "}\n" + rest);
    LexesBoth(acts, body, "}\n", [Mark('}')], rest);
    IfLexes(r, acts + "}\n" + rest);
    LexesBoth(test, head, acts + "}\n", body + [Mark('}')], rest);
    NameIsComment(r.name, name, test + (acts + "}\n") + rest);
    LexesBoth("#" + name + "\n", [], test + (acts + "}\n"), BlockTokens(r), rest);
    assert [] + BlockTokens(r) == BlockTokens(r);
    assert Unlines(R.BlockLines(r)) == "#" + name + "\n" + (test + (acts + "}\n")) by {
      assert "#" + name == "# rule: " + R.Spaced(r.name);
    }
  }

  lemma NameIsComment(name: string, l: string, rest: string)
    requires l == " rule: " + R.Spaced(name)
    ensures Lexes("#" + l + "\n", [], rest)
  {
    hide Lexes, R.Spaced;
    SpacedOneLine(name);
    OneLineConcat(" rule: ", R.Spaced(name));
    LexesComment(l, rest);
  }

  function BlocksTokens(rules: seq<R.Rule>): seq<Token> {
    if rules == [] then [] else BlockTokens(rules[0]) + BlocksTokens(rules[1..])
  }

  predicate AsksRules(rules: seq<R.Rule>) {
    forall i | 0 <= i < |rules| :: AsksRule(rules[i])
  }

  lemma {:induction false} BlocksLex(rules: seq<R.Rule>, rest: string)
    requires AsksRules(rules)
    ensures Lexes(Unlines(R.AllBlocks(rules)), BlocksTokens(rules), rest)
  {
    hide Lexes, AsksRule, R.BlockLines, BlockTokens;
    if rules == [] {
      LexesNothing(rest);
    } else {
      var block, more := Unlines(R.BlockLines(rules[0])), Unlines(R.AllBlocks(rules[1..]));
      BlocksLex(rules[1..], rest);
      BlockLexes(rules[0], more + rest);
      LexesBoth(block, BlockTokens(rules[0]), more, BlocksTokens(rules[1..]), rest);
      LexesWhite('\n', block + more + rest);
      LexesBoth("\n", [], block + more, BlocksTokens(rules), rest);
      assert [] + BlocksTokens(rules) == BlocksTokens(rules);
      R.NextBlock(rules);
      assert Unlines(R.AllBlocks(rules)) == "\n" + (block + more);
    }
  }

  function Texts(names: seq<string>): seq<Token> {
    if names == [] then []
    else if |names| == 1 then [Text(names[0])]
    else [Text(names[0]), Mark(',')] + Texts(names[1..])
  }

  function RequireTokens(names: seq<string>): seq<Token> {
    [Word("require"), Mark('[')] + (Texts(names) + [Mark(']'), Mark(';')])
  }

  function QuotedAll(names: seq<string>): seq<string> {
    seq(|names|, i requires 0 <= i < |names| => Quote(names[i]))
  }

  lemma {:induction false} NamesLex(names: seq<string>, rest: string)
    ensures Lexes(Join(QuotedAll(names), ", "), Texts(names), rest)
  {
    hide Lexes, Quote;
    if names == [] {
      LexesNothing(rest);
    } else if |names| == 1 {
      LexesText(names[0], rest);
    } else {
      var more := Join(QuotedAll(names[1..]), ", ");
      assert QuotedAll(names)[1..] == QuotedAll(names[1..]);
      NamesLex(names[1..], rest);
      LexesMarked(',', ' ', more + rest);
      LexesText(names[0], ", " + (more + rest));
      LexesBoth(Quote(names[0]), [Text(names[0])], ", ", [Mark(',')], more + rest);
      assert [Text(names[0])] + [Mark(',')] == [Text(names[0]), Mark(',')];
      LexesBoth(Quote(names[0]) + ", ", [Text(names[0]), Mark(',')], more, Texts(names[1..]), rest);
    }
  }

  lemma RequireLexes(names: seq<string>, rest: string)
    ensures Lexes(RequireLine(names) + "\n", RequireTokens(names), rest)
  {
    hide Lexes, Join, Texts, Quote;
    var list := Join(QuotedAll(names), ", ");
    LexesMarked(';', '\n', rest);
    LexesMark(']', ";\n" + rest);
    LexesBoth("]", [Mark(']')], ";\n", [Mark(';')], rest);
    assert "]" + ";\n" == "];\n" && [Mark(']')] + [Mark(';')] == [Mark(']'), Mark(';')];
    NamesLex(names, "];\n" + rest);
    LexesBoth(list, Texts(names), "];\n", [Mark(']'), Mark(';')], rest);
    RequireOpens(list + "];\n" + rest);
    LexesBoth("require [", [Word("require"), Mark('[')], list + "];\n", Texts(names) + [Mark(']'), Mark(';')], rest);
    assert RequireLine(names) + "\n" == "require [" + (list + "];\n");
  }

  lemma RequireOpens(rest: string)
    ensures Lexes("require [", [Word("require"), Mark('[')], rest)
  {
    hide Lexes;
    LexesMark('[', rest);
    LexesThen("require", "[", [Mark('[')], rest);
    assert "require" + " " + "[" == "require [" && [Word("require")] + [Mark('[')] == [Word("require"), Mark('[')];
  }

  function NeedTokens(need: seq<string>): seq<Token> {
    if need == [] then [] else RequireTokens(need)
  }

  /** The heading's comment and what the script requires. */
  lemma HeadingLexes(heading: string, need: seq<string>, rest: string)
    requires heading != "" && heading[0] == '#' && OneLine(heading)
    ensures Lexes(heading + "\n" + (if need == [] then "" else RequireLine(need) + "\n"), NeedTokens(need), rest)
  {
    hide Lexes, RequireLine, RequireTokens;
    var require := if need == [] then "" else RequireLine(need) + "\n";
    if need == [] { LexesNothing(rest); } else { RequireLexes(need, rest); }
    assert heading == "#" + heading[1..];
    LexesComment(heading[1..], require + rest);
    LexesBoth(heading + "\n", [], require, NeedTokens(need), rest);
    assert [] + NeedTokens(need) == NeedTokens(need);
  }

  lemma RulesScriptLexes(rules: seq<R.Rule>)
    requires AsksRules(rules)
    ensures Lex(R.Script(rules)) == Some(NeedTokens(R.Needs([], rules)) + BlocksTokens(rules))
  {
    hide Lexes, AsksRules, R.Needs, RequireLine, R.AllBlocks, R.Heading, Unlines, NeedTokens;
    if rules == [] {
      EmptyScriptLexes(rules);
    } else {
      var need := R.Needs([], rules);
      var heading, blocks := R.HEADING + "\n" + (if need == [] then "" else RequireLine(need) + "\n"), Unlines(R.AllBlocks(rules));
      R.HeadingText(rules, need, heading);
      UnlinesConcat(R.Heading(rules), R.AllBlocks(rules));
      BlocksLex(rules, "");
      R.HeadingOneLine();
      HeadingLexes(R.HEADING, need, blocks + "");
      LexesBoth(heading, NeedTokens(need), blocks, BlocksTokens(rules), "");
      LexedWhole(heading + blocks, NeedTokens(need) + BlocksTokens(rules));
    }
  }

  lemma EmptyScriptLexes(rules: seq<R.Rule>)
    requires rules == []
    ensures Lex(R.Script(rules)) == Some(NeedTokens(R.Needs([], rules)) + BlocksTokens(rules))
  {
    hide Unlines;
    assert NeedTokens(R.Needs([], rules)) == [] && BlocksTokens(rules) == [];
    assert NeedTokens(R.Needs([], rules)) + BlocksTokens(rules) == [];
  }

  lemma LexedWhole(s: string, ts: seq<Token>)
    requires Lexes(s, ts, "")
    ensures Lex(s) == Some(ts)
  {
    assert s + "" == s && ts + [] == ts && Lex("") == Some([]);
  }

  // ----- from tokens to commands

  lemma ParsesTest(t: Test, rest: seq<Token>)
    requires t.OfAddress? || t.OfHeader?
    ensures ParseTest(TestTokens(t) + rest) == Some((t, rest))
  {
    hide ParseTests;
    var ts := TestTokens(t) + rest;
    if t.OfAddress? && t.domain {
      assert ts[2..] == [Word(Relation(t.contains)), Text(t.header), Text(t.key)] + rest;
      assert ts[5..] == rest;
    } else {
      assert ts[1..] == [Word(Relation(t.contains)), Text(t.header), Text(t.key)] + rest;
      assert ts[4..] == rest;
    }
  }

  lemma {:induction false} ParsesList(cs: seq<R.Condition>, rest: seq<Token>)
    ensures ParseTests(ListTokens(cs) + ([Mark(')')] + rest)) == if cs == [] then None else Some((TestedAll(cs), rest))
  {
    hide ParseTest, ParseTests, TestTokens, Tested;
    var close := [Mark(')')] + rest;
    if cs == [] {
      assert ListTokens(cs) + close == close;
      NoTests(close);
    } else if |cs| == 1 {
      LastTest(Tested(cs[0]), rest);
      assert TestedAll(cs) == [Tested(cs[0])];
    } else {
      ParsesList(cs[1..], rest);
      NextTest(Tested(cs[0]), ListTokens(cs[1..]) + close, TestedAll(cs[1..]), rest);
      assert ListTokens(cs) + close == TestTokens(Tested(cs[0])) + ([Mark(',')] + (ListTokens(cs[1..]) + close));
    }
  }

  lemma LastTest(t: Test, rest: seq<Token>)
    requires t.OfAddress? || t.OfHeader?
    ensures ParseTests(TestTokens(t) + ([Mark(')')] + rest)) == Some(([t], rest))
  {
    hide ParseTest, TestTokens;
    ParsesTest(t, [Mark(')')] + rest);
    assert ([Mark(')')] + rest)[1..] == rest;
  }

  lemma NextTest(t: Test, ts: seq<Token>, more: seq<Test>, rest: seq<Token>)
    requires t.OfAddress? || t.OfHeader?
    requires ParseTests(ts) == Some((more, rest))
    ensures ParseTests(TestTokens(t) + ([Mark(',')] + ts)) == Some(([t] + more, rest))
  {
    hide ParseTest, TestTokens;
    ParsesTest(t, [Mark(',')] + ts);
    assert ([Mark(',')] + ts)[1..] == ts;
  }

  lemma NoTests(ts: seq<Token>)
    requires ts != [] && ts[0].Mark?
    ensures ParseTests(ts) == None
  {
  }

  function Grouped(r: R.Rule): Test {
    if r.any then AnyOf(TestedAll(r.conditions)) else AllOf(TestedAll(r.conditions))
  }

  function Guard(r: R.Rule): Test {
    if r.off then AllOf([False, Grouped(r)]) else Grouped(r)
  }

  lemma ParsesGroup(r: R.Rule, rest: seq<Token>)
    ensures ParseTest(GroupTokens(r) + rest) == if r.conditions == [] then None else Some((Grouped(r), rest))
  {
    hide ParseTests, ListTokens, TestedAll, Compared;
    var ts := GroupTokens(r) + rest;
    ParsesList(r.conditions, rest);
    assert ts[2..] == ListTokens(r.conditions) + ([Mark(')')] + rest);
  }

  lemma ParsesLast(ts: seq<Token>, test: Option<Test>, rest: seq<Token>)
    requires ParseTest(ts) == if test.None? then None else Some((test.value, [Mark(')')] + rest))
    ensures ParseTests([Word("false"), Mark(',')] + ts) == if test.None? then None else Some(([False, test.value], rest))
  {
    var all := [Word("false"), Mark(',')] + ts;
    assert ParseTest(all) == Some((False, [Mark(',')] + ts)) by { assert all[1..] == [Mark(',')] + ts; }
    hide ParseTest;
    assert ([Mark(',')] + ts)[1..] == ts && ([Mark(')')] + rest)[1..] == rest;
    assert ParseTests(ts) == if test.None? then None else Some(([test.value], rest));
    if test.Some? { assert [False] + [test.value] == [False, test.value]; }
  }

  lemma ParsesOff(ts: seq<Token>, test: Option<Test>, rest: seq<Token>)
    requires ParseTest(ts) == if test.None? then None else Some((test.value, [Mark(')')] + rest))
    ensures ParseTest([Word("allof"), Mark('('), Word("false"), Mark(',')] + ts)
         == if test.None? then None else Some((AllOf([False, test.value]), rest))
  {
    hide Compared, ParseTests;
    ParsesLast(ts, test, rest);
    var all := [Word("allof"), Mark('('), Word("false"), Mark(',')] + ts;
    assert all[2..] == [Word("false"), Mark(',')] + ts;
  }

  lemma ParsesGuard(r: R.Rule, rest: seq<Token>)
    ensures ParseTest(ConditionTokens(r) + rest) == if r.conditions == [] then None else Some((Guard(r), rest))
  {
    hide ParseTest, GroupTokens, Grouped;
    if r.off {
      var open := [Word("allof"), Mark('('), Word("false"), Mark(',')];
      ParsesGroup(r, [Mark(')')] + rest);
      ParsesOff(GroupTokens(r) + ([Mark(')')] + rest), if r.conditions == [] then None else Some(Grouped(r)), rest);
      assert ConditionTokens(r) + rest == open + (GroupTokens(r) + ([Mark(')')] + rest));
    } else {
      ParsesGroup(r, rest);
    }
  }

  lemma ParsesCommand(c: Command, rest: seq<Token>)
    requires !c.If?
    ensures ParseCommand(CommandTokens(c) + rest) == Some((c, rest)) && CommandTokens(c)[0] != Mark('}')
  {
    hide ParseTest, ParseCommands;
    var ts := CommandTokens(c) + rest;
    match c
    case AddFlag(v) => assert ts[1..] == [Text(v), Mark(';')] + rest && ts[3..] == rest;
    case FileInto(v) => assert ts[1..] == [Text(v), Mark(';')] + rest && ts[3..] == rest;
    case Redirect(copy, v) =>
      if copy {
        assert ts[2..] == [Text(v), Mark(';')] + rest && ts[4..] == rest;
      } else {
        assert ts[1..] == [Text(v), Mark(';')] + rest && ts[3..] == rest;
      }
    case Discard => assert ts[2..] == rest;
    case Stop => assert ts[2..] == rest;
  }

  lemma {:induction false} ParsesCommands(cs: seq<Command>, rest: seq<Token>)
    requires rest == [] || rest[0] == Mark('}')
    requires forall i | 0 <= i < |cs| :: !cs[i].If?
    ensures ParseCommands(CommandsTokens(cs) + rest) == Some((cs, rest))
  {
    hide ParseCommand, CommandTokens;
    if cs == [] {
      assert CommandsTokens(cs) + rest == rest;
    } else {
      var more := CommandsTokens(cs[1..]) + rest;
      ParsesCommands(cs[1..], rest);
      ParsesCommand(cs[0], more);
      assert CommandsTokens(cs) + rest == CommandTokens(cs[0]) + more;
      assert [cs[0]] + cs[1..] == cs;
    }
  }

  lemma {:induction false} OrderedPlain(acts: seq<R.Action>)
    ensures forall i | 0 <= i < |OrderedAll(acts)| :: !OrderedAll(acts)[i].If?
  {
    if acts != [] { OrderedPlain(acts[1..]); }
  }

  function RuleCommand(r: R.Rule): Command {
    If(Guard(r), OrderedAll(R.Actions(r)))
  }

  lemma ParsesIf(head: seq<Token>, test: Option<Test>, body: seq<Token>, commands: seq<Command>, rest: seq<Token>)
    requires ParseTest(head + ([Mark('{')] + body + [Mark('}')] + rest))
          == if test.None? then None else Some((test.value, [Mark('{')] + body + [Mark('}')] + rest))
    requires ParseCommands(body + [Mark('}')] + rest) == Some((commands, [Mark('}')] + rest))
    ensures ParseCommand([Word("if")] + head + [Mark('{')] + body + [Mark('}')] + rest)
         == if test.None? then None else Some((If(test.value, commands), rest))
  {
    hide ParseTest, ParseCommands;
    var after := [Mark('{')] + body + [Mark('}')] + rest;
    var ts := [Word("if")] + head + [Mark('{')] + body + [Mark('}')] + rest;
    assert ts[1..] == head + after;
    assert after[1..] == body + [Mark('}')] + rest;
    assert ([Mark('}')] + rest)[1..] == rest;
  }

  lemma ParsesBlock(r: R.Rule, rest: seq<Token>)
    ensures ParseCommand(BlockTokens(r) + rest) == if r.conditions == [] then None else Some((RuleCommand(r), rest))
    ensures BlockTokens(r) != [] && BlockTokens(r)[0] != Mark('}')
  {
    hide ParseCommand, ConditionTokens, CommandsTokens, OrderedAll, Guard, R.Actions, ParseTest, ParseCommands;
    var commands := OrderedAll(R.Actions(r));
    var head, body := ConditionTokens(r), CommandsTokens(commands);
    OrderedPlain(R.Actions(r));
    ParsesCommands(commands, [Mark('}')] + rest);
    assert body + ([Mark('}')] + rest) == body + [Mark('}')] + rest;
    ParsesGuard(r, [Mark('{')] + body + [Mark('}')] + rest);
    ParsesIf(head, if r.conditions == [] then None else Some(Guard(r)), body, commands, rest);
    assert BlockTokens(r) + rest == [Word("if")] + head + [Mark('{')] + body + [Mark('}')] + rest;
  }

  function RuleCommands(rules: seq<R.Rule>): seq<Command> {
    if rules == [] then [] else [RuleCommand(rules[0])] + RuleCommands(rules[1..])
  }

  /** Every rule asks something. */
  predicate Conditioned(rules: seq<R.Rule>) {
    forall i | 0 <= i < |rules| :: rules[i].conditions != []
  }

  lemma {:induction false} ParsesBlocks(rules: seq<R.Rule>)
    ensures ParseCommands(BlocksTokens(rules)) == if Conditioned(rules) then Some((RuleCommands(rules), [])) else None
  {
    hide ParseCommand, BlockTokens, RuleCommand;
    if rules != [] {
      ParsesBlock(rules[0], BlocksTokens(rules[1..]));
      assert BlocksTokens(rules)[0] == BlockTokens(rules[0])[0];
      ParsesBlocks(rules[1..]);
      assert Conditioned(rules) <==> rules[0].conditions != [] && Conditioned(rules[1..]) by {
        assert rules == [rules[0]] + rules[1..];
      }
    }
  }

  lemma {:induction false} ParsesTexts(names: seq<string>, rest: seq<Token>)
    requires names != []
    ensures ParseStrings(Texts(names) + ([Mark(']')] + rest)) == Some((names, rest))
  {
    hide ParseStrings;
    if |names| == 1 {
      LastText(names[0], rest);
      assert Texts(names) + ([Mark(']')] + rest) == [Text(names[0]), Mark(']')] + rest;
      assert names == [names[0]];
    } else {
      var more := Texts(names[1..]) + ([Mark(']')] + rest);
      ParsesTexts(names[1..], rest);
      NextText(names[0], more, names[1..], rest);
      assert Texts(names) + ([Mark(']')] + rest) == [Text(names[0]), Mark(',')] + more;
      assert [names[0]] + names[1..] == names;
    }
  }

  lemma LastText(name: string, rest: seq<Token>)
    ensures ParseStrings([Text(name), Mark(']')] + rest) == Some(([name], rest))
  {
    assert ([Text(name), Mark(']')] + rest)[2..] == rest;
  }

  lemma NextText(name: string, ts: seq<Token>, names: seq<string>, rest: seq<Token>)
    requires ParseStrings(ts) == Some((names, rest))
    ensures ParseStrings([Text(name), Mark(',')] + ts) == Some(([name] + names, rest))
  {
    assert ([Text(name), Mark(',')] + ts)[2..] == ts;
  }

  lemma ParsesProgram(need: seq<string>, ts: seq<Token>)
    requires ts == [] || ts[0] != Word("require")
    ensures Parse(NeedTokens(need) + ts) == ParseAll(ts, need)
  {
    hide ParseStrings, Texts, ParseAll;
    var all := NeedTokens(need) + ts;
    if need == [] {
      assert all == ts;
    } else {
      var rest := [Mark(';')] + ts;
      ParsesTexts(need, rest);
      assert all[2..] == Texts(need) + ([Mark(']')] + rest);
      assert rest[1..] == ts;
    }
  }

  // ----- what the rules ask for

  ghost predicate Found(c: R.Condition, text: string) {
    if c.relation == "contains" then exists i | 0 <= i <= |Folded(text)| :: Folded(c.value) <= Folded(text)[i..]
    else Folded(text) == Folded(c.value)
  }

  /** From, to and cc are asked of the addresses, subject and list of the header, and a domain
      of the addresses' domains. */
  ghost predicate Meets(c: R.Condition, m: Message) {
    if c.relation == "domain" then exists i | 0 <= i < |m.addresses(Named(c))| :: Found(c, m.addresses(Named(c))[i].domain)
    else if c.field == "subject" || c.field == "list" then exists i | 0 <= i < |m.values(Named(c))| :: Found(c, m.values(Named(c))[i])
    else exists i | 0 <= i < |m.addresses(Named(c))| ::
           Found(c, m.addresses(Named(c))[i].local + "@" + m.addresses(Named(c))[i].domain)
  }

  ghost predicate Applies(r: R.Rule, m: Message) {
    && !r.off
    && if r.any then exists c | c in r.conditions :: Meets(c, m) else forall c | c in r.conditions :: Meets(c, m)
  }

  /** A rule carried out: its flags, also on the copy it files, its copy sent on, and the inbox
      without the message where it is filed or discarded. */
  ghost function Obeyed(r: R.Rule, o: Outcome): Outcome {
    var flags := o.flags + (if r.markRead then {"\\Seen"} else {}) + (if r.star then {"\\Flagged"} else {});
    Outcome(
      flags,
      o.filed + (if r.folder == "" then [] else [(r.folder, flags)]),
      o.sent + (if r.forward == "" then [] else [r.forward]),
      o.keep && r.folder == "" && !r.discard,
      r.stop)
  }

  /** The rules in their order, up to one that applies and stops. */
  ghost function Carried(rules: seq<R.Rule>, m: Message, o: Outcome): Outcome {
    if rules == [] then o
    else if !Applies(rules[0], m) then Carried(rules[1..], m, o)
    else if rules[0].stop then Obeyed(rules[0], o)
    else Carried(rules[1..], m, Obeyed(rules[0], o))
  }

  lemma {:induction false} TestedHolds(c: R.Condition, m: Message)
    requires Asks(c)
    ensures Holds(Tested(c), m) <==> Meets(c, m)
  {
    hide Folded, Named;
    assert forall t: string :: Found(c, t) <==> Agrees(c.relation == "contains", t, c.value);
  }

  lemma GroupedHolds(r: R.Rule, m: Message)
    requires AsksRule(r)
    ensures Holds(Grouped(r), m) <==>
      if r.any then exists c | c in r.conditions :: Meets(c, m) else forall c | c in r.conditions :: Meets(c, m)
  {
    hide Meets, Asks, Tested, Agrees;
    var cs, ts := r.conditions, TestedAll(r.conditions);
    forall i | 0 <= i < |cs|
      ensures Holds(ts[i], m) <==> Meets(cs[i], m)
    {
      TestedHolds(cs[i], m);
    }
    if r.any {
      assert Holds(Grouped(r), m) <==> exists i | 0 <= i < |ts| :: Holds(ts[i], m);
      if i :| 0 <= i < |ts| && Holds(ts[i], m) { assert cs[i] in cs; }
    } else {
      assert Holds(Grouped(r), m) <==> forall i | 0 <= i < |ts| :: Holds(ts[i], m);
    }
  }

  lemma GuardHolds(r: R.Rule, m: Message)
    requires AsksRule(r)
    ensures Holds(Guard(r), m) <==> Applies(r, m)
  {
    hide Grouped, AsksRule, Meets;
    GroupedHolds(r, m);
    if r.off {
      assert Guard(r).tests[0] == False;
    }
  }

  lemma {:induction false} RanBoth(a: seq<Command>, b: seq<Command>, m: Message, o: Outcome)
    ensures Ran(a + b, m, o) == Ran(b, m, Ran(a, m, o))
    decreases |a|
  {
    hide Done;
    if a == [] {
      assert a + b == b;
    } else if !o.stopped {
      assert (a + b)[0] == a[0] && (a + b)[1..] == a[1..] + b;
      RanBoth(a[1..], b, m, Done(a[0], m, o));
    }
  }

  lemma {:induction false} OrderedBoth(a: seq<R.Action>, b: seq<R.Action>)
    ensures OrderedAll(a + b) == OrderedAll(a) + OrderedAll(b)
  {
    hide Ordered;
    if a == [] {
      assert a + b == b && OrderedAll(a) == [];
    } else {
      assert (a + b)[0] == a[0] && (a + b)[1..] == a[1..] + b;
      OrderedBoth(a[1..], b);
    }
  }

  ghost function Did(b: bool, c: Command, m: Message, o: Outcome): Outcome {
    if b && !o.stopped then Done(c, m, o) else o
  }

  /** One more action, where the rule has it. */
  lemma {:induction false} OneMoreAction(acts: seq<R.Action>, b: bool, a: R.Action, m: Message, o: Outcome)
    ensures Ran(OrderedAll(acts + R.When(b, a)), m, o) == Did(b, Ordered(a), m, Ran(OrderedAll(acts), m, o))
    ensures Uses(OrderedAll(acts + R.When(b, a))) == Uses(OrderedAll(acts)) + if b then CommandUses(Ordered(a)) else {}
  {
    hide Ordered, Done;
    OrderedBoth(acts, R.When(b, a));
    RanBoth(OrderedAll(acts), OrderedAll(R.When(b, a)), m, o);
    UsesBoth(OrderedAll(acts), OrderedAll(R.When(b, a)));
    if b {
      assert OrderedAll([a]) == [Ordered(a)];
      assert [Ordered(a)][1..] == [];
      assert Uses([Ordered(a)]) == CommandUses(Ordered(a)) + {};
    }
  }

  lemma {:induction false} UsesBoth(a: seq<Command>, b: seq<Command>)
    ensures Uses(a + b) == Uses(a) + Uses(b)
  {
    hide CommandUses;
    if a == [] {
      assert a + b == b;
    } else {
      assert (a + b)[0] == a[0] && (a + b)[1..] == a[1..] + b;
      UsesBoth(a[1..], b);
    }
  }

  function RuleUses(r: R.Rule): set<string> {
    (if r.markRead || r.star then {"imap4flags"} else {}) + (if r.folder != "" then {"fileinto"} else {})
    + (if r.forward != "" then {"copy"} else {})
  }

  /** The six steps of a rule, one behind the other. */
  lemma StepsObey(r: R.Rule, m: Message, o: Outcome)
    requires !o.stopped
    ensures var flagged := Did(r.star, AddFlag("\\Flagged"), m, Did(r.markRead, AddFlag("\\Seen"), m, o));
      var moved := Did(r.forward != "", Redirect(true, r.forward), m, Did(r.folder != "", FileInto(r.folder), m, flagged));
      Did(r.stop, Stop, m, Did(r.discard, Discard, m, moved)) == Obeyed(r, o)
  {
    var flagged := Did(r.star, AddFlag("\\Flagged"), m, Did(r.markRead, AddFlag("\\Seen"), m, o));
    assert flagged.flags == Obeyed(r, o).flags;
    assert flagged == o.(flags := Obeyed(r, o).flags);
    var filed := Did(r.folder != "", FileInto(r.folder), m, flagged);
    assert filed.filed == Obeyed(r, o).filed;
    var moved := Did(r.forward != "", Redirect(true, r.forward), m, filed);
    assert moved.sent == Obeyed(r, o).sent;
  }

  lemma {:induction false} ActionsRun(r: R.Rule, m: Message, o: Outcome)
    requires !o.stopped
    ensures Ran(OrderedAll(R.Actions(r)), m, o) == Obeyed(r, o)
    ensures Uses(OrderedAll(R.Actions(r))) == RuleUses(r)
  {
    hide Ran, OrderedAll, Uses, Escaped, Unquote, R.When, Did, Obeyed;
    UnquoteEscaped(r.folder);
    UnquoteEscaped(r.forward);
    var folder, forward := R.FileInto(Escaped(r.folder)), R.Redirect(Escaped(r.forward));
    NoActions(m, o);
    var acts: seq<R.Action> := [];
    OneMoreAction(acts, r.markRead, R.AddSeen, m, o);
    acts := acts + R.When(r.markRead, R.AddSeen);
    OneMoreAction(acts, r.star, R.AddFlagged, m, o);
    acts := acts + R.When(r.star, R.AddFlagged);
    OneMoreAction(acts, r.folder != "", folder, m, o);
    acts := acts + R.When(r.folder != "", folder);
    OneMoreAction(acts, r.forward != "", forward, m, o);
    acts := acts + R.When(r.forward != "", forward);
    OneMoreAction(acts, r.discard, R.Discard, m, o);
    acts := acts + R.When(r.discard, R.Discard);
    OneMoreAction(acts, r.stop, R.Stop, m, o);
    acts := acts + R.When(r.stop, R.Stop);
    StepsObey(r, m, o);
    assert acts == R.Actions(r) by { assert [] + R.When(r.markRead, R.AddSeen) == R.When(r.markRead, R.AddSeen); }
  }

  lemma NoActions(m: Message, o: Outcome)
    ensures Ran(OrderedAll([]), m, o) == o && Uses(OrderedAll([])) == {}
  {
  }

  lemma {:induction false} RulesRun(rules: seq<R.Rule>, m: Message, o: Outcome)
    requires AsksRules(rules) && !o.stopped
    ensures Ran(RuleCommands(rules), m, o) == Carried(rules, m, o)
    decreases |rules|
  {
    hide Applies, Guard, AsksRule, OrderedAll, R.Actions, Holds;
    if rules != [] {
      var r := rules[0];
      GuardHolds(r, m);
      ActionsRun(r, m, o);
      assert Done(RuleCommand(r), m, o) == if Applies(r, m) then Obeyed(r, o) else o;
      assert RuleCommands(rules)[1..] == RuleCommands(rules[1..]);
      if !Applies(r, m) {
        RulesRun(rules[1..], m, o);
      } else if !r.stop {
        RulesRun(rules[1..], m, Obeyed(r, o));
      }
    }
  }

  lemma {:induction false} RulesUse(rules: seq<R.Rule>, x: string, m: Message)
    ensures x in Uses(RuleCommands(rules)) <==> exists r | r in rules :: x in RuleUses(r)
  {
    hide RuleUses, OrderedAll, R.Actions, Guard;
    if rules != [] {
      RulesUse(rules[1..], x, m);
      ActionsRun(rules[0], m, START);
      assert RuleCommands(rules)[0] == RuleCommand(rules[0]) && RuleCommands(rules)[1..] == RuleCommands(rules[1..]);
      assert forall q :: q in rules <==> q == rules[0] || q in rules[1..];
    }
  }

  /** The script requires the extensions its commands use, and no other. */
  lemma NeedsAreUses(rules: seq<R.Rule>, m: Message)
    ensures forall x :: x in R.Needs([], rules) <==> x in Uses(RuleCommands(rules))
  {
    hide R.Needs, Uses, RuleCommands;
    R.NeedsExactly([], rules);
    forall x
      ensures x in R.Needs([], rules) <==> x in Uses(RuleCommands(rules))
    {
      RulesUse(rules, x, m);
    }
  }

  /** The rules' script, put on a server and run on a message, does what the rules say; and it
      is a script at all exactly when each rule has a condition. */
  lemma RulesScriptMeans(rules: seq<R.Rule>, m: Message)
    requires AsksRules(rules)
    ensures Delivered(R.Script(rules), m) == if Conditioned(rules) then Some(Carried(rules, m, START)) else None
  {
    hide Lex, Parse, R.Script, R.Needs, BlocksTokens, RuleCommands, AsksRules, ParseCommands, Uses, Ran, Carried;
    RulesScriptLexes(rules);
    BlocksOpen(rules);
    ParsesProgram(R.Needs([], rules), BlocksTokens(rules));
    ParsesBlocks(rules);
    NeedsAreUses(rules, m);
    RulesRun(rules, m, START);
  }

  lemma BlocksOpen(rules: seq<R.Rule>)
    ensures BlocksTokens(rules) == [] || BlocksTokens(rules)[0] != Word("require")
  {
    hide ConditionTokens, CommandsTokens;
    if rules != [] { assert BlocksTokens(rules)[0] == BlockTokens(rules[0])[0] == Word("if"); }
  }

  // ----- the forwarding

  function ForwardTokens(keep: bool, f: F.Forward): seq<Token> {
    if f.off then [Word("if"), Word("false")] + ([Mark('{')] + CommandTokens(Redirect(keep, f.address)) + [Mark('}')])
    else CommandTokens(Redirect(keep, f.address))
  }

  function ForwardsTokens(keep: bool, fs: seq<F.Forward>): seq<Token> {
    if fs == [] then [] else ForwardTokens(keep, fs[0]) + ForwardsTokens(keep, fs[1..])
  }

  lemma ForwardText(keep: bool, f: F.Forward)
    ensures var line := (if keep then "redirect :copy " else "redirect ") + (Quote(f.address) + ";\n");
      Unlines(F.ForwardLines(keep, f)) == if f.off then "if false {\n" + (("    " + line) + "}\n") else line
  {
    hide Quote;
    var line := F.Redirect(keep, f.address);
    assert line + "\n" == (if keep then "redirect :copy " else "redirect ") + (Quote(f.address) + ";\n");
    if f.off {
      OffText(F.OFF, "    " + line);
    } else {
      assert [line][1..] == [] && Unlines([]) == "";
    }
  }

  lemma OffText(a: string, b: string)
    requires a == "if false {"
    ensures Unlines([a, b, "}"]) == "if false {\n" + ((b + "\n") + "}\n")
  {
    assert [a, b, "}"][1..] == [b, "}"] && [b, "}"][1..] == ["}"] && ["}"][1..] == [];
    assert Unlines(["}"]) == "}\n";
    assert Unlines([b, "}"]) == b + "\n" + "}\n";
  }

  lemma OffLexes(rest: string)
    ensures Lexes("if false {\n", [Word("if"), Word("false"), Mark('{')], rest)
  {
    hide Lexes, IsWord;
    GroupWords();
    LexesMarked('{', '\n', rest);
    LexesThen("false", "{\n", [Mark('{')], rest);
    LexesThen("if", "false" + " " + "{\n", [Word("false")] + [Mark('{')], rest);
    assert "if" + " " + ("false" + " " + "{\n") == "if false {\n";
    assert [Word("if")] + ([Word("false")] + [Mark('{')]) == [Word("if"), Word("false"), Mark('{')];
  }

  lemma ForwardLexes(keep: bool, f: F.Forward, rest: string)
    ensures Lexes(Unlines(F.ForwardLines(keep, f)), ForwardTokens(keep, f), rest)
  {
    hide Lexes, CommandTokens, F.ForwardLines, Unlines, Quote;
    ForwardText(keep, f);
    var line := (if keep then "redirect :copy " else "redirect ") + (Quote(f.address) + ";\n");
    var ts := CommandTokens(Redirect(keep, f.address));
    if f.off {
      var open := [Word("if"), Word("false"), Mark('{')];
      LexesMarked('}', '\n', rest);
      LexesRedirect(keep, f.address, "}\n" + rest);
      LexesIndented(line, ts, "}\n" + rest);
      LexesBoth("    " + line, ts, "}\n", [Mark('}')], rest);
      OffLexes(("    " + line) + "}\n" + rest);
      LexesBoth("if false {\n", open, ("    " + line) + "}\n", ts + [Mark('}')], rest);
      assert open + (ts + [Mark('}')]) == ForwardTokens(keep, f);
    } else {
      LexesRedirect(keep, f.address, rest);
    }
  }

  lemma {:induction false} ForwardsLex(keep: bool, fs: seq<F.Forward>, rest: string)
    ensures Lexes(Unlines(F.AllLines(keep, fs)), ForwardsTokens(keep, fs), rest)
  {
    hide Lexes, F.ForwardLines, ForwardTokens;
    if fs == [] {
      LexesNothing(rest);
    } else {
      var first, more := Unlines(F.ForwardLines(keep, fs[0])), Unlines(F.AllLines(keep, fs[1..]));
      ForwardsLex(keep, fs[1..], rest);
      ForwardLexes(keep, fs[0], more + rest);
      LexesBoth(first, ForwardTokens(keep, fs[0]), more, ForwardsTokens(keep, fs[1..]), rest);
      UnlinesConcat(F.ForwardLines(keep, fs[0]), F.AllLines(keep, fs[1..]));
    }
  }

  function Copies(keep: bool): seq<string> {
    if keep then ["copy"] else []
  }

  lemma ForwardingLexes(f: F.Forwarding)
    ensures Lex(F.Script(f)) == Some(if f.forwards == [] then [] else NeedTokens(Copies(f.keep)) + ForwardsTokens(f.keep, f.forwards))
  {
    hide Lexes, RequireLine, F.AllLines, F.HEADING, Unlines, NeedTokens, ForwardsTokens, F.Heading, OneLine;
    if f.forwards != [] {
      var need := Copies(f.keep);
      var heading, lines := F.HEADING + "\n" + (if need == [] then "" else RequireLine(need) + "\n"), Unlines(F.AllLines(f.keep, f.forwards));
      ForwardingHeading(f.keep);
      UnlinesConcat(F.Heading(f.keep), F.AllLines(f.keep, f.forwards));
      ForwardsLex(f.keep, f.forwards, "");
      HeadingLexes(F.HEADING, need, lines + "");
      LexesBoth(heading, NeedTokens(need), lines, ForwardsTokens(f.keep, f.forwards), "");
      LexedWhole(heading + lines, NeedTokens(need) + ForwardsTokens(f.keep, f.forwards));
    }
  }

  lemma ForwardingHeading(keep: bool)
    ensures Unlines(F.Heading(keep)) == F.HEADING + "\n" + (if Copies(keep) == [] then "" else RequireLine(Copies(keep)) + "\n")
    ensures F.HEADING != "" && F.HEADING[0] == '#' && OneLine(F.HEADING)
  {
    hide RequireLine;
    OneLineConcat(", composed on ", "the Forwarding page.");
    var require := RequireLine(["copy"]);
    assert [F.HEADING, require][1..] == [require] && Unlines([require]) == require + "\n";
    assert Unlines([F.HEADING]) == F.HEADING + "\n";
  }

  function ForwardCommand(keep: bool, f: F.Forward): Command {
    if f.off then If(False, [Redirect(keep, f.address)]) else Redirect(keep, f.address)
  }

  function ForwardCommands(keep: bool, fs: seq<F.Forward>): seq<Command> {
    if fs == [] then [] else [ForwardCommand(keep, fs[0])] + ForwardCommands(keep, fs[1..])
  }

  lemma ParsesForward(keep: bool, f: F.Forward, rest: seq<Token>)
    ensures ParseCommand(ForwardTokens(keep, f) + rest) == Some((ForwardCommand(keep, f), rest))
    ensures ForwardTokens(keep, f) != [] && ForwardTokens(keep, f)[0] != Mark('}') && ForwardTokens(keep, f)[0] != Word("require")
  {
    hide ParseCommand, ParseCommands;
    var c := Redirect(keep, f.address);
    var ts := CommandTokens(c);
    if f.off {
      var after := [Mark('{')] + ts + [Mark('}')] + rest;
      ParsesCommands([c], [Mark('}')] + rest);
      OneCommand(c);
      assert ts + ([Mark('}')] + rest) == ts + [Mark('}')] + rest;
      assert ParseTest([Word("false")] + after) == Some((False, after)) by { assert ([Word("false")] + after)[1..] == after; }
      ParsesIf([Word("false")], Some(False), ts, [c], rest);
      assert ForwardTokens(keep, f) + rest == [Word("if")] + [Word("false")] + [Mark('{')] + ts + [Mark('}')] + rest;
    } else {
      ParsesCommand(c, rest);
    }
  }

  lemma OneCommand(c: Command)
    ensures CommandsTokens([c]) == CommandTokens(c)
  {
    assert [c][1..] == [];
  }

  lemma {:induction false} ParsesForwards(keep: bool, fs: seq<F.Forward>)
    ensures ParseCommands(ForwardsTokens(keep, fs)) == Some((ForwardCommands(keep, fs), []))
    ensures fs != [] ==> ForwardsTokens(keep, fs) != [] && ForwardsTokens(keep, fs)[0] != Word("require")
  {
    hide ParseCommand, ForwardTokens, ForwardCommand;
    if fs != [] {
      ParsesForward(keep, fs[0], ForwardsTokens(keep, fs[1..]));
      assert ForwardsTokens(keep, fs)[0] == ForwardTokens(keep, fs[0])[0];
      ParsesForwards(keep, fs[1..]);
    }
  }

  /** The addresses forwarded to, in their order. */
  function Targets(fs: seq<F.Forward>): seq<string> {
    if fs == [] then [] else (if fs[0].off then [] else [fs[0].address]) + Targets(fs[1..])
  }

  ghost function Forwarded(f: F.Forwarding, o: Outcome): Outcome {
    o.(sent := o.sent + Targets(f.forwards), keep := o.keep && (f.keep || Targets(f.forwards) == []))
  }

  lemma {:induction false} ForwardsRun(keep: bool, fs: seq<F.Forward>, m: Message, o: Outcome)
    requires !o.stopped
    ensures Ran(ForwardCommands(keep, fs), m, o) == Forwarded(F.Forwarding(fs, keep), o)
    decreases |fs|
  {
    hide Done, ForwardCommand, Forwarded;
    if fs == [] {
      NoneForwarded(keep, o);
    } else {
      OneForward(keep, fs[0], m, o);
      assert ForwardCommands(keep, fs)[1..] == ForwardCommands(keep, fs[1..]);
      ForwardsRun(keep, fs[1..], m, Sent(keep, fs[0], o));
      NextForwarded(keep, fs, o);
    }
  }

  lemma NoneForwarded(keep: bool, o: Outcome)
    ensures Forwarded(F.Forwarding([], keep), o) == o
  {
    assert o.sent + [] == o.sent;
  }

  lemma NextForwarded(keep: bool, fs: seq<F.Forward>, o: Outcome)
    requires fs != []
    ensures Forwarded(F.Forwarding(fs[1..], keep), Sent(keep, fs[0], o)) == Forwarded(F.Forwarding(fs, keep), o)
  {
    var more := Targets(fs[1..]);
    assert o.sent + ([fs[0].address] + more) == o.sent + [fs[0].address] + more;
    assert o.sent + ([] + more) == o.sent + more;
  }

  ghost function Sent(keep: bool, f: F.Forward, o: Outcome): Outcome {
    if f.off then o else o.(sent := o.sent + [f.address], keep := o.keep && keep)
  }

  lemma {:induction false} ForwardsUse(keep: bool, fs: seq<F.Forward>, m: Message)
    ensures Uses(ForwardCommands(keep, fs)) == if keep && fs != [] then {"copy"} else {}
    decreases |fs|
  {
    hide Done, ForwardCommand, CommandUses;
    if fs != [] {
      OneForward(keep, fs[0], m, START);
      assert ForwardCommands(keep, fs)[1..] == ForwardCommands(keep, fs[1..]);
      ForwardsUse(keep, fs[1..], m);
    }
  }

  lemma OneForward(keep: bool, f: F.Forward, m: Message, o: Outcome)
    requires !o.stopped
    ensures Done(ForwardCommand(keep, f), m, o) == Sent(keep, f, o)
    ensures CommandUses(ForwardCommand(keep, f)) == if keep then {"copy"} else {}
  {
    assert Uses([Redirect(keep, f.address)]) == CommandUses(Redirect(keep, f.address)) + {};
  }

  /** The forwarding's script, put on a server and run on a message, sends it to each address
      that is on, and the inbox keeps its copy where that is asked for or nobody is sent to. */
  lemma ForwardingScriptMeans(f: F.Forwarding, m: Message)
    ensures Delivered(F.Script(f), m) == Some(Forwarded(f, START))
  {
    hide Lex, F.Script, ParseCommands, ForwardsTokens, ForwardCommands, Uses, Ran, Forwarded, NeedTokens;
    ForwardingLexes(f);
    ForwardsRun(f.keep, f.forwards, m, START);
    ForwardsUse(f.keep, f.forwards, m);
    ParsesForwards(f.keep, f.forwards);
    if f.forwards == [] {
      NothingForwarded(f, m);
    } else {
      ParsesProgram(Copies(f.keep), ForwardsTokens(f.keep, f.forwards));
    }
  }

  lemma NothingForwarded(f: F.Forwarding, m: Message)
    requires f.forwards == [] && Lex(F.Script(f)) == Some([])
    ensures Delivered(F.Script(f), m) == Some(Forwarded(f, START))
  {
    hide Lex, F.Script, Forwarded;
    NoneForwarded(f.keep, START);
  }
}
