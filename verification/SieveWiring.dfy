/** The main script that runs the composed ones and then the reader's own, and the rewrites
    that put it there: whatever is cut short, the reader's script is never forgotten. */
module SieveWiring {
  import opened Basics
  import opened Lines
  import opened SieveText

  const MAIN := "alborz"
  const RULES := "alborz-rules"
  const FORWARD := "alborz-forward"
  const VACATION := "alborz-vacation"

  predicate Composed(name: string) {
    name == RULES || name == FORWARD || name == VACATION
  }

  // ----- the main script's text

  const HEADING := "# Wiring, " + ("composed by " + ("Alborz: each " + ("line runs one " + ("script, the last " + "is your own."))))

  function Include(name: string): string {
    "include :personal " + (Quote(name) + ";")
  }

  function IncludeLines(names: seq<string>): seq<string> {
    if names == [] then [] else [Include(names[0])] + IncludeLines(names[1..])
  }

  function Optional(name: string): seq<string> {
    if name == "" then [] else [name]
  }

  function MainLines(present: seq<string>, own: string): seq<string> {
    [HEADING, RequireLine(["include"])] + IncludeLines(present + Optional(own))
  }

  function MainScript(present: seq<string>, own: string): string {
    Unlines(MainLines(present, own))
  }

  function MatchInclude(line: string): Option<string> {
    match After(line, "include :personal ")
    case None => None
    case Some(q) =>
      match MatchQuoted(q)
      case None => None
      case Some((body, rest)) => if rest == ";" then Some(Unquote(body)) else None
  }

  function OwnIn(ls: seq<string>): string {
    if ls == [] then ""
    else match MatchInclude(TrimSpace(ls[0]))
         case Some(name) => if Composed(name) then OwnIn(ls[1..]) else name
         case None => OwnIn(ls[1..])
  }

  function OwnScriptIn(content: string): string {
    OwnIn(Split(content))
  }

  function Included(ls: seq<string>): set<string> {
    if ls == [] then {}
    else match MatchInclude(ls[0])
         case Some(name) => {name} + Included(ls[1..])
         case None => Included(ls[1..])
  }

  /** The composed scripts among `names`, in the order they run. */
  function Present(names: set<string>): seq<string> {
    (if RULES in names then [RULES] else []) + (if FORWARD in names then [FORWARD] else [])
    + (if VACATION in names then [VACATION] else [])
  }

  /** The text of a main script, for which of the three components are there: each has its line,
      in this order, and the reader's own script the last. */
  predicate MainReads(text: string, rules: bool, forward: bool, vacation: bool, own: string) {
    text == HEADING + "\n" + "require [\"include\"];\n"
          + (if rules then "include :personal " + ("\"" + "alborz-rules" + "\"") + ";" + "\n" else "")
          + (if forward then "include :personal " + ("\"" + "alborz-forward" + "\"") + ";" + "\n" else "")
          + (if vacation then "include :personal " + ("\"" + "alborz-vacation" + "\"") + ";" + "\n" else "")
          + (if own != "" then "include :personal " + Quote(own) + ";" + "\n" else "")
  }

  lemma PlainNames()
    ensures Quote(RULES) == "\"" + "alborz-rules" + "\"" && Quote(FORWARD) == "\"" + "alborz-forward" + "\""
    ensures Quote(VACATION) == "\"" + "alborz-vacation" + "\""
    ensures RequireLine(["include"]) + "\n" == "require [\"include\"];\n"
  {
    hide Escaped;
    EscapedPlain(RULES);
    EscapedPlain(FORWARD);
    EscapedPlain(VACATION);
    EscapedPlain("include");
  }

  /** An include line, with its end, where the script is there. */
  function IncludeText(there: bool, name: string): string {
    if there then "include :personal " + Quote(name) + ";" + "\n" else ""
  }

  lemma {:induction false} IncludesText(names: seq<string>, there: bool, name: string)
    ensures Unlines(IncludeLines(names + (if there then [name] else []))) == Unlines(IncludeLines(names)) + IncludeText(there, name)
  {
    hide Quote;
    if there {
      IncludeLinesConcat(names, [name]);
      UnlinesConcat(IncludeLines(names), IncludeLines([name]));
      var line := Include(name);
      assert IncludeLines([name]) == [line] && [line][1..] == [];
      assert Unlines([line]) == line + "\n" + "";
    } else {
      assert names + [] == names;
    }
  }

  lemma {:induction false} MainTextIs(names: set<string>, own: string)
    ensures MainReads(MainScript(Present(names), own), "alborz-rules" in names, "alborz-forward" in names, "alborz-vacation" in names, own)
  {
    hide HEADING, RequireLine, Include, Quote, Unlines, IncludeLines;
    var rules, forward, vacation := RULES in names, FORWARD in names, VACATION in names;
    var a: seq<string> := if rules then [RULES] else [];
    var b := a + if forward then [FORWARD] else [];
    var c := b + if vacation then [VACATION] else [];
    assert Present(names) == c && [] + a == a;
    hide IncludeText, Present;
    IncludesText([], rules, RULES);
    IncludesText(a, forward, FORWARD);
    IncludesText(b, vacation, VACATION);
    IncludesText(c, own != "", own);
    NoIncludes();
    HeadText(IncludeLines(c + Optional(own)));
    var head := HEADING + "\n" + (RequireLine(["include"]) + "\n");
    Associates(head, IncludeText(rules, RULES), IncludeText(forward, FORWARD), IncludeText(vacation, VACATION), IncludeText(own != "", own));
    MainReadsAs(head, rules, forward, vacation, own);
  }

  lemma Associates(h: string, a: string, b: string, c: string, d: string)
    ensures h + ("" + a + b + c + d) == h + a + b + c + d
  {
  }

  lemma MainReadsAs(head: string, rules: bool, forward: bool, vacation: bool, own: string)
    requires head == HEADING + "\n" + (RequireLine(["include"]) + "\n")
    ensures MainReads(head + IncludeText(rules, RULES) + IncludeText(forward, FORWARD) + IncludeText(vacation, VACATION)
                      + IncludeText(own != "", own), rules, forward, vacation, own)
  {
    hide Quote, HEADING, RequireLine;
    PlainNames();
  }

  lemma NoIncludes()
    ensures Unlines(IncludeLines([])) == ""
  {
  }

  lemma {:induction false} HeadText(ls: seq<string>)
    ensures Unlines([HEADING, RequireLine(["include"])] + ls) == HEADING + "\n" + (RequireLine(["include"]) + "\n") + Unlines(ls)
  {
    hide HEADING, RequireLine;
    var require := RequireLine(["include"]);
    var all := [HEADING, require] + ls;
    assert all[1..] == [require] + ls && ([require] + ls)[1..] == ls;
    assert Unlines(all) == HEADING + "\n" + (require + "\n" + Unlines(ls));
  }

  /** A main script in the shape it was written in; any other was edited by hand. */
  predicate ByUs(content: string) {
    content == MainScript(Present(Included(Split(content))), OwnScriptIn(content))
  }

  // ----- reading the main script back

  lemma NamesAreOneLine(name: string)
    requires Composed(name)
    ensures OneLine(name) && name != ""
  {
  }

  lemma {:induction false} IncludeRoundTrip(name: string)
    ensures MatchInclude(Include(name)) == Some(name) && TrimSpace(Include(name)) == Include(name)
  {
    var line := Include(name);
    assert line[0] == 'i' && line[|line| - 1] == ';';
    SpaceIsSpace();
    hide MatchQuoted, Quote, After, Unquote, IsSpace, TrimSpace;
    TrimIndented(line);
    AfterLiteral("include :personal ", Quote(name) + ";");
    QuotedRoundTrip(name, ";");
  }

  lemma {:induction false} IncludesRead(names: seq<string>, rest: seq<string>)
    ensures Included(IncludeLines(names) + rest) == (set n | n in names) + Included(rest)
    ensures (forall n | n in names :: Composed(n)) ==> OwnIn(IncludeLines(names) + rest) == OwnIn(rest)
  {
    hide MatchInclude, Include, Composed, TrimSpace;
    var ls := IncludeLines(names) + rest;
    if names == [] {
      assert ls == rest;
    } else {
      IncludeRoundTrip(names[0]);
      assert ls[0] == Include(names[0]) && ls[1..] == IncludeLines(names[1..]) + rest;
      IncludesRead(names[1..], rest);
      assert forall n :: n in names <==> n == names[0] || n in names[1..];
    }
  }

  lemma {:induction false} IncludeLinesConcat(a: seq<string>, b: seq<string>)
    ensures IncludeLines(a + b) == IncludeLines(a) + IncludeLines(b)
  {
    hide Include;
    if a == [] {
      assert a + b == b;
    } else {
      assert (a + b)[0] == a[0] && (a + b)[1..] == a[1..] + b;
      IncludeLinesConcat(a[1..], b);
    }
  }

  lemma HeadLines()
    ensures MatchInclude(HEADING).None? && MatchInclude(TrimSpace(HEADING)).None?
    ensures MatchInclude(RequireLine(["include"])).None? && MatchInclude(TrimSpace(RequireLine(["include"]))).None?
    ensures MatchInclude("").None? && MatchInclude(TrimSpace("")).None?
  {
    hide MatchQuoted, After, IsSpace, Quote, Join;
    var require := RequireLine(["include"]);
    assert HEADING[0] == "# Wiring, "[0];
    assert HEADING[|HEADING| - 1] == "is your own."[11];
    assert require[0] == 'r' && require[|require| - 1] == ';';
    SpaceIsSpace();
    TrimIndented(HEADING);
    TrimIndented(require);
  }

  lemma HeadingOneLines()
    ensures OneLine(HEADING) && OneLine(RequireLine(["include"]))
  {
    hide Quote;
    EscapedKeepsLine("include");
    OneLineConcat("require [", Quote("include"));
    OneLineConcat("require [" + Quote("include"), "];");
    OneLineConcat("script, the last ", "is your own.");
    OneLineConcat("line runs one ", "script, the last " + "is your own.");
  }

  lemma {:induction false} IncludesOneLine(names: seq<string>)
    requires forall n | n in names :: OneLine(n)
    ensures OneLines(IncludeLines(names))
  {
    hide Quote;
    if names != [] {
      EscapedKeepsLine(names[0]);
      OneLineConcat(Quote(names[0]), ";");
      OneLineConcat("include :personal ", Quote(names[0]) + ";");
      IncludesOneLine(names[1..]);
    }
  }

  /** A name the reader's own script can have: of one line and not one of ours. */
  predicate Readers(own: string) {
    OneLine(own) && !Composed(own) && own != MAIN
  }

  lemma PresentIsComposed(names: set<string>)
    ensures forall n | n in Present(names) :: Composed(n) && n in names
    ensures Present(set n | n in Present(names)) == Present(names)
  {
  }

  lemma {:induction false} MainLinesSplit(names: set<string>, own: string)
    requires Readers(own)
    ensures Split(MainScript(Present(names), own)) == MainLines(Present(names), own) + [""]
  {
    hide HEADING, RequireLine, Include, Present, Unlines, Composed;
    var scripts := Present(names) + Optional(own);
    PresentIsComposed(names);
    forall n | n in scripts
      ensures OneLine(n)
    {
      if n in Present(names) { NamesAreOneLine(n); }
    }
    HeadingOneLines();
    IncludesOneLine(scripts);
    SplitUnlines(MainLines(Present(names), own), "");
    assert MainScript(Present(names), own) + "" == MainScript(Present(names), own);
    assert Split("") == [""];
  }

  /** The main script gives back the reader's own script and is recognised as ours. */
  lemma {:induction false} MainRoundTrip(names: set<string>, own: string)
    requires Readers(own)
    ensures var s := MainScript(Present(names), own); OwnScriptIn(s) == own && ByUs(s)
  {
    hide HEADING, RequireLine, Include, Present, MatchInclude, TrimSpace, MainScript, IncludeLines, Composed;
    var present := Present(names);
    var ls := IncludeLines(present + Optional(own)) + [""];
    MainLinesSplit(names, own);
    assert MainLines(present, own) + [""] == [HEADING, RequireLine(["include"])] + ls;
    HeadRead(ls);
    IncludeLinesConcat(present, Optional(own));
    assert ls == IncludeLines(present) + (IncludeLines(Optional(own)) + [""]);
    PresentIsComposed(names);
    IncludesRead(present, IncludeLines(Optional(own)) + [""]);
    OwnRead(own);
    SameComposed(names, own);
  }

  /** A main script is taken for ours only if it reads as one, and always if it reads as one with
      a script the reader can have. */
  lemma ByUsReads(content: string, rules: bool, forward: bool, vacation: bool, own: string)
    ensures ByUs(content) ==> exists r, f, v :: MainReads(content, r, f, v, OwnScriptIn(content))
    ensures Readers(own) && MainReads(content, rules, forward, vacation, own) ==> ByUs(content) && OwnScriptIn(content) == own
  {
    hide MainReads, MainScript, OwnScriptIn, Included, Present;
    MainTextIs(Included(Split(content)), OwnScriptIn(content));
    if Readers(own) && MainReads(content, rules, forward, vacation, own) {
      var names := (if rules then {RULES} else {}) + (if forward then {FORWARD} else {}) + (if vacation then {VACATION} else {});
      MainTextIs(names, own);
      OneMainText(content, MainScript(Present(names), own), rules, forward, vacation, own);
      MainRoundTrip(names, own);
    }
  }

  lemma OneMainText(a: string, b: string, rules: bool, forward: bool, vacation: bool, own: string)
    requires MainReads(a, rules, forward, vacation, own) && MainReads(b, rules, forward, vacation, own)
    ensures a == b
  {
  }

  lemma {:induction false} HeadRead(ls: seq<string>)
    ensures var all := [HEADING, RequireLine(["include"])] + ls; Included(all) == Included(ls) && OwnIn(all) == OwnIn(ls)
  {
    hide HEADING, RequireLine, MatchInclude, TrimSpace, Composed;
    HeadLines();
    var rest := [RequireLine(["include"])] + ls;
    assert rest[1..] == ls;
    assert Included(rest) == Included(ls) && OwnIn(rest) == OwnIn(ls);
    var all := [HEADING, RequireLine(["include"])] + ls;
    assert all[1..] == rest;
  }

  lemma {:induction false} OwnRead(own: string)
    requires Readers(own)
    ensures var ls := IncludeLines(Optional(own)) + [""]; OwnIn(ls) == own && Included(ls) == (if own == "" then {} else {own})
  {
    hide HEADING, RequireLine, MatchInclude, TrimSpace, Composed, Include;
    HeadLines();
    assert OwnIn([""]) == "" && Included([""]) == {};
    if own == "" {
      assert IncludeLines(Optional(own)) + [""] == [""];
    } else {
      IncludeRoundTrip(own);
      var ls := IncludeLines(Optional(own)) + [""];
      assert IncludeLines([own]) == [Include(own)];
      assert ls[0] == Include(own) && ls[1..] == [""];
    }
  }

  lemma SameComposed(names: set<string>, own: string)
    requires Readers(own)
    ensures Present((set n | n in Present(names)) + if own == "" then {} else {own}) == Present(names)
  {
    var present := Present(names);
    assert RULES in present <==> RULES in names;
    assert FORWARD in present <==> FORWARD in names;
    assert VACATION in present <==> VACATION in names;
  }

  // ----- the server and the calls on it

  /** The account's scripts and the active one, "" for none. */
  datatype Server = Server(scripts: map<string, string>, active: string) {
    /** None of our scripts is there. */
    predicate Untouched() {
      "alborz" !in scripts && "alborz-rules" !in scripts && "alborz-forward" !in scripts && "alborz-vacation" !in scripts
    }
  }

  datatype Call = Put(name: string, content: string) | Delete(name: string) | Activate(name: string)

  function Applied(s: Server, c: Call): Server {
    match c
    case Put(name, content) => s.(scripts := s.scripts[name := content])
    case Delete(name) => s.(scripts := s.scripts - {name})
    case Activate(name) => s.(active := name)
  }

  /** A ManageSieve server deletes no active script and activates none that is not there. */
  predicate Accepts(s: Server, c: Call) {
    match c
    case Put(_, _) => true
    case Delete(name) => name in s.scripts && s.active != name
    case Activate(name) => name == "" || name in s.scripts
  }

  function AllApplied(s: Server, cs: seq<Call>): Server
    decreases |cs|
  {
    if cs == [] then s else AllApplied(Applied(s, cs[0]), cs[1..])
  }

  /** The server takes every call, one after the other. */
  predicate AllAccepted(s: Server, cs: seq<Call>)
    decreases |cs|
  {
    cs == [] || (Accepts(s, cs[0]) && AllAccepted(Applied(s, cs[0]), cs[1..]))
  }

  function Own(s: Server): string {
    if s.active != "" && s.active != MAIN then s.active
    else if MAIN in s.scripts then OwnScriptIn(s.scripts[MAIN])
    else ""
  }

  predicate Checked(s: Server) {
    MAIN in s.scripts ==> ByUs(s.scripts[MAIN])
  }

  /** What wiring asks of the server, in order; None when the main script was edited by hand. */
  function WireCalls(s: Server): Option<seq<Call>> {
    var present := Present(s.scripts.Keys);
    if !Checked(s) then None
    else if present == [] then
      Some(if MAIN in s.scripts then [Activate(Own(s)), Delete(MAIN)] else [])
    else
      Some([Put(MAIN, MainScript(present, Own(s)))] + if s.active != MAIN then [Activate(MAIN)] else [])
  }

  /** An empty script is deleted if it is there; any other is put. */
  function Edit(s: Server, name: string, next: string): seq<Call> {
    if next != "" then [Put(name, next)] else if name in s.scripts then [Delete(name)] else []
  }

  datatype Rewrite = Refused | Calls(calls: seq<Call>)

  /** A whole rewrite of one component, loaded with content `loaded`: refused when the main
      script or the component is not as it was last seen, else the calls it makes. */
  function RewriteCalls(s: Server, name: string, loaded: Option<string>, next: string): Rewrite {
    if !Checked(s) || (if name in s.scripts then loaded != Some(s.scripts[name]) else loaded.Some?) then Refused
    else match WireCalls(AllApplied(s, Edit(s, name, next)))
         case None => Refused
         case Some(calls) => Calls(Edit(s, name, next) + calls)
  }

  // ----- every run of rewrites, each cut short anywhere

  /** A rewrite cut short after `cut` of its calls; complete when that is all of them. */
  datatype Event = Event(name: string, loaded: Option<string>, next: string, cut: nat)

  function Cut(s: Server, e: Event): Server {
    match RewriteCalls(s, e.name, e.loaded, e.next)
    case Refused => s
    case Calls(calls) => AllApplied(s, calls[..if e.cut < |calls| then e.cut else |calls|])
  }

  function AfterAll(s: Server, es: seq<Event>): Server
    decreases |es|
  {
    if es == [] then s else AfterAll(Cut(s, es[0]), es[1..])
  }

  predicate Ours(name: string) {
    name == MAIN || Composed(name)
  }

  /** An account as found: none of our scripts, and the reader's own active, if any. */
  predicate Found(s: Server, own: string) {
    && Readers(own) && s.active == own && (own != "" ==> own in s.scripts)
    && forall n | n in s.scripts :: !Ours(n)
  }

  /** What every cut leaves: the reader's script active or remembered by the main script,
      and none of the reader's scripts touched. */
  ghost predicate Kept(s: Server, s0: Server, own: string) {
    && (s.active == own || (s.active == MAIN && MAIN in s.scripts))
    && (MAIN in s.scripts ==> exists names :: s.scripts[MAIN] == MainScript(Present(names), own))
    && (forall n | !Ours(n) :: (n in s.scripts <==> n in s0.scripts) && (n in s.scripts ==> s.scripts[n] == s0.scripts[n]))
  }

  /** What a complete rewrite leaves. */
  predicate Wired(s: Server, own: string) {
    var present := Present(s.scripts.Keys);
    if present == [] then MAIN !in s.scripts && s.active == own
    else MAIN in s.scripts && s.scripts[MAIN] == MainScript(present, own) && s.active == MAIN
  }

  /** The same by the names: the main script is there, and active, exactly when one of the three
      components is, and includes each that is, in their order, and then the reader's script;
      otherwise the reader's script is active as it was. */
  predicate LeftWired(s: Server, own: string) {
    var rules, forward, vacation := "alborz-rules" in s.scripts, "alborz-forward" in s.scripts, "alborz-vacation" in s.scripts;
    && ("alborz" in s.scripts <==> rules || forward || vacation)
    && s.active == (if rules || forward || vacation then "alborz" else own)
    && ("alborz" in s.scripts ==> MainReads(s.scripts["alborz"], rules, forward, vacation, own))
  }

  lemma WiredReads(s: Server, own: string)
    requires Wired(s, own)
    ensures LeftWired(s, own)
  {
    hide MainScript, MainReads;
    MainTextIs(s.scripts.Keys, own);
  }

  lemma OwnIsRemembered(s: Server, s0: Server, own: string)
    requires Kept(s, s0, own) && Readers(own)
    ensures Checked(s) && Own(s) == own
  {
    hide MainScript, Present, OwnScriptIn, ByUs, Composed;
    if MAIN in s.scripts {
      var names :| s.scripts[MAIN] == MainScript(Present(names), own);
      MainRoundTrip(names, own);
    }
  }

  /** Calls the server takes one after the other, each keeping the reader's script. */
  ghost predicate Sound(s: Server, cs: seq<Call>, s0: Server, own: string)
    decreases |cs|
  {
    Kept(s, s0, own) && (cs == [] || (Accepts(s, cs[0]) && Sound(Applied(s, cs[0]), cs[1..], s0, own)))
  }

  lemma {:induction false} SoundConcat(s: Server, a: seq<Call>, b: seq<Call>, s0: Server, own: string)
    requires Sound(s, a, s0, own) && Sound(AllApplied(s, a), b, s0, own)
    ensures Sound(s, a + b, s0, own) && AllApplied(s, a + b) == AllApplied(AllApplied(s, a), b)
    decreases |a|
  {
    hide Kept, Accepts, Applied;
    if a == [] {
      assert a + b == b;
    } else {
      assert (a + b)[0] == a[0] && (a + b)[1..] == a[1..] + b;
      SoundConcat(Applied(s, a[0]), a[1..], b, s0, own);
    }
  }

  lemma {:induction false} SoundCut(s: Server, cs: seq<Call>, k: nat, s0: Server, own: string)
    requires Sound(s, cs, s0, own) && k <= |cs|
    ensures Kept(AllApplied(s, cs[..k]), s0, own)
    decreases k
  {
    hide Kept, Accepts, Applied;
    if k > 0 {
      assert cs[..k][0] == cs[0] && cs[..k][1..] == cs[1..][..k - 1];
      SoundCut(Applied(s, cs[0]), cs[1..], k - 1, s0, own);
    }
  }

  lemma {:induction false} SoundOne(s: Server, c: Call, s0: Server, own: string)
    requires Kept(s, s0, own) && Accepts(s, c) && Kept(Applied(s, c), s0, own)
    ensures Sound(s, [c], s0, own) && AllApplied(s, [c]) == Applied(s, c)
  {
    hide Kept, Accepts, Applied;
    assert [c][1..] == [];
    assert Sound(Applied(s, c), [], s0, own);
  }

  lemma EditSound(s: Server, s0: Server, own: string, name: string, next: string)
    requires Kept(s, s0, own) && Readers(own) && Composed(name)
    ensures Sound(s, Edit(s, name, next), s0, own)
    ensures var t := AllApplied(s, Edit(s, name, next));
            t.active == s.active && (if next == "" then name !in t.scripts else name in t.scripts && t.scripts[name] == next)
  {
    hide MainScript, Present, AllApplied, Sound;
    assert name != MAIN;
    var cs := Edit(s, name, next);
    if cs == [] {
      NoCalls(s, s0, own);
    } else {
      var t := Applied(s, cs[0]);
      if MAIN in s.scripts {
        var names :| s.scripts[MAIN] == MainScript(Present(names), own);
        assert MAIN in t.scripts && t.scripts[MAIN] == MainScript(Present(names), own);
      }
      SoundOne(s, cs[0], s0, own);
    }
  }

  lemma NoCalls(s: Server, s0: Server, own: string)
    requires Kept(s, s0, own)
    ensures Sound(s, [], s0, own) && AllApplied(s, []) == s
  {
  }

  lemma MainIsNotPresent(names: set<string>)
    ensures Present(names + {MAIN}) == Present(names) && Present(names - {MAIN}) == Present(names)
  {
  }

  lemma PutMainSound(s: Server, s0: Server, own: string, present: seq<string>)
    requires Kept(s, s0, own) && present == Present(s.scripts.Keys)
    ensures var t := Applied(s, Put(MAIN, MainScript(present, own)));
            Kept(t, s0, own) && Present(t.scripts.Keys) == present && Sound(s, [Put(MAIN, MainScript(present, own))], s0, own)
  {
    hide MainScript, Present, Sound, AllApplied;
    var c := Put(MAIN, MainScript(present, own));
    var t := Applied(s, c);
    assert t.scripts.Keys == s.scripts.Keys + {MAIN};
    MainIsNotPresent(s.scripts.Keys);
    assert t.scripts[MAIN] == MainScript(Present(s.scripts.Keys), own);
    SoundOne(s, c, s0, own);
  }

  /** Wiring cannot fail for a hand edit, each of its calls is taken and keeps the reader's
      script, and the last one leaves the account wired. */
  lemma {:induction false} WireSound(s: Server, s0: Server, own: string)
    requires Kept(s, s0, own) && Found(s0, own)
    ensures WireCalls(s).Some?
    ensures Sound(s, WireCalls(s).value, s0, own) && Wired(AllApplied(s, WireCalls(s).value), own)
    ensures forall n | Composed(n) :: n in s.scripts <==> n in AllApplied(s, WireCalls(s).value).scripts
    ensures forall n | Composed(n) && n in s.scripts :: AllApplied(s, WireCalls(s).value).scripts[n] == s.scripts[n]
  {
    hide MainScript, OwnScriptIn, ByUs, Present, Sound, AllApplied, Own;
    OwnIsRemembered(s, s0, own);
    var present := Present(s.scripts.Keys);
    if present != [] {
      WirePresent(s, s0, own);
    } else if MAIN in s.scripts {
      Unwire(s, s0, own);
    } else {
      NoCalls(s, s0, own);
    }
  }

  lemma {:induction false} WirePresent(s: Server, s0: Server, own: string)
    requires Kept(s, s0, own) && Found(s0, own) && Present(s.scripts.Keys) != []
    ensures var calls := [Put(MAIN, MainScript(Present(s.scripts.Keys), own))] + if s.active != MAIN then [Activate(MAIN)] else [];
            var t := AllApplied(s, calls);
            Sound(s, calls, s0, own) && Wired(t, own) && t.scripts == s.scripts[MAIN := MainScript(Present(s.scripts.Keys), own)]
  {
    hide MainScript, Present, Sound, AllApplied;
    var present := Present(s.scripts.Keys);
    var put := Put(MAIN, MainScript(present, own));
    var t := Applied(s, put);
    PutMainSound(s, s0, own, present);
    SoundOne(s, put, s0, own);
    if s.active != MAIN {
      SoundOne(t, Activate(MAIN), s0, own);
      SoundConcat(s, [put], [Activate(MAIN)], s0, own);
    } else {
      assert [put] + [] == [put];
    }
  }

  lemma {:induction false} Unwire(s: Server, s0: Server, own: string)
    requires Kept(s, s0, own) && Found(s0, own) && Present(s.scripts.Keys) == [] && MAIN in s.scripts
    ensures var calls := [Activate(own), Delete(MAIN)];
            var t := AllApplied(s, calls);
            Sound(s, calls, s0, own) && Wired(t, own) && t.scripts == s.scripts - {MAIN}
  {
    hide MainScript, Present, Sound, AllApplied;
    var t := Applied(s, Activate(own));
    MainIsNotPresent(s.scripts.Keys);
    assert Applied(t, Delete(MAIN)).scripts.Keys == s.scripts.Keys - {MAIN};
    SoundOne(s, Activate(own), s0, own);
    SoundOne(t, Delete(MAIN), s0, own);
    SoundConcat(s, [Activate(own)], [Delete(MAIN)], s0, own);
    assert [Activate(own)] + [Delete(MAIN)] == [Activate(own), Delete(MAIN)];
  }

  /** A rewrite of a component seen as it is: its calls are sound, and all of them together
      leave the account wired with the component as wanted. */
  lemma {:induction false} RewriteSound(s: Server, s0: Server, own: string, name: string, loaded: Option<string>, next: string)
    requires Kept(s, s0, own) && Found(s0, own) && Composed(name)
    ensures RewriteCalls(s, name, loaded, next).Refused? <==>
            if name in s.scripts then loaded != Some(s.scripts[name]) else loaded.Some?
    ensures var r := RewriteCalls(s, name, loaded, next);
            r.Calls? ==>
              && Sound(s, r.calls, s0, own) && Wired(AllApplied(s, r.calls), own)
              && var t := AllApplied(s, r.calls).scripts;
              if next == "" then name !in t else name in t && t[name] == next
  {
    hide WireCalls, Sound, AllApplied, Edit, Wired, Present, MainScript;
    OwnIsRemembered(s, s0, own);
    EditSound(s, s0, own, name, next);
    var edit := Edit(s, name, next);
    var t := AllApplied(s, edit);
    SoundEndsKept(s, edit, s0, own);
    WireSound(t, s0, own);
    SoundConcat(s, edit, WireCalls(t).value, s0, own);
  }

  lemma {:induction false} SoundEndsKept(s: Server, cs: seq<Call>, s0: Server, own: string)
    requires Sound(s, cs, s0, own)
    ensures Kept(AllApplied(s, cs), s0, own)
  {
    hide Kept, Sound, AllApplied;
    SoundCut(s, cs, |cs|, s0, own);
    assert cs[..|cs|] == cs;
  }

  lemma {:induction false} CutsKeep(s: Server, s0: Server, own: string, es: seq<Event>)
    requires Kept(s, s0, own) && Found(s0, own) && forall i | 0 <= i < |es| :: Composed(es[i].name)
    ensures Kept(AfterAll(s, es), s0, own)
    decreases |es|
  {
    hide Kept, Found, Composed, RewriteCalls, AllApplied, Sound, Wired;
    if es != [] {
      RewriteSound(s, s0, own, es[0].name, es[0].loaded, es[0].next);
      match RewriteCalls(s, es[0].name, es[0].loaded, es[0].next) {
        case Refused =>
        case Calls(calls) => SoundCut(s, calls, if es[0].cut < |calls| then es[0].cut else |calls|, s0, own);
      }
      assert Kept(Cut(s, es[0]), s0, own);
      CutsKeep(Cut(s, es[0]), s0, own, es[1..]);
    }
  }

  /** Sieve wiring: from an account as found, after any rewrites cut short at any call, the
      next complete rewrite of a component loaded as it stands is not refused, every call of it
      is one the server takes, and it leaves the main script active, running exactly the present
      components in order and then the reader's script, or, with no component left, no main
      script and the reader's script active as found. None of the reader's scripts changed. */
  lemma WiringTheorem(s0: Server, own: string, es: seq<Event>, name: string, loaded: Option<string>, next: string)
    requires Found(s0, own) && Composed(name) && forall i | 0 <= i < |es| :: Composed(es[i].name)
    ensures var s := AfterAll(s0, es);
            var r := RewriteCalls(s, name, loaded, next);
            && (r.Refused? <==> if name in s.scripts then loaded != Some(s.scripts[name]) else loaded.Some?)
            && (r.Calls? ==>
                  var t := AllApplied(s, r.calls);
                  && Sound(s, r.calls, s0, own) && AllAccepted(s, r.calls) && Wired(t, own) && Kept(t, s0, own)
                  && LeftWired(t, own)
                  && if next == "" then name !in t.scripts else name in t.scripts && t.scripts[name] == next)
  {
    hide MainScript, Present, RewriteCalls, Sound, AllApplied, AfterAll, Wired, AllAccepted;
    assert Kept(s0, s0, own);
    CutsKeep(s0, s0, own, es);
    var s := AfterAll(s0, es);
    RewriteSound(s, s0, own, name, loaded, next);
    var r := RewriteCalls(s, name, loaded, next);
    if r.Calls? {
      SoundEndsKept(s, r.calls, s0, own);
      SoundIsAccepted(s, r.calls, s0, own);
      WiredReads(AllApplied(s, r.calls), own);
    }
  }

  lemma {:induction false} SoundIsAccepted(s: Server, cs: seq<Call>, s0: Server, own: string)
    requires Sound(s, cs, s0, own)
    ensures AllAccepted(s, cs)
    decreases |cs|
  {
    hide Kept, Accepts, Applied;
    if cs != [] { SoundIsAccepted(Applied(s, cs[0]), cs[1..], s0, own); }
  }

  // ----- as it is written: a client whose connection may drop at any call

  /** `left` calls still get through; the one after fails, its effect done or not. The server
      refuses what it does not accept. */
  class SieveClient {
    var scripts: map<string, string>
    var active: string
    var left: nat
    const lateFailure: bool

    constructor (s: Server, left: nat, lateFailure: bool)
      ensures State() == s && this.left == left
    {
      scripts, active, this.left, this.lateFailure := s.scripts, s.active, left, lateFailure;
    }

    function State(): Server
      reads this
    {
      Server(scripts, active)
    }

    /** One reading call. */
    method Read() returns (ok: bool)
      modifies this`left
      ensures State() == old(State()) && (ok <==> old(left) > 0) && left >= old(left) - 1
    {
      ok := left > 0;
      if ok { left := left - 1; }
    }

    method Ask(c: Call) returns (ok: bool)
      modifies this
      ensures State() == Applied(old(State()), c) || (!ok && State() == old(State()))
      ensures (ok <==> old(left) > 0 && Accepts(old(State()), c)) && left >= old(left) - 1
    {
      var through, accepted := left > 0, Accepts(State(), c);
      if through { left := left - 1; }
      ok := through && accepted;
      if accepted && (through || lateFailure) {
        match c {
          case Put(name, content) => scripts := scripts[name := content];
          case Delete(name) => scripts := scripts - {name};
          case Activate(name) => active := name;
        }
      }
    }

    method CheckMainScript() returns (ok: bool)
      modifies this`left
      ensures State() == old(State()) && left >= old(left) - 2
      ensures (ok ==> Checked(State())) && (old(left) >= 2 && Checked(State()) ==> ok)
    {
      hide ByUs;
      ok := Read();
      if ok && MAIN in scripts {
        ok := Read();
        ok := ok && ByUs(scripts[MAIN]);
      }
    }

    /** What was done is the first `done` calls of the wiring, all of them on success; and it is
        a success when the connection holds and the server takes the calls. */
    method Wire() returns (ok: bool, ghost done: nat)
      modifies this
      ensures ok ==> LeftWired(State(), if old(State()).Untouched() then old(active) else Own(old(State())))
      ensures var calls := WireCalls(old(State()));
              old(left) >= 6 && calls.Some? && AllAccepted(old(State()), calls.value) ==> ok
      ensures var calls := WireCalls(old(State()));
              if calls.Some? then
                done <= |calls.value| && State() == AllApplied(old(State()), calls.value[..done]) && (ok ==> done == |calls.value|)
              else !ok && State() == old(State())
    {
      hide MainScript, OwnScriptIn, ByUs, Present, Composed, AllAccepted, LeftWired;
      ghost var s := State();
      NoneDone(s);
      done := 0;
      ok := CheckMainScript();
      if !ok { return; }
      ok := Read();
      if !ok { return; }
      var present := Present(scripts.Keys);
      var own := "";
      if active != "" && active != MAIN {
        own := active;
      } else if MAIN in scripts {
        ok := Read();
        if !ok { return; }
        own := OwnScriptIn(scripts[MAIN]);
      }
      ghost var calls := WireCalls(s).value;
      WireLeaves(s);
      if |present| == 0 {
        if MAIN !in scripts {
          assert calls[..0] == calls;
          return;
        }
        TwoCalls(s, calls);
        ok := Ask(Activate(own));
        done := if State() == s then 0 else 1;
        if !ok { return; }
        done := 1;
        ok := Ask(Delete(MAIN));
        done := if ok || State() == AllApplied(s, calls) then 2 else 1;
        return;
      }
      var wasMain := active == MAIN;
      if wasMain { OneCall(s, calls); } else { TwoCalls(s, calls); }
      ok := Ask(Put(MAIN, MainScript(present, own)));
      done := if ok || State() != s then 1 else 0;
      if wasMain || !ok { return; }
      ok := Ask(Activate(MAIN));
      done := if ok || State() == AllApplied(s, calls) then 2 else 1;
    }

    /** A rewrite does what a rewrite cut short somewhere does, and all of it on success; and it
        is a success when the connection holds, the rewrite is not refused and the server takes
        its calls. */
    method Rewrite(name: string, loaded: Option<string>, next: string) returns (ok: bool)
      requires Composed(name)
      modifies this
      ensures exists cut :: State() == Cut(old(State()), Event(name, loaded, next, cut))
      ensures ok ==> RewriteCalls(old(State()), name, loaded, next).Calls?
                     && State() == AllApplied(old(State()), RewriteCalls(old(State()), name, loaded, next).calls)
      ensures var r := RewriteCalls(old(State()), name, loaded, next);
              old(left) >= 11 && r.Calls? && AllAccepted(old(State()), r.calls) ==> ok
    {
      hide WireCalls, AllApplied, Composed, ByUs;
      ghost var s := State();
      CutAtOnce(s, name, loaded, next);
      ok := CheckMainScript();
      if !ok { return; }
      ok := Read();
      if !ok { return; }
      var there := name in scripts;
      if there {
        ok := Read();
        if !ok { return; }
      }
      if there != loaded.Some? || (there && scripts[name] != loaded.value) { return false; }
      EditKeepsMain(s, name, next);
      ghost var edit := Edit(s, name, next);
      CutAfterEdit(s, name, loaded, next);
      if next == "" {
        if there { ok := Ask(Delete(name)); }
      } else {
        ok := Ask(Put(name, next));
      }
      if !ok { return; }
      assert State() == AllApplied(s, edit);
      ghost var done;
      ok, done := Wire();
      CutInWiring(s, name, loaded, next, done);
      AcceptedConcat(s, edit, WireCalls(AllApplied(s, edit)).value);
    }
  }

  /** All calls of the wiring together leave the account wired. */
  lemma {:induction false} WireLeaves(s: Server)
    requires WireCalls(s).Some?
    ensures var t := AllApplied(s, WireCalls(s).value); LeftWired(t, if s.Untouched() then s.active else Own(s))
  {
    hide MainScript, OwnScriptIn, ByUs, MainReads, Own;
    var calls := WireCalls(s).value;
    var t := AllApplied(s, calls);
    if |calls| == 2 { TwoCalls(s, calls); } else if |calls| == 1 { OneCall(s, calls); }
    if !s.Untouched() {
      assert Present(t.scripts.Keys) == Present(s.scripts.Keys);
      WiredReads(t, Own(s));
    }
  }

  lemma {:induction false} AcceptedConcat(s: Server, a: seq<Call>, b: seq<Call>)
    ensures AllAccepted(s, a + b) <==> AllAccepted(s, a) && AllAccepted(AllApplied(s, a), b)
    decreases |a|
  {
    hide Applied, Accepts;
    if a == [] {
      assert a + b == b;
    } else {
      assert (a + b)[0] == a[0] && (a + b)[1..] == a[1..] + b;
      AcceptedConcat(Applied(s, a[0]), a[1..], b);
    }
  }

  lemma {:induction false} AppliedConcat(s: Server, a: seq<Call>, b: seq<Call>)
    ensures AllApplied(s, a + b) == AllApplied(AllApplied(s, a), b)
    decreases |a|
  {
    hide Applied;
    if a == [] {
      assert a + b == b;
    } else {
      assert (a + b)[0] == a[0] && (a + b)[1..] == a[1..] + b;
      AppliedConcat(Applied(s, a[0]), a[1..], b);
    }
  }

  lemma CutAtOnce(s: Server, name: string, loaded: Option<string>, next: string)
    ensures Cut(s, Event(name, loaded, next, 0)) == s
  {
    hide RewriteCalls;
    var r := RewriteCalls(s, name, loaded, next);
    if r.Calls? { assert r.calls[..0] == []; }
  }

  lemma EditKeepsMain(s: Server, name: string, next: string)
    requires Composed(name) && Checked(s)
    ensures WireCalls(AllApplied(s, Edit(s, name, next))).Some?
    ensures AllApplied(s, Edit(s, name, next)) == if Edit(s, name, next) == [] then s else Applied(s, Edit(s, name, next)[0])
  {
    hide ByUs;
    var edit := Edit(s, name, next);
    if edit != [] { OneCall(s, edit); }
  }

  /** Both outcomes of a failed edit are cuts. */
  lemma CutAfterEdit(s: Server, name: string, loaded: Option<string>, next: string)
    requires if name in s.scripts then loaded == Some(s.scripts[name]) else loaded.None?
    requires Checked(s) && WireCalls(AllApplied(s, Edit(s, name, next))).Some?
    ensures Cut(s, Event(name, loaded, next, |Edit(s, name, next)|)) == AllApplied(s, Edit(s, name, next))
  {
    hide WireCalls, AllApplied, Checked, Edit;
    var edit := Edit(s, name, next);
    var calls := RewriteCalls(s, name, loaded, next).calls;
    assert calls[..|edit|] == edit;
  }

  lemma CutInWiring(s: Server, name: string, loaded: Option<string>, next: string, done: nat)
    requires if name in s.scripts then loaded == Some(s.scripts[name]) else loaded.None?
    requires Checked(s) && WireCalls(AllApplied(s, Edit(s, name, next))).Some?
    requires done <= |WireCalls(AllApplied(s, Edit(s, name, next))).value|
    ensures var edit := Edit(s, name, next);
            var wiring := WireCalls(AllApplied(s, edit)).value;
            var t := AllApplied(AllApplied(s, edit), wiring[..done]);
            && t == Cut(s, Event(name, loaded, next, |edit| + done))
            && (done == |wiring| ==> t == AllApplied(s, RewriteCalls(s, name, loaded, next).calls))
  {
    hide WireCalls, AllApplied, Checked, Edit;
    var edit := Edit(s, name, next);
    var wiring := WireCalls(AllApplied(s, edit)).value;
    AppliedConcat(s, edit, wiring[..done]);
    assert (edit + wiring)[..|edit| + done] == edit + wiring[..done];
    if done == |wiring| { assert wiring[..done] == wiring; }
  }

  lemma NoneDone(s: Server)
    ensures WireCalls(s).Some? ==> AllApplied(s, WireCalls(s).value[..0]) == s
  {
    hide WireCalls;
  }

  lemma OneCall(s: Server, cs: seq<Call>)
    requires |cs| == 1
    ensures AllApplied(s, cs[..0]) == s && AllApplied(s, cs[..1]) == Applied(s, cs[0]) && cs[..1] == cs
    ensures AllAccepted(s, cs) <==> Accepts(s, cs[0])
  {
    hide Applied, Accepts;
    assert cs[1..] == [] && cs[..1] == cs;
    assert AllApplied(Applied(s, cs[0]), []) == Applied(s, cs[0]);
  }

  lemma {:induction false} TwoCalls(s: Server, cs: seq<Call>)
    requires |cs| == 2
    ensures AllApplied(s, cs[..0]) == s && AllApplied(s, cs[..1]) == Applied(s, cs[0])
    ensures AllApplied(s, cs[..2]) == Applied(Applied(s, cs[0]), cs[1]) && cs[..2] == cs
    ensures AllAccepted(s, cs) <==> Accepts(s, cs[0]) && Accepts(Applied(s, cs[0]), cs[1])
  {
    hide Applied, Accepts;
    var t := Applied(s, cs[0]);
    assert cs[..1][1..] == [] && cs[..2] == cs && cs[1..] == [cs[1]] && [cs[1]][1..] == [];
    assert AllApplied(t, []) == t;
    assert AllApplied(Applied(t, cs[1]), []) == Applied(t, cs[1]);
    assert AllApplied(t, [cs[1]]) == Applied(t, cs[1]);
    assert AllAccepted(Applied(t, cs[1]), []);
    assert AllAccepted(t, cs[1..]) <==> Accepts(t, cs[1]);
  }
}
