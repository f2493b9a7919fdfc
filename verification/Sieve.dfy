/** The part of Sieve the composed scripts are written in, read and run as section 8 of RFC 5228
    (with RFC 3894 for :copy and RFC 5232 for addflag) has a server do it. */
module Sieve {
  import opened Basics

  // ----- tokens

  datatype Token = Word(text: string) | Text(value: string) | Mark(mark: char)

  predicate Letter(c: char) {
    'a' <= c <= 'z' || 'A' <= c <= 'Z' || '0' <= c <= '9' || c == '_'
  }

  predicate White(c: char) {
    c == ' ' || c == '\t' || c == '\r' || c == '\n'
  }

  predicate IsMark(c: char) {
    c == '(' || c == ')' || c == '[' || c == ']' || c == '{' || c == '}' || c == ',' || c == ';'
  }

  /** How many letters `s` starts with. */
  function Span(s: string): (n: nat)
    ensures n <= |s|
  {
    if s == "" || !Letter(s[0]) then 0 else 1 + Span(s[1..])
  }

  /** What follows the line `s` starts in. */
  function NextLine(s: string): (rest: string)
    ensures |rest| <= |s|
  {
    if s == "" then "" else if s[0] == '\n' then s[1..] else NextLine(s[1..])
  }

  /** A string up to its closing quote, a backslash giving the character behind it. */
  function Quoted(s: string): (r: Option<(string, string)>)
    ensures r.Some? ==> |r.value.1| < |s|
  {
    if s == "" then None
    else if s[0] == '"' then Some(("", s[1..]))
    else if s[0] == '\\' then
      if |s| < 2 then None
      else match Quoted(s[2..]) case None => None case Some((v, rest)) => Some(([s[1]] + v, rest))
    else match Quoted(s[1..]) case None => None case Some((v, rest)) => Some(([s[0]] + v, rest))
  }

  function Ahead(ts: seq<Token>, more: Option<seq<Token>>): Option<seq<Token>> {
    if more.None? then None else Some(ts + more.value)
  }

  function Lex(s: string): Option<seq<Token>>
    decreases |s|
  {
    if s == "" then Some([])
    else if White(s[0]) then Lex(s[1..])
    else if s[0] == '#' then Lex(NextLine(s[1..]))
    else if IsMark(s[0]) then Ahead([Mark(s[0])], Lex(s[1..]))
    else if s[0] == '"' then
      match Quoted(s[1..]) case None => None case Some((v, rest)) => Ahead([Text(v)], Lex(rest))
    else if s[0] == ':' || Letter(s[0]) then
      var n := 1 + Span(s[1..]);
      Ahead([Word(s[..n])], Lex(s[n..]))
    else None
  }

  // ----- commands

  datatype Test =
    | False
    | AllOf(tests: seq<Test>)
    | AnyOf(tests: seq<Test>)
    | OfAddress(domain: bool, contains: bool, header: string, key: string)
    | OfHeader(contains: bool, header: string, key: string)

  datatype Command =
    | If(test: Test, body: seq<Command>)
    | AddFlag(flag: string)
    | FileInto(mailbox: string)
    | Redirect(copy: bool, address: string)
    | Discard
    | Stop

  datatype Program = Program(extensions: seq<string>, commands: seq<Command>)

  /** `:is` or `:contains`, a header's name and a key. */
  function Compared(ts: seq<Token>): Option<(bool, string, string)> {
    if |ts| < 3 || (ts[0] != Word(":is") && ts[0] != Word(":contains")) || !ts[1].Text? || !ts[2].Text? then None
    else Some((ts[0] == Word(":contains"), ts[1].value, ts[2].value))
  }

  function ParseTest(ts: seq<Token>): (r: Option<(Test, seq<Token>)>)
    ensures r.Some? ==> |r.value.1| < |ts|
    decreases |ts|, 0
  {
    if ts == [] then None
    else if ts[0] == Word("false") then Some((False, ts[1..]))
    else if ts[0] == Word("allof") || ts[0] == Word("anyof") then
      if |ts| < 2 || ts[1] != Mark('(') then None
      else
        match ParseTests(ts[2..])
        case None => None
        case Some((tests, rest)) => Some((if ts[0] == Word("allof") then AllOf(tests) else AnyOf(tests), rest))
    else if ts[0] == Word("address") && |ts| > 1 && ts[1] == Word(":domain") then
      match Compared(ts[2..])
      case None => None
      case Some((contains, header, key)) => Some((OfAddress(true, contains, header, key), ts[5..]))
    else if ts[0] == Word("address") then
      match Compared(ts[1..])
      case None => None
      case Some((contains, header, key)) => Some((OfAddress(false, contains, header, key), ts[4..]))
    else if ts[0] == Word("header") then
      match Compared(ts[1..])
      case None => None
      case Some((contains, header, key)) => Some((OfHeader(contains, header, key), ts[4..]))
    else None
  }

  /** One test or more between commas, up to the closing parenthesis. */
  function ParseTests(ts: seq<Token>): (r: Option<(seq<Test>, seq<Token>)>)
    ensures r.Some? ==> |r.value.1| < |ts|
    decreases |ts|, 1
  {
    match ParseTest(ts)
    case None => None
    case Some((test, rest)) =>
      if rest == [] then None
      else if rest[0] == Mark(')') then Some(([test], rest[1..]))
      else if rest[0] != Mark(',') then None
      else match ParseTests(rest[1..]) case None => None case Some((more, after)) => Some(([test] + more, after))
  }

  function ParseString(ts: seq<Token>): Option<string> {
    if |ts| >= 2 && ts[0].Text? && ts[1] == Mark(';') then Some(ts[0].value) else None
  }

  function ParseCommand(ts: seq<Token>): (r: Option<(Command, seq<Token>)>)
    ensures r.Some? ==> |r.value.1| < |ts|
    decreases |ts|, 0
  {
    if |ts| < 2 then None
    else if ts[0] == Word("if") then
      match ParseTest(ts[1..])
      case None => None
      case Some((test, rest)) =>
        if rest == [] || rest[0] != Mark('{') then None
        else
          match ParseCommands(rest[1..])
          case None => None
          case Some((body, after)) =>
            if after == [] || after[0] != Mark('}') then None else Some((If(test, body), after[1..]))
    else if ts[0] == Word("addflag") then
      match ParseString(ts[1..]) case None => None case Some(v) => Some((AddFlag(v), ts[3..]))
    else if ts[0] == Word("fileinto") then
      match ParseString(ts[1..]) case None => None case Some(v) => Some((FileInto(v), ts[3..]))
    else if ts[0] == Word("redirect") && ts[1] == Word(":copy") then
      match ParseString(ts[2..]) case None => None case Some(v) => Some((Redirect(true, v), ts[4..]))
    else if ts[0] == Word("redirect") then
      match ParseString(ts[1..]) case None => None case Some(v) => Some((Redirect(false, v), ts[3..]))
    else if ts[0] == Word("discard") && ts[1] == Mark(';') then Some((Discard, ts[2..]))
    else if ts[0] == Word("stop") && ts[1] == Mark(';') then Some((Stop, ts[2..]))
    else None
  }

  /** Commands up to a closing brace or the end. */
  function ParseCommands(ts: seq<Token>): (r: Option<(seq<Command>, seq<Token>)>)
    ensures r.Some? ==> |r.value.1| <= |ts|
    decreases |ts|, 1
  {
    if ts == [] || ts[0] == Mark('}') then Some(([], ts))
    else
      match ParseCommand(ts)
      case None => None
      case Some((command, rest)) =>
        match ParseCommands(rest) case None => None case Some((more, after)) => Some(([command] + more, after))
  }

  /** Strings between commas, up to the closing bracket. */
  function ParseStrings(ts: seq<Token>): (r: Option<(seq<string>, seq<Token>)>)
    ensures r.Some? ==> |r.value.1| < |ts|
    decreases |ts|
  {
    if |ts| < 2 || !ts[0].Text? then None
    else if ts[1] == Mark(']') then Some(([ts[0].value], ts[2..]))
    else if ts[1] != Mark(',') then None
    else match ParseStrings(ts[2..]) case None => None case Some((more, rest)) => Some(([ts[0].value] + more, rest))
  }

  function ParseAll(ts: seq<Token>, extensions: seq<string>): Option<Program> {
    match ParseCommands(ts)
    case None => None
    case Some((commands, rest)) => if rest == [] then Some(Program(extensions, commands)) else None
  }

  /** A program may start with what it requires. */
  function Parse(ts: seq<Token>): Option<Program> {
    if |ts| >= 2 && ts[0] == Word("require") && ts[1] == Mark('[') then
      match ParseStrings(ts[2..])
      case None => None
      case Some((extensions, rest)) =>
        if rest == [] || rest[0] != Mark(';') then None else ParseAll(rest[1..], extensions)
    else ParseAll(ts, [])
  }

  /** The extensions a program's commands come from. */
  function Uses(commands: seq<Command>): set<string> {
    if commands == [] then {} else CommandUses(commands[0]) + Uses(commands[1..])
  }

  function CommandUses(c: Command): set<string> {
    match c
    case If(_, body) => Uses(body)
    case AddFlag(_) => {"imap4flags"}
    case FileInto(_) => {"fileinto"}
    case Redirect(copy, _) => if copy then {"copy"} else {}
    case Discard => {}
    case Stop => {}
  }

  // ----- a message delivered

  datatype Address = Address(local: string, domain: string)

  /** A message by its headers: the values, and the addresses they hold. */
  datatype Message = Message(values: string -> seq<string>, addresses: string -> seq<Address>)

  function Folded(s: string): string {
    if s == "" then ""
    else [if 'A' <= s[0] <= 'Z' then s[0] - 'A' + 'a' else s[0]] + Folded(s[1..])
  }

  /** The comparison of two texts without regard to ASCII case, whole or as a part. */
  ghost predicate Agrees(contains: bool, text: string, key: string) {
    if contains then exists i | 0 <= i <= |Folded(text)| :: Folded(key) <= Folded(text)[i..]
    else Folded(text) == Folded(key)
  }

  function Part(domain: bool, a: Address): string {
    if domain then a.domain else a.local + "@" + a.domain
  }

  ghost predicate AddressAgrees(m: Message, domain: bool, contains: bool, header: string, key: string) {
    exists i | 0 <= i < |m.addresses(header)| :: Agrees(contains, Part(domain, m.addresses(header)[i]), key)
  }

  ghost predicate HeaderAgrees(m: Message, contains: bool, header: string, key: string) {
    exists i | 0 <= i < |m.values(header)| :: Agrees(contains, m.values(header)[i], key)
  }

  ghost predicate Holds(t: Test, m: Message) {
    match t
    case False => false
    case AllOf(tests) => forall i | 0 <= i < |tests| :: Holds(tests[i], m)
    case AnyOf(tests) => exists i | 0 <= i < |tests| :: Holds(tests[i], m)
    case OfAddress(domain, contains, header, key) => AddressAgrees(m, domain, contains, header, key)
    case OfHeader(contains, header, key) => HeaderAgrees(m, contains, header, key)
  }

  /** What a delivery has come to: the flags set so far, the mailboxes filed into with the flags
      then set, the addresses sent to, whether the inbox still gets the message, and whether
      the script was stopped. */
  datatype Outcome = Outcome(flags: set<string>, filed: seq<(string, set<string>)>, sent: seq<string>, keep: bool, stopped: bool)

  const START := Outcome({}, [], [], true, false)

  ghost function Done(c: Command, m: Message, o: Outcome): Outcome
    decreases c, 0
  {
    match c
    case If(test, body) => if Holds(test, m) then Ran(body, m, o) else o
    case AddFlag(flag) => o.(flags := o.flags + {flag})
    case FileInto(mailbox) => o.(filed := o.filed + [(mailbox, o.flags)], keep := false)
    case Redirect(copy, address) => o.(sent := o.sent + [address], keep := o.keep && copy)
    case Discard => o.(keep := false)
    case Stop => o.(stopped := true)
  }

  ghost function Ran(commands: seq<Command>, m: Message, o: Outcome): Outcome
    decreases commands, 1
  {
    if commands == [] || o.stopped then o else Ran(commands[1..], m, Done(commands[0], m, o))
  }

  /** A script put on a server and run on a message: nothing where it is no script, or uses
      what it does not require. */
  ghost function Delivered(script: string, m: Message): Option<Outcome> {
    match Lex(script)
    case None => None
    case Some(ts) =>
      match Parse(ts)
      case None => None
      case Some(p) =>
        if forall x | x in Uses(p.commands) :: x in p.extensions then Some(Ran(p.commands, m, START)) else None
  }
}
