/** Sieve quoted strings (section 2.4.2 of RFC 5228), written and matched. */
module SieveText {
  import opened Basics
  import opened Lines

  function Escaped(s: string): string {
    if s == "" then ""
    else (if s[0] == '\\' || s[0] == '\"' then ['\\', s[0]] else [s[0]]) + Escaped(s[1..])
  }

  function Quote(s: string): string {
    "\"" + Escaped(s) + "\""
  }

  function Unquote(s: string): string {
    if s == "" then ""
    else if |s| >= 2 && s[0] == '\\' && (s[1] == '\"' || s[1] == '\\') then [s[1]] + Unquote(s[2..])
    else [s[0]] + Unquote(s[1..])
  }

  /** The length of a quoted string's body at the start of `s`, up to its closing quote: the
      language of ((?:[^"\\]|\\.)*)", where a backslash takes the next character with it. */
  function Body(s: string): (n: Option<nat>)
    ensures n.Some? ==> n.value < |s| && s[n.value] == '\"'
  {
    if s == "" then None
    else if s[0] == '\"' then Some(0)
    else if s[0] == '\\' then
      if |s| < 2 || s[1] == '\n' then None
      else match Body(s[2..]) case None => None case Some(n) => Some(n + 2)
    else match Body(s[1..]) case None => None case Some(n) => Some(n + 1)
  }

  /** A quoted string at the start of `s`: its body as written, and what follows. */
  function MatchQuoted(s: string): (r: Option<(string, string)>)
    ensures r.Some? ==> |r.value.1| < |s| && s == "\"" + r.value.0 + "\"" + r.value.1
  {
    if s == "" || s[0] != '\"' then None
    else match Body(s[1..])
         case None => None
         case Some(n) =>
           assert s == "\"" + s[1..n + 1] + "\"" + s[n + 2..];
           Some((s[1..n + 1], s[n + 2..]))
  }

  /** Writing a string and reading it back is the identity, and the closing quote is the one
      written, whatever stands behind it. */
  lemma {:induction false} QuotedRoundTrip(v: string, rest: string)
    ensures MatchQuoted(Quote(v) + rest) == Some((Escaped(v), rest)) && Unquote(Escaped(v)) == v
  {
    BodyOfEscaped(v, "\"" + rest);
    UnquoteEscaped(v);
    assert (Quote(v) + rest)[1..] == Escaped(v) + ("\"" + rest);
    var n := |Escaped(v)|;
    assert (Quote(v) + rest)[1..n + 1] == Escaped(v);
    assert (Quote(v) + rest)[n + 2..] == rest;
  }

  /** What quoting writes: a backslash before each backslash and each quote, nothing else, and
      the whole between quotes. */
  lemma {:induction false} QuoteWrites(a: string, b: string, c: char)
    ensures Quote("") == "\"\"" && Quote(a) == "\"" + Escaped(a) + "\""
    ensures Escaped(a + b) == Escaped(a) + Escaped(b)
    ensures Escaped([c]) == if c == '\\' then "\\\\" else if c == '"' then "\\\"" else [c]
  {
    if a == "" {
      assert a + b == b;
    } else {
      assert (a + b)[0] == a[0] && (a + b)[1..] == a[1..] + b;
      QuoteWrites(a[1..], b, c);
    }
    assert [c][1..] == "";
  }

  lemma {:induction false} EscapedPlain(s: string)
    requires '\\' !in s && '"' !in s
    ensures Escaped(s) == s
  {
    if s != "" {
      assert s[0] in s && forall c | c in s[1..] :: c in s;
      EscapedPlain(s[1..]);
      assert s == [s[0]] + s[1..];
    }
  }

  lemma {:induction false} BodyOfEscaped(v: string, tail: string)
    requires tail != "" && tail[0] == '\"'
    ensures Body(Escaped(v) + tail) == Some(|Escaped(v)|)
  {
    var s := Escaped(v) + tail;
    if v == "" {
      assert s == tail;
    } else {
      BodyOfEscaped(v[1..], tail);
      if v[0] == '\\' || v[0] == '\"' {
        assert s[2..] == Escaped(v[1..]) + tail;
      } else {
        assert s[1..] == Escaped(v[1..]) + tail;
      }
    }
  }

  lemma {:induction false} UnquoteEscaped(v: string)
    ensures Unquote(Escaped(v)) == v
  {
    if v != "" {
      UnquoteEscaped(v[1..]);
      assert [v[0]] + v[1..] == v;
      if v[0] == '\\' || v[0] == '\"' {
        assert Escaped(v)[2..] == Escaped(v[1..]);
      } else {
        assert Escaped(v)[1..] == Escaped(v[1..]);
      }
    }
  }

  lemma {:induction false} EscapedKeepsLine(v: string)
    ensures OneLine(v) <==> OneLine(Quote(v))
    ensures v == "" <==> Escaped(v) == ""
  {
    if v != "" {
      EscapedKeepsLine(v[1..]);
      assert v == [v[0]] + v[1..];
      assert OneLine(v) <==> v[0] != '\n' && OneLine(v[1..]);
      assert OneLine(Escaped(v)) <==> v[0] != '\n' && OneLine(Escaped(v[1..]));
    }
    assert OneLine(Quote(v)) <==> OneLine(Escaped(v));
  }

  function RequireLine(extensions: seq<string>): string {
    "require [" + Join(seq(|extensions|, i requires 0 <= i < |extensions| => Quote(extensions[i])), ", ") + "];"
  }

  /** The rest of `s` behind a literal it starts with. */
  function After(s: string, literal: string): (r: Option<string>)
    ensures r.Some? <==> literal <= s
    ensures r.Some? ==> s == literal + r.value
  {
    if literal <= s then assert s == literal + s[|literal|..]; Some(s[|literal|..]) else None
  }

  lemma AfterLiteral(literal: string, rest: string)
    ensures After(literal + rest, literal) == Some(rest)
  {
    assert (literal + rest)[|literal|..] == rest;
  }
}
