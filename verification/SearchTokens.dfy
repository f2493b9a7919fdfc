/** The search box's tokenizer: words and phrases in runs, and keys with their values. A
    character stands for one byte. */
module SearchTokens {
  import opened Basics
  import opened Lines

  /** The length of what stands before the first `c`: all of it where there is none. */
  function Until(s: string, c: char): (n: nat)
    ensures n <= |s| && c !in s[..n] && (n < |s| ==> s[n] == c)
  {
    if s == "" || s[0] == c then 0
    else
      assert s[..1 + Until(s[1..], c)] == [s[0]] + s[1..][..Until(s[1..], c)];
      1 + Until(s[1..], c)
  }

  function Spaces(s: string): (n: nat)
    ensures n <= |s| && (n < |s| ==> s[n] != ' ') && forall i | 0 <= i < n :: s[i] == ' '
  {
    if s != "" && s[0] == ' ' then 1 + Spaces(s[1..]) else 0
  }

  predicate Phrased(s: string) {
    "\"" <= s || "-\"" <= s
  }

  /** The length of the bare word or phrase at the front. */
  function BareLen(s: string): (n: nat)
    ensures n <= |s|
    ensures s != "" && s[0] != ' ' ==> n > 0
    ensures n < |s| ==> s[n] == ' '
  {
    if !Phrased(s) then Until(s, ' ')
    else
      var open := Until(s, '"');
      assert open <= 1 by { assert s[0] == '"' || s[1] == '"'; }
      var end := open + 1 + Until(s[open + 1..], '"') + 1;
      if end > |s| then |s| else end + Until(s[end..], ' ')
  }

  predicate KeyAt(s: string) {
    !Phrased(s) && ':' in s[..BareLen(s)]
  }

  lemma KeyHasColon(p: string)
    requires KeyAt(p)
    ensures Until(p, ':') < |p|
  {
    hide Until, BareLen;
    assert p[..|p|] == p;
  }

  /** Where the first word with a key stands. */
  function FindTerm(s: string): (r: Option<nat>)
    requires s == "" || s[0] != ' '
    ensures r.Some? ==> r.value < |s|
    ensures r == Some(0) ==> KeyAt(s)
    decreases |s|
  {
    if s == "" then None
    else if KeyAt(s) then Some(0)
    else
      var next := NextWord(s);
      var r := FindTerm(s[next..]);
      if r.None? then None else Some(next + r.value)
  }

  /** Where the word after the first one starts. */
  function NextWord(s: string): (n: nat)
    requires s != "" && s[0] != ' '
    ensures BareLen(s) <= n <= |s| && 0 < n && (n < |s| ==> s[n] != ' ' && BareLen(s) < n)
  {
    BareLen(s) + Spaces(s[BareLen(s)..])
  }

  /** How far to advance, and the token found: none asks for more input. */
  datatype Found = Found(advance: nat, token: Option<string>)

  /** What a key's value is, at the front of the input. */
  function SplitKeyed(rest: string, atEOF: bool): (r: Found)
    requires KeyAt(rest)
    ensures r.advance <= |rest|
    ensures r.token.Some? ==> r.advance > 0 && r.token.value != ""
    ensures r.token.None? ==> !atEOF && r.advance == 0
  {
    var colon := Until(rest, ':');
    assert colon < |rest| by { KeyHasColon(rest); }
    var value := rest[colon + 1..];
    if "\"" <= value then
      var closing := Until(value[1..], '"');
      if closing == |value| - 1 then
        if !atEOF then Found(0, None) else Found(|rest|, Some(rest[..colon + 1] + value[1..]))
      else Found(colon + closing + 3, Some(rest[..colon + 1] + value[1..closing + 1]))
    else
      var word := colon + 1 + Until(value, ' ');
      if word == |rest| && !atEOF then Found(0, None) else Found(word, Some(rest[..word]))
  }

  function SplitRest(rest: string, atEOF: bool): (r: Found)
    requires rest != "" && rest[0] != ' '
    ensures r.advance <= |rest|
    ensures r.token.Some? ==> r.advance > 0 && r.token.value != ""
    ensures r.token.None? ==> !atEOF && r.advance == 0
  {
    var term := FindTerm(rest);
    if term.Some? && term.value == 0 then SplitKeyed(rest, atEOF)
    else if term.Some? then
      assert TrimRight(rest[..term.value], ' ') != "" by { TrimmedStarts(rest[..term.value]); }
      Found(term.value, Some(TrimRight(rest[..term.value], ' ')))
    else if !atEOF then Found(0, None)
    else
      assert TrimRight(rest, ' ') != "" by { TrimmedStarts(rest); }
      Found(|rest|, Some(TrimRight(rest, ' ')))
  }

  lemma {:induction false} TrimmedStarts(s: string)
    requires s != "" && s[0] != ' '
    ensures TrimRight(s, ' ') != ""
    decreases |s|
  {
    if s[|s| - 1] == ' ' { TrimmedStarts(s[..|s| - 1]); }
  }

  /** The split function. Every call at the end of the input advances past what it returns, or
      past all there is. */
  function NextToken(buf: string, atEOF: bool): (r: Found)
    ensures r.advance <= |buf|
    ensures r.token.Some? ==> r.advance > 0 && r.token.value != ""
    ensures r.token.None? ==> !atEOF || r.advance == |buf|
  {
    var start := Spaces(buf);
    if start == |buf| then Found(start, None)
    else
      var r := SplitRest(buf[start..], atEOF);
      Found(start + r.advance, r.token)
  }

  // ----- what a longer input leaves as it is

  lemma {:induction false} UntilStable(p: string, x: string, c: char)
    requires Until(p, c) < |p|
    ensures Until(p + x, c) == Until(p, c)
  {
    assert (p + x)[0] == p[0];
    if p[0] != c {
      assert (p + x)[1..] == p[1..] + x;
      UntilStable(p[1..], x, c);
    }
  }

  lemma {:induction false} UntilGrows(p: string, x: string, c: char)
    ensures Until(p + x, c) >= Until(p, c)
  {
    if p != "" {
      assert (p + x)[0] == p[0];
      if p[0] != c {
        assert (p + x)[1..] == p[1..] + x;
        UntilGrows(p[1..], x, c);
      }
    }
  }

  lemma {:induction false} SpacesStable(p: string, x: string)
    requires Spaces(p) < |p|
    ensures Spaces(p + x) == Spaces(p)
  {
    assert (p + x)[0] == p[0];
    if p[0] == ' ' {
      assert (p + x)[1..] == p[1..] + x;
      SpacesStable(p[1..], x);
    }
  }

  lemma PhrasedStable(p: string, x: string)
    requires |p| >= 2 || (|p| == 1 && p[0] != '-')
    ensures Phrased(p + x) == Phrased(p)
  {
    assert (p + x)[0] == p[0];
    if |p| >= 2 { assert (p + x)[1] == p[1]; }
  }

  lemma BareLenStable(p: string, x: string)
    requires p != "" && p[0] != ' ' && BareLen(p) < |p|
    ensures Phrased(p + x) == Phrased(p) && BareLen(p + x) == BareLen(p)
  {
    hide Until;
    PhrasedStable(p, x);
    if !Phrased(p) {
      UntilStable(p, x, ' ');
    } else {
      var open := Until(p, '"');
      assert open <= 1 by { assert p[0] == '"' || p[1] == '"'; }
      UntilStable(p, x, '"');
      assert (p + x)[open + 1..] == p[open + 1..] + x;
      var close := Until(p[open + 1..], '"');
      if open + 1 + close < |p| {
        UntilStable(p[open + 1..], x, '"');
        var end := open + 1 + close + 1;
        assert (p + x)[end..] == p[end..] + x;
        UntilStable(p[end..], x, ' ');
      }
    }
  }

  lemma KeyAtStable(p: string, x: string)
    requires KeyAt(p)
    ensures KeyAt(p + x)
  {
    hide Until;
    assert p[0] != '-' || |p| >= 2;
    PhrasedStable(p, x);
    UntilGrows(p, x, ' ');
    var n := Until(p, ' ');
    assert (p + x)[..Until(p + x, ' ')][..n] == p[..n];
  }

  function Shifted(i: nat, r: Option<nat>): Option<nat> {
    if r.None? then None else Some(i + r.value)
  }

  lemma FindBehind(s: string, next: nat, rest: string)
    requires s != "" && s[0] != ' ' && !KeyAt(s) && NextWord(s) == next && s[next..] == rest
    ensures FindTerm(s) == Shifted(next, FindTerm(rest))
  {
    hide KeyAt, NextWord;
  }

  lemma KeyFound(k: string)
    requires KeyAt(k) && k[0] != ' '
    ensures FindTerm(k) == Some(0)
  {
  }

  lemma {:induction false} FindTermStable(p: string, x: string)
    requires p != "" && p[0] != ' ' && FindTerm(p).Some?
    ensures (p + x)[0] != ' ' && FindTerm(p + x) == FindTerm(p)
    decreases |p|
  {
    hide KeyAt, NextWord, FindTerm;
    assert (p + x)[0] == p[0];
    if KeyAt(p) {
      KeyAtStable(p, x);
      KeyFound(p);
      KeyFound(p + x);
    } else {
      var next := NextWord(p);
      NoTermLeft();
      FindBehind(p, next, p[next..]);
      assert next < |p|;
      NextWordStable(p, x);
      NotKeyStable(p, x);
      assert (p + x)[next..] == p[next..] + x;
      FindTermStable(p[next..], x);
      FindBehind(p + x, next, p[next..] + x);
    }
  }

  lemma NextWordStable(p: string, x: string)
    requires p != "" && p[0] != ' ' && NextWord(p) < |p|
    ensures (p + x)[0] != ' ' && NextWord(p + x) == NextWord(p)
  {
    hide BareLen;
    var word := BareLen(p);
    BareLenStable(p, x);
    assert (p + x)[word..] == p[word..] + x;
    SpacesStable(p[word..], x);
  }

  lemma NotKeyStable(p: string, x: string)
    requires p != "" && p[0] != ' ' && BareLen(p) < |p|
    ensures BareLen(p + x) == BareLen(p) && KeyAt(p + x) == KeyAt(p)
  {
    hide BareLen, Phrased;
    BareLenStable(p, x);
    assert (p + x)[..BareLen(p)] == p[..BareLen(p)];
  }

  lemma SplitKeyedStable(p: string, x: string, atEOF: bool)
    requires KeyAt(p) && KeyAt(p + x) && SplitKeyed(p, false).token.Some?
    ensures SplitKeyed(p + x, atEOF) == SplitKeyed(p, false)
  {
    hide Until, KeyAt;
    var colon := Until(p, ':');
    KeyHasColon(p);
    UntilStable(p, x, ':');
    var value, longer := p[colon + 1..], (p + x)[colon + 1..];
    assert longer == value + x;
    assert (p + x)[..colon + 1] == p[..colon + 1];
    assert value != "" && longer[0] == value[0];
    if "\"" <= value {
      var closing := Until(value[1..], '"');
      assert longer[1..] == value[1..] + x;
      UntilStable(value[1..], x, '"');
      assert longer[1..closing + 1] == value[1..closing + 1];
    } else {
      UntilStable(value, x, ' ');
      var word := colon + 1 + Until(value, ' ');
      assert (p + x)[..word] == p[..word];
    }
  }

  lemma SplitRestStable(p: string, x: string, atEOF: bool)
    requires p != "" && p[0] != ' ' && SplitRest(p, false).token.Some?
    ensures (p + x)[0] != ' ' && SplitRest(p + x, atEOF) == SplitRest(p, false)
  {
    hide FindTerm, SplitKeyed, KeyAt, TrimRight;
    FindTermStable(p, x);
    var i := FindTerm(p).value;
    if i == 0 {
      assert p[0..] == p && (p + x)[0..] == p + x;
      SplitKeyedStable(p, x, atEOF);
    } else {
      assert (p + x)[..i] == p[..i];
    }
  }

  /** A token found in a part of the input is the token of any longer input. */
  lemma SplitStable(p: string, x: string, atEOF: bool)
    requires NextToken(p, false).token.Some?
    ensures NextToken(p + x, atEOF) == NextToken(p, false)
  {
    hide SplitRest, Spaces;
    var start := Spaces(p);
    SpacesStable(p, x);
    assert (p + x)[start..] == p[start..] + x;
    SplitRestStable(p[start..], x, atEOF);
  }

  // ----- scanning

  /** The tokens of the whole input at once. */
  function Tokens(s: string): seq<string>
    decreases |s|
  {
    var r := NextToken(s, true);
    if r.token.None? then [] else [r.token.value] + Tokens(s[r.advance..])
  }

  /** The tokens of an input that arrives in pieces: the split function is asked with what is
      held, and more is read when it finds no token; the end is only seen by a read. */
  function Scanned(buf: string, chunks: seq<string>, atEOF: bool): seq<string>
    decreases |chunks|, !atEOF, |buf|
  {
    var r := NextToken(buf, atEOF);
    if r.token.Some? then [r.token.value] + Scanned(buf[r.advance..], chunks, atEOF)
    else if chunks != [] then Scanned(buf[r.advance..] + chunks[0], chunks[1..], atEOF)
    else if !atEOF then Scanned(buf[r.advance..], [], true)
    else []
  }

  lemma {:induction false} SpacesSkipped(s: string, n: nat)
    requires n <= Spaces(s)
    ensures Spaces(s[n..]) == Spaces(s) - n
  {
    if n == 0 {
      assert s[0..] == s;
    } else {
      SpacesSkipped(s[1..], n - 1);
      assert s[1..][n - 1..] == s[n..];
    }
  }

  /** Spaces in front change nothing. */
  lemma {:induction false} TokensSkip(s: string, n: nat)
    requires n <= Spaces(s)
    ensures Tokens(s[n..]) == Tokens(s)
  {
    hide Spaces, SplitRest;
    SpacesSkipped(s, n);
    var start := Spaces(s);
    assert s[n..][start - n..] == s[start..];
    var r := NextToken(s, true);
    if r.token.Some? { assert s[n..][r.advance - n..] == s[r.advance..]; }
  }

  lemma {:induction false} SpacesOfMore(p: string, x: string)
    ensures Spaces(p + x) >= Spaces(p)
  {
    if p != "" && p[0] == ' ' {
      assert (p + x)[1..] == p[1..] + x;
      SpacesOfMore(p[1..], x);
    }
  }

  /** Reading on after no token was found is reading the longer input from the start. */
  lemma {:induction false} NoTokenMeansMore(p: string, x: string)
    requires NextToken(p, false).token.None?
    ensures Tokens(p[NextToken(p, false).advance..] + x) == Tokens(p + x)
  {
    hide Spaces, Tokens;
    var n := NextToken(p, false).advance;
    SpacesOfMore(p, x);
    assert p[n..] + x == (p + x)[n..];
    TokensSkip(p + x, n);
  }

  /** Tokens do not depend on buffering: however the input arrives, the tokens are those of
      the whole. */
  lemma {:induction false} BufferingDoesNotMatter(buf: string, chunks: seq<string>, atEOF: bool)
    requires atEOF ==> chunks == []
    ensures Scanned(buf, chunks, atEOF) == Tokens(buf + Flattened(chunks))
    decreases |chunks|, !atEOF, |buf|
  {
    hide NextToken, Flattened;
    var r, later := NextToken(buf, atEOF), Flattened(chunks);
    assert atEOF ==> buf + later == buf by { NothingMore(chunks); }
    if r.token.Some? {
      if !atEOF { SplitStable(buf, later, true); }
      assert (buf + later)[r.advance..] == buf[r.advance..] + later;
      BufferingDoesNotMatter(buf[r.advance..], chunks, atEOF);
    } else if chunks != [] {
      NoTokenMeansMore(buf, later);
      FlattenedFirst(chunks);
      assert buf[r.advance..] + chunks[0] + Flattened(chunks[1..]) == buf[r.advance..] + later;
      BufferingDoesNotMatter(buf[r.advance..] + chunks[0], chunks[1..], atEOF);
    } else if !atEOF {
      NoTokenMeansMore(buf, later);
      BufferingDoesNotMatter(buf[r.advance..], [], true);
    }
  }

  lemma NothingMore(chunks: seq<string>)
    ensures chunks == [] ==> Flattened(chunks) == ""
  {
  }

  lemma FlattenedFirst(chunks: seq<string>)
    requires chunks != []
    ensures Flattened(chunks) == chunks[0] + Flattened(chunks[1..])
  {
  }

  // ----- nothing is lost

  /** A text without its spaces and quotes and without regard to ASCII case. */
  function Loose(s: string): string {
    if s == "" then ""
    else
      (if s[0] == ' ' || s[0] == '"' then "" else [if 'A' <= s[0] <= 'Z' then s[0] - 'A' + 'a' else s[0]]) + Loose(s[1..])
  }

  lemma {:induction false} LooseBoth(a: string, b: string)
    ensures Loose(a + b) == Loose(a) + Loose(b)
  {
    if a == "" {
      assert a + b == b;
    } else {
      assert (a + b)[0] == a[0] && (a + b)[1..] == a[1..] + b;
      LooseBoth(a[1..], b);
    }
  }

  lemma {:induction false} LooseSpaces(s: string)
    requires forall i | 0 <= i < |s| :: s[i] == ' '
    ensures Loose(s) == ""
  {
    if s != "" { LooseSpaces(s[1..]); }
  }

  lemma {:induction false} LooseTrimmed(s: string)
    ensures Loose(TrimRight(s, ' ')) == Loose(s)
    decreases |s|
  {
    if s != "" && s[|s| - 1] == ' ' {
      var fewer := s[..|s| - 1];
      LooseTrimmed(fewer);
      assert s == fewer + " ";
      LooseBoth(fewer, " ");
      LooseSpaces(" ");
    }
  }

  lemma LooseQuotes(a: string, v: string)
    ensures Loose(a + "\"" + v) == Loose(a + v) && Loose(a + "\"" + v + "\"") == Loose(a + v)
  {
    LooseBoth(a + "\"", v);
    LooseBoth(a, "\"");
    LooseBoth(a, v);
    LooseBoth(a + "\"" + v, "\"");
    assert Loose("\"") == "" by { assert "\""[1..] == "" && Loose("") == ""; }
  }

  lemma {:induction false} KeyedKeeps(rest: string)
    requires KeyAt(rest)
    ensures var r := SplitKeyed(rest, true); Loose(r.token.value) == Loose(rest[..r.advance])
  {
    hide Until, Loose, KeyAt;
    KeyHasColon(rest);
    var colon := Until(rest, ':');
    var front, value := rest[..colon + 1], rest[colon + 1..];
    if "\"" <= value {
      var closing := Until(value[1..], '"');
      if closing == |value| - 1 {
        assert rest[..|rest|] == front + "\"" + value[1..];
        LooseQuotes(front, value[1..]);
      } else {
        assert rest[..colon + closing + 3] == front + "\"" + value[1..closing + 1] + "\"";
        LooseQuotes(front, value[1..closing + 1]);
      }
    }
  }

  lemma {:induction false} SplitKeeps(rest: string)
    requires rest != "" && rest[0] != ' '
    ensures var r := SplitRest(rest, true); Loose(r.token.value) == Loose(rest[..r.advance])
  {
    hide FindTerm, SplitKeyed, Loose, KeyAt, TrimRight;
    var term := FindTerm(rest);
    if term.Some? && term.value == 0 {
      KeyedKeeps(rest);
    } else if term.Some? {
      LooseTrimmed(rest[..term.value]);
    } else {
      LooseTrimmed(rest);
      assert rest[..|rest|] == rest;
    }
  }

  /** The tokens hold everything typed but spaces and quotes, in its order. */
  lemma {:induction false} TokensKeep(s: string)
    ensures Loose(Flattened(Tokens(s))) == Loose(s)
    decreases |s|
  {
    hide SplitRest, Loose, Spaces;
    var r, start := NextToken(s, true), Spaces(s);
    assert s == s[..start] + s[start..];
    LooseBoth(s[..start], s[start..]);
    LooseSpaces(s[..start]);
    if r.token.None? {
      assert s[..start] == s;
    } else {
      var rest, taken := s[start..], s[start..r.advance];
      SplitKeeps(rest);
      assert rest[..r.advance - start] == taken && rest == taken + s[r.advance..];
      LooseBoth(taken, s[r.advance..]);
      TokensKeep(s[r.advance..]);
      LooseBoth(r.token.value, Flattened(Tokens(s[r.advance..])));
      assert Tokens(s)[1..] == Tokens(s[r.advance..]);
    }
  }

  // ----- the loops

  /** The two loops over spaces, at the front and behind each word. */
  method SkipSpaces(s: string, from: nat) returns (i: nat)
    requires from <= |s|
    ensures i == from + Spaces(s[from..])
  {
    i := from;
    while i < |s| && s[i] == ' '
      invariant from <= i <= |s| && from + Spaces(s[from..]) == i + Spaces(s[i..])
      decreases |s| - i
    {
      assert s[i..][1..] == s[i + 1..];
      i := i + 1;
    }
  }

  lemma FindTermStep(rest: string, i: nat)
    requires i < |rest| && rest[i] != ' '
    ensures KeyAt(rest[i..]) ==> FindTerm(rest[i..]) == Some(0)
    ensures var next := i + NextWord(rest[i..]);
      && i < next <= |rest| && (next < |rest| ==> rest[next] != ' ')
      && (!KeyAt(rest[i..]) ==> Shifted(i, FindTerm(rest[i..])) == Shifted(next, FindTerm(rest[next..])))
  {
    hide KeyAt, NextWord, FindTerm;
    var here := rest[i..];
    var n := NextWord(here);
    assert here[n..] == rest[i + n..];
    if KeyAt(here) { KeyFound(here); } else { FindBehind(here, n, rest[i + n..]); }
  }

  method FindTermIn(rest: string) returns (term: Option<nat>)
    requires rest != "" && rest[0] != ' '
    ensures term == FindTerm(rest)
  {
    hide BareLen, Phrased, Spaces, FindTerm;
    var i := 0;
    assert rest[0..] == rest;
    while i < |rest|
      invariant i <= |rest| && (i < |rest| ==> rest[i] != ' ')
      invariant FindTerm(rest) == Shifted(i, FindTerm(rest[i..]))
      decreases |rest| - i
    {
      FindTermStep(rest, i);
      var word := i + BareLen(rest[i..]);
      assert rest[i..word] == rest[i..][..word - i];
      if !Phrased(rest[i..]) && ':' in rest[i..word] {
        return Some(i);
      }
      assert rest[word..] == rest[i..][word - i..];
      i := SkipSpaces(rest, word);
    }
    NoTermLeft();
    assert rest[i..] == "";
    return None;
  }

  lemma NoTermLeft()
    ensures FindTerm("") == None
  {
  }

  /** `splitSearchTokens` finds exactly the next token. */
  method SplitSearchTokens(buf: string, atEOF: bool) returns (r: Found)
    ensures r == NextToken(buf, atEOF)
  {
    hide FindTerm, KeyAt, TrimRight, Until, Spaces;
    assert buf[0..] == buf;
    var start := SkipSpaces(buf, 0);
    if start == |buf| {
      return Found(start, None);
    }
    var rest := buf[start..];
    var term := FindTermIn(rest);
    if term.Some? && term.value > 0 {
      return Found(start + term.value, Some(TrimRight(rest[..term.value], ' ')));
    } else if term.None? && !atEOF {
      return Found(start, None);
    } else if term.None? {
      return Found(|buf|, Some(TrimRight(rest, ' ')));
    }
    KeyHasColon(rest);
    var colon := Until(rest, ':');
    var value := rest[colon + 1..];
    if "\"" <= value {
      var closing := Until(value[1..], '"');
      if closing == |value| - 1 && !atEOF {
        return Found(start, None);
      }
      if closing == |value| - 1 {
        return Found(|buf|, Some(rest[..colon + 1] + value[1..]));
      }
      return Found(start + colon + closing + 3, Some(rest[..colon + 1] + value[1..closing + 1]));
    }
    var word := colon + 1 + Until(value, ' ');
    if word == |rest| && !atEOF {
      return Found(start, None);
    }
    return Found(start + word, Some(rest[..word]));
  }
}
