/** The search query: how it is read from what was typed, and written back. */
module SearchQuery {
  import opened Basics
  import opened Lines
  import opened SearchTokens

  datatype Term = Term(key: string, value: string, not: bool, quoted: bool)

  function LowerChar(c: char): char {
    if 'A' <= c <= 'Z' then c + ' ' else c
  }

  function ToLower(s: string): (r: string)
    ensures |r| == |s|
  {
    seq(|s|, i requires 0 <= i < |s| => LowerChar(s[i]))
  }

  function TrimDash(s: string): string {
    if "-" <= s then s[1..] else s
  }

  function Stripped(s: string): (r: string)
    ensures '"' !in s ==> r == s
  {
    if s == "" then "" else (if s[0] == '"' then "" else [s[0]]) + Stripped(s[1..])
  }

  // ----- reading

  function Flushed(words: seq<string>): seq<Term> {
    if words == [] then [] else [Term("", Join(words, " "), false, false)]
  }

  function Bare(word: string): Term {
    var value := TrimDash(word);
    Term("", Stripped(value), "-" <= word, "\"" <= value)
  }

  /** Whether a bare word is part of the plain text around it. */
  predicate Plain(word: string) {
    Bare(word).value == "" || (!Bare(word).not && !Bare(word).quoted)
  }

  /** The terms of a run of words and phrases, with the plain words met so far. */
  function BareFrom(run: string, words: seq<string>): seq<Term>
    decreases |run|
  {
    var run := TrimLeft(run, ' ');
    if run == "" then Flushed(words)
    else
      var word, rest := run[..BareLen(run)], run[BareLen(run)..];
      if Plain(word) then BareFrom(rest, words + [word])
      else Flushed(words) + [Bare(word)] + BareFrom(rest, [])
  }

  function TermsOf(token: string): seq<Term> {
    var colon := Until(token, ':');
    if Phrased(token) || colon == |token| then BareFrom(token, [])
    else
      var key, value := token[..colon], token[colon + 1..];
      var name := ToLower(TrimDash(key));
      if name == "" || value == "" then [Term("", token, false, false)]
      else [Term(name, value, "-" <= key, false)]
  }

  function AllTerms(tokens: seq<string>): seq<Term> {
    if tokens == [] then [] else TermsOf(tokens[0]) + AllTerms(tokens[1..])
  }

  function Parsed(raw: string): seq<Term> {
    AllTerms(Tokens(raw))
  }

  // ----- writing

  function Printed(t: Term): string {
    var value := if t.quoted || (t.key != "" && ' ' in t.value) then "\"" + t.value + "\"" else t.value;
    var keyed := if t.key != "" then t.key + ":" + value else value;
    if t.not then "-" + keyed else keyed
  }

  function Printeds(q: seq<Term>): (r: seq<string>)
    ensures |r| == |q|
  {
    if q == [] then [] else [Printed(q[0])] + Printeds(q[1..])
  }

  function Text(q: seq<Term>): string {
    Join(Printeds(q), " ")
  }

  // ----- canonical queries

  predicate PlainWord(w: string) {
    w != "" && ':' !in w && '"' !in w && w[0] != '-'
  }

  predicate IsPlain(t: Term) {
    t.key == "" && !t.not && !t.quoted
  }

  predicate CanonicalTerm(t: Term) {
    if t.key != "" then
      && !t.quoted && ToLower(t.key) == t.key && t.key[0] != '-'
      && ' ' !in t.key && ':' !in t.key && '"' !in t.key
      && t.value != "" && '"' !in t.value
    else if t.quoted then t.value != "" && '"' !in t.value
    else if t.not then t.value != "" && '"' !in t.value && ' ' !in t.value && ':' !in t.value
    else forall w | w in Words(t.value) :: PlainWord(w)
  }

  predicate Canonical(q: seq<Term>) {
    && (forall i | 0 <= i < |q| :: CanonicalTerm(q[i]))
    && (forall i | 0 <= i < |q| - 1 :: !(IsPlain(q[i]) && IsPlain(q[i + 1])))
  }

  /** How many terms without a key the query starts with. */
  function RunLen(q: seq<Term>): (n: nat)
    ensures n <= |q| && (forall i | 0 <= i < n :: q[i].key == "") && (n < |q| ==> q[n].key != "")
  {
    if q == [] || q[0].key != "" then 0 else 1 + RunLen(q[1..])
  }

  /** A run is read as it was written when it starts with a phrase or no phrase has a colon:
      otherwise the colon is taken for a key's. */
  predicate RunReadable(run: seq<Term>) {
    run == [] || run[0].quoted || forall i | 0 <= i < |run| :: run[i].quoted ==> ':' !in run[i].value
  }

  predicate Readable(q: seq<Term>)
    decreases |q|
  {
    if q == [] then true
    else if q[0].key != "" then Readable(q[1..])
    else RunReadable(q[..RunLen(q)]) && Readable(q[RunLen(q)..])
  }

  // ----- a term at the front of the input

  predicate Follows(tail: string) {
    tail == "" || tail[0] == ' '
  }

  lemma {:induction false} UntilAt(a: string, b: string, c: char)
    requires c !in a && (b == "" || b[0] == c)
    ensures Until(a + b, c) == |a|
  {
    if a == "" {
      assert a + b == b;
    } else {
      assert (a + b)[0] == a[0] && (a + b)[1..] == a[1..] + b;
      UntilAt(a[1..], b, c);
    }
  }

  /** The word is the first bare word of the input, whatever comes behind the space after it. */
  ghost predicate Settled(w: string) {
    && w != "" && w[0] != ' ' && w[|w| - 1] != ' '
    && forall tail | Follows(tail) :: BareLen(w + tail) == |w| && !KeyAt(w + tail)
  }

  lemma SimpleSettled(w: string)
    requires w != "" && ' ' !in w && ':' !in w && '"' !in w
    ensures Settled(w)
  {
    hide Until;
    assert w[0] in w && w[|w| - 1] in w;
    forall tail | Follows(tail)
      ensures BareLen(w + tail) == |w| && !KeyAt(w + tail)
    {
      UntilAt(w, tail, ' ');
      assert (w + tail)[0] == w[0];
      if |w| > 1 { assert (w + tail)[1] == w[1] && w[1] in w; }
      assert !Phrased(w + tail);
      assert (w + tail)[..|w|] == w;
    }
  }

  function Phrase(dash: bool, v: string): string {
    (if dash then "-" else "") + ("\"" + v + "\"")
  }

  lemma PhraseEnds(s: string, open: nat, n: nat)
    requires open <= 1 && open + n + 2 <= |s| && Until(s, '"') == open && (open == 1 ==> s[0] == '-')
    requires Until(s[open + 1..], '"') == n && Until(s[open + n + 2..], ' ') == 0
    ensures Phrased(s) && BareLen(s) == open + n + 2
  {
    hide Until;
  }

  /** A phrase cut behind its first quote and behind its last. */
  lemma PhraseParts(lead: string, v: string, tail: string)
    ensures var s := lead + ("\"" + (v + ("\"" + tail)));
      && |s| == |lead| + |v| + 2 + |tail|
      && s[|lead| + 1..] == v + ("\"" + tail)
      && s[|lead| + |v| + 2..] == tail
  {
    var s, front := lead + ("\"" + (v + ("\"" + tail))), lead + "\"";
    assert s == front + (v + ("\"" + tail));
    assert s == (front + (v + "\"")) + tail;
  }

  lemma OpenedLen(lead: string, v: string, tail: string)
    requires (lead == "" || lead == "-") && '"' !in v && Follows(tail)
    ensures var s := lead + ("\"" + (v + ("\"" + tail))); Phrased(s) && BareLen(s) == |lead| + |v| + 2
  {
    hide Until, BareLen, Phrased;
    var s := lead + ("\"" + (v + ("\"" + tail)));
    PhraseParts(lead, v, tail);
    UntilAt(lead, "\"" + (v + ("\"" + tail)), '"');
    UntilAt(v, "\"" + tail, '"');
    UntilAt("", tail, ' ');
    assert "" + tail == tail;
    PhraseEnds(s, |lead|, |v|);
  }

  lemma PhraseLen(dash: bool, v: string, tail: string)
    requires '"' !in v && Follows(tail)
    ensures Phrased(Phrase(dash, v) + tail) && BareLen(Phrase(dash, v) + tail) == |Phrase(dash, v)|
  {
    hide BareLen, Phrased;
    var lead := if dash then "-" else "";
    assert Phrase(dash, v) + tail == lead + ("\"" + (v + ("\"" + tail)));
    OpenedLen(lead, v, tail);
  }

  lemma PhraseSettled(dash: bool, v: string)
    requires '"' !in v
    ensures Settled(Phrase(dash, v))
  {
    hide BareLen, Phrased;
    forall tail | Follows(tail)
      ensures BareLen(Phrase(dash, v) + tail) == |Phrase(dash, v)| && !KeyAt(Phrase(dash, v) + tail)
    {
      PhraseLen(dash, v, tail);
    }
  }

  // ----- runs of bare words

  /** The bare words a term without a key is written in. */
  function BareWords(t: Term): seq<string> {
    if IsPlain(t) then Words(t.value) else [Printed(t)]
  }

  function RunWords(run: seq<Term>): seq<string> {
    if run == [] then [] else BareWords(run[0]) + RunWords(run[1..])
  }

  ghost predicate AllSettled(ws: seq<string>) {
    forall i | 0 <= i < |ws| :: Settled(ws[i])
  }

  lemma {:induction false} JoinConcat(a: seq<string>, b: seq<string>)
    requires a != [] && b != []
    ensures Join(a + b, " ") == Join(a, " ") + " " + Join(b, " ")
  {
    assert (a + b)[0] == a[0] && (a + b)[1..] == a[1..] + b;
    if |a| > 1 {
      JoinConcat(a[1..], b);
    } else {
      assert a[1..] + b == b;
    }
  }

  lemma TermSettled(t: Term)
    requires CanonicalTerm(t) && t.key == ""
    ensures AllSettled(BareWords(t)) && BareWords(t) != [] && Join(BareWords(t), " ") == Printed(t)
  {
    hide Settled, Words;
    if t.quoted {
      PhraseSettled(t.not, t.value);
      assert Printed(t) == Phrase(t.not, t.value);
    } else if t.not {
      SimpleSettled("-" + t.value);
    } else {
      WordsJoin(t.value);
      WordsLack(t.value, ' ');
      forall i | 0 <= i < |Words(t.value)|
        ensures Settled(Words(t.value)[i])
      {
        var w := Words(t.value)[i];
        assert w in Words(t.value) && PlainWord(w);
        SimpleSettled(w);
      }
    }
  }

  lemma {:induction false} RunSettled(run: seq<Term>)
    requires forall i | 0 <= i < |run| :: CanonicalTerm(run[i]) && run[i].key == ""
    ensures AllSettled(RunWords(run)) && (run != [] ==> RunWords(run) != []) && Join(RunWords(run), " ") == Text(run)
  {
    hide Settled, CanonicalTerm, BareWords, Printed;
    if run != [] {
      TermSettled(run[0]);
      RunSettled(run[1..]);
      assert Printeds(run)[1..] == Printeds(run[1..]);
      if |run| == 1 {
        assert RunWords(run) == BareWords(run[0]);
      } else {
        JoinConcat(BareWords(run[0]), RunWords(run[1..]));
      }
    }
  }

  lemma {:induction false} JoinStarts(ws: seq<string>)
    requires ws != [] && AllSettled(ws)
    ensures var j := Join(ws, " "); j != "" && j[0] != ' ' && j[|j| - 1] != ' '
  {
    assert Settled(ws[0]);
    if |ws| > 1 { JoinStarts(ws[1..]); }
  }

  lemma NextAfter(w: string, z: string)
    requires Settled(w) && (z == "" || z[0] != ' ')
    ensures w != "" && w[0] != ' ' && NextWord(w) == |w|
    ensures (w + " " + z)[0] != ' ' && NextWord(w + " " + z) == |w| + 1
  {
    hide BareLen, KeyAt;
    assert Follows("") && w + "" == w;
    assert Follows(" " + z) && w + " " + z == w + (" " + z);
    assert (w + " " + z)[|w|..] == " " + z;
    assert (" " + z)[1..] == z;
    assert Spaces(z) == 0;
  }

  lemma {:induction false} FindAfter(w: string, z: string)
    requires Settled(w) && (z == "" || z[0] != ' ')
    ensures FindTerm(w) == None && (w + " " + z)[0] != ' '
    ensures FindTerm(w + " " + z) == Shifted(|w| + 1, FindTerm(z))
  {
    hide KeyAt, NextWord, FindTerm, Settled;
    NextAfter(w, z);
    NotAKey(w, "");
    NotAKey(w, " " + z);
    NoTermLeft();
    assert w[|w|..] == "";
    FindBehind(w, |w|, "");
    assert w + " " + z == w + (" " + z) && (w + " " + z)[|w| + 1..] == z;
    FindBehind(w + " " + z, |w| + 1, z);
  }

  /** No word of a run is taken for a key; the first key is the one behind the run. */
  lemma {:induction false} RunHasNoTerm(ws: seq<string>, k: string)
    requires ws != [] && AllSettled(ws) && KeyAt(k) && k[0] != ' '
    ensures var j := Join(ws, " "); j[0] != ' ' && FindTerm(j) == None && FindTerm(j + " " + k) == Some(|j| + 1)
    decreases |ws|
  {
    hide KeyAt, FindTerm, Settled;
    var w, j := ws[0], Join(ws, " ");
    assert Settled(w);
    JoinStarts(ws);
    KeyFound(k);
    if |ws| == 1 {
      FindAfter(w, k);
    } else {
      var rest := Join(ws[1..], " ");
      RunHasNoTerm(ws[1..], k);
      JoinStarts(ws[1..]);
      FindAfter(w, rest);
      assert j + " " + k == w + " " + (rest + " " + k);
      FindAfter(w, rest + " " + k);
    }
  }

  lemma NotAKey(w: string, tail: string)
    requires Settled(w) && Follows(tail)
    ensures !KeyAt(w + tail) && w + "" == w
  {
  }

  // ----- a run is read back

  /** Reading the words of a run one by one. */
  function Folded(ws: seq<string>, words: seq<string>): seq<Term>
    decreases |ws|
  {
    if ws == [] then Flushed(words)
    else if Plain(ws[0]) then Folded(ws[1..], words + [ws[0]])
    else Flushed(words) + [Bare(ws[0])] + Folded(ws[1..], [])
  }

  lemma {:induction false} BareFromStep(run: string, lead: string, w: string, rest: string, words: seq<string>)
    requires Settled(w) && Follows(rest) && run == lead + (w + rest) && (lead == "" || lead == " ")
    ensures BareFrom(run, words)
      == if Plain(w) then BareFrom(rest, words + [w]) else Flushed(words) + [Bare(w)] + BareFrom(rest, [])
  {
    hide Flushed, Plain, Bare, BareLen, KeyAt;
    var trimmed := w + rest;
    assert trimmed[0] == w[0];
    assert TrimLeft(trimmed, ' ') == trimmed;
    if lead == " " { assert run[1..] == trimmed; } else { assert run == trimmed; }
    assert TrimLeft(run, ' ') == trimmed;
    assert trimmed[..|w|] == w && trimmed[|w|..] == rest;
  }

  lemma {:induction false} BareFromFolds(ws: seq<string>, lead: string, words: seq<string>)
    requires AllSettled(ws) && (lead == "" || lead == " ")
    ensures BareFrom(lead + Join(ws, " "), words) == Folded(ws, words)
    decreases |ws|
  {
    hide Flushed, Plain, Bare, Settled, BareFrom;
    var run := lead + Join(ws, " ");
    if ws == [] {
      NothingBare(lead, words);
      assert run == lead;
    } else {
      assert Settled(ws[0]);
      var rest := if |ws| == 1 then "" else " " + Join(ws[1..], " ");
      assert Join(ws, " ") == ws[0] + rest;
      BareFromStep(run, lead, ws[0], rest, words);
      var lead' := if |ws| == 1 then "" else " ";
      assert rest == lead' + Join(ws[1..], " ");
      BareFromFolds(ws[1..], lead', words + [ws[0]]);
      BareFromFolds(ws[1..], lead', []);
    }
  }

  lemma {:induction false} NothingBare(lead: string, words: seq<string>)
    requires lead == "" || lead == " "
    ensures BareFrom(lead, words) == Flushed(words)
  {
    if lead == " " { assert lead[1..] == ""; }
    assert TrimLeft(lead, ' ') == "";
  }

  lemma {:induction false} StrippedPhrase(v: string)
    requires '"' !in v
    ensures Stripped("\"" + v + "\"") == v
  {
    assert ("\"" + v + "\"")[1..] == v + "\"";
    StrippedEnd(v);
  }

  lemma {:induction false} StrippedEnd(v: string)
    requires '"' !in v
    ensures Stripped(v + "\"") == v
  {
    if v == "" {
      assert v + "\"" == "\"" && "\""[1..] == "";
    } else {
      assert (v + "\"")[1..] == v[1..] + "\"";
      StrippedEnd(v[1..]);
      assert v == [v[0]] + v[1..];
    }
  }

  lemma SpecialReadBack(t: Term)
    requires CanonicalTerm(t) && t.key == "" && !IsPlain(t)
    ensures !Plain(Printed(t)) && Bare(Printed(t)) == t
  {
    hide Stripped;
    if t.quoted {
      StrippedPhrase(t.value);
      var p := "\"" + t.value + "\"";
      assert p[0] == '"';
      assert TrimDash(Printed(t)) == p;
    } else {
      assert ("-" + t.value)[1..] == t.value;
      assert t.value[0] in t.value;
    }
  }

  lemma PlainReadBack(w: string)
    requires PlainWord(w)
    ensures Plain(w)
  {
    hide Stripped;
    assert w[0] in w;
  }

  lemma {:induction false} FoldPlain(ws: seq<string>, more: seq<string>, words: seq<string>)
    requires forall w | w in ws :: PlainWord(w)
    ensures Folded(ws + more, words) == Folded(more, words + ws)
    decreases |ws|
  {
    hide Flushed, Plain, Bare, PlainWord;
    if ws == [] {
      assert ws + more == more && words + ws == words;
    } else {
      assert ws[0] in ws && forall w | w in ws[1..] :: w in ws;
      PlainReadBack(ws[0]);
      assert (ws + more)[0] == ws[0] && (ws + more)[1..] == ws[1..] + more;
      assert words + [ws[0]] + ws[1..] == words + ws;
      FoldPlain(ws[1..], more, words + [ws[0]]);
    }
  }

  lemma {:induction false} FoldSpecial(p: string, more: seq<string>, words: seq<string>)
    requires !Plain(p)
    ensures Folded([p] + more, words) == Flushed(words) + [Bare(p)] + Folded(more, [])
  {
    hide Plain, Bare, Flushed;
    assert ([p] + more)[1..] == more;
  }

  lemma {:induction false} RunReadBack(run: seq<Term>, words: seq<string>)
    requires Canonical(run) && forall i | 0 <= i < |run| :: run[i].key == ""
    requires words == [] || run == [] || !IsPlain(run[0])
    ensures Folded(RunWords(run), words) == Flushed(words) + run
    decreases |run|
  {
    hide CanonicalTerm, Plain, Bare, Words, Printed, IsPlain;
    if run == [] {
      assert Flushed(words) + run == Flushed(words);
    } else {
      hide Folded;
      var t, more := run[0], RunWords(run[1..]);
      assert CanonicalTerm(t) && run == [t] + run[1..];
      Shorter(run, 1);
      if IsPlain(t) {
        PlainTerm(t);
        FoldPlain(Words(t.value), more, words);
        assert words + Words(t.value) == Words(t.value);
        assert |run| > 1 ==> !IsPlain(run[0 + 1]);
        RunReadBack(run[1..], Words(t.value));
      } else {
        SpecialReadBack(t);
        FoldSpecial(Printed(t), more, words);
        RunReadBack(run[1..], []);
        assert Flushed(words) + [t] + ([] + run[1..]) == Flushed(words) + run;
      }
    }
  }

  lemma PlainTerm(t: Term)
    requires CanonicalTerm(t) && IsPlain(t)
    ensures (forall w | w in Words(t.value) :: PlainWord(w)) && Flushed(Words(t.value)) == [t]
  {
    hide Words;
    WordsJoin(t.value);
  }

  // ----- what a run is taken for

  lemma {:induction false} WordsTogether(s: string, c: char)
    requires c != ' ' && forall w | w in Words(s) :: c !in w
    ensures c !in s
  {
    if s != "" {
      var ws := Words(s[1..]);
      assert Words(s)[0] in Words(s) && forall w | w in Words(s)[1..] :: w in Words(s);
      if s[0] == ' ' {
        assert Words(s)[1..] == ws;
      } else {
        assert Words(s) == [[s[0]] + ws[0]] + ws[1..];
        assert c !in [s[0]] + ws[0];
        assert ([s[0]] + ws[0])[0] == s[0];
        forall w | w in ws
          ensures c !in w
        {
          if w == ws[0] { assert forall x | x in w :: x in [s[0]] + ws[0]; } else { assert w in ws[1..] && w in Words(s)[1..]; }
        }
      }
      WordsTogether(s[1..], c);
      assert s == [s[0]] + s[1..];
    }
  }

  /** A plain text starts like a word and holds no colon. */
  lemma PlainText(v: string)
    requires forall w | w in Words(v) :: PlainWord(w)
    ensures v != "" && v[0] != '-' && ':' !in v && '"' !in v
  {
    hide Words;
    WordsTogether(v, ':');
    WordsTogether(v, '"');
    WordsJoin(v);
    var ws := Words(v);
    assert ws[0] in ws && PlainWord(ws[0]);
    assert v[0] == ws[0][0];
  }

  lemma TermText(t: Term)
    requires CanonicalTerm(t) && t.key == ""
    ensures var p := Printed(t);
      && p != "" && p[|p| - 1] != ':' && (|p| >= 2 || p[0] != '-')
      && (':' in p <==> t.quoted && ':' in t.value)
      && (Phrased(p) <==> t.quoted)
  {
    hide Words;
    var p := Printed(t);
    if t.quoted {
      var lead := if t.not then "-" else "";
      assert p == lead + ("\"" + t.value + "\"");
      assert p[|p| - 1] == '"' && p[|lead|] == '"';
      assert forall i | 0 <= i < |t.value| :: p[|lead| + 1 + i] == t.value[i];
    } else if t.not {
      assert p == "-" + t.value && t.value[0] in t.value && t.value[|t.value| - 1] in t.value;
      assert p[0] == '-' && p[1] == t.value[0] != '"';
    } else {
      PlainText(t.value);
      assert p[|p| - 1] in p && p[0] in p;
    }
  }

  lemma {:induction false} TextFirst(q: seq<Term>)
    requires q != []
    ensures Text(q) == Printed(q[0]) + (if |q| == 1 then "" else " " + Text(q[1..]))
  {
    hide Printed;
    assert Printeds(q)[1..] == Printeds(q[1..]);
  }

  ghost predicate ColonQuoted(run: seq<Term>) {
    exists i | 0 <= i < |run| :: run[i].quoted && ':' in run[i].value
  }

  lemma {:induction false} RunText(run: seq<Term>)
    requires run != [] && forall i | 0 <= i < |run| :: CanonicalTerm(run[i]) && run[i].key == ""
    ensures var j := Text(run); j != "" && j[|j| - 1] != ':' && (':' in j <==> ColonQuoted(run))
  {
    hide CanonicalTerm, Printed, Text, Phrased;
    var t, p := run[0], Printed(run[0]);
    TermText(t);
    TextFirst(run);
    if |run| > 1 {
      RunText(run[1..]);
      var rest := Text(run[1..]);
      assert Text(run) == p + (" " + rest);
      assert ':' in Text(run) <==> ':' in p || ':' in rest;
      ColonFirst(run);
    }
  }

  lemma ColonFirst(run: seq<Term>)
    requires run != []
    ensures ColonQuoted(run) <==> (run[0].quoted && ':' in run[0].value) || ColonQuoted(run[1..])
  {
    if ColonQuoted(run) {
      var i :| 0 <= i < |run| && run[i].quoted && ':' in run[i].value;
      if i > 0 { assert run[1..][i - 1] == run[i]; }
    }
    if ColonQuoted(run[1..]) {
      var i :| 0 <= i < |run[1..]| && run[1..][i].quoted && ':' in run[1..][i].value;
      assert run[i + 1] == run[1..][i];
    }
  }

  lemma TakenForKey(j: string)
    requires !Phrased(j) && 0 < Until(j, ':') < |j| - 1 && (Until(j, ':') >= 2 || j[0] != '-')
    ensures |TermsOf(j)| == 1 && TermsOf(j)[0].key != ""
  {
    hide Phrased, Until, BareFrom;
  }

  /** A run that is not readable comes back as one term with a key nobody wrote. */
  lemma UnreadableRun(run: seq<Term>)
    requires run != [] && forall i | 0 <= i < |run| :: CanonicalTerm(run[i]) && run[i].key == ""
    requires !RunReadable(run)
    ensures |TermsOf(Text(run))| == 1 && TermsOf(Text(run))[0].key != ""
  {
    hide CanonicalTerm, Printed, Text, Phrased, Until, TermsOf;
    var j, p := Text(run), Printed(run[0]);
    TermText(run[0]);
    TextFirst(run);
    RunText(run);
    assert ColonQuoted(run);
    var x := j[|p|..];
    assert j == p + x;
    PhrasedStable(p, x);
    ColonBehind(p, x);
    TakenForKey(j);
  }

  lemma ColonBehind(p: string, x: string)
    requires p != "" && ':' !in p && ':' in p + x && (p + x)[|p + x| - 1] != ':'
    ensures |p| <= Until(p + x, ':') < |p + x| - 1 && (p + x)[0] == p[0]
  {
    hide Until;
    var j := p + x;
    assert forall i | 0 <= i < |p| :: j[i] == p[i] && p[i] in p;
    assert j[..|j|] == j;
  }

  lemma ReadableRun(run: seq<Term>)
    requires run != [] && Canonical(run) && forall i | 0 <= i < |run| :: run[i].key == ""
    requires RunReadable(run)
    ensures TermsOf(Text(run)) == run
  {
    hide CanonicalTerm, Printed, Text, Phrased, Until, BareFrom, RunWords, Settled, Folded;
    var t, j, p := run[0], Text(run), Printed(run[0]);
    assert CanonicalTerm(t);
    TermText(t);
    TextFirst(run);
    RunText(run);
    var x := j[|p|..];
    assert j == p + x;
    PhrasedStable(p, x);
    if !t.quoted { NoColon(j); }
    RunSettled(run);
    BareFromFolds(RunWords(run), "", []);
    assert "" + j == j;
    RunReadBack(run, []);
    assert Flushed([]) + run == run;
  }

  lemma NoColon(j: string)
    requires ':' !in j
    ensures Until(j, ':') == |j|
  {
    hide Until;
  }

  // ----- tokens at the front

  lemma TrimOneSpace(j: string)
    requires j != "" && j[|j| - 1] != ' '
    ensures TrimRight(j + " ", ' ') == j && TrimRight(j, ' ') == j
  {
    assert (j + " ")[..|j|] == j;
  }

  /** A run is one token, up to the key behind it or the end. */
  lemma RunToken(run: seq<Term>, k: string)
    requires run != [] && forall i | 0 <= i < |run| :: CanonicalTerm(run[i]) && run[i].key == ""
    requires KeyAt(k) && k[0] != ' '
    ensures var j := Text(run);
      && NextToken(j, true) == Found(|j|, Some(j))
      && NextToken(j + " " + k, true) == Found(|j| + 1, Some(j))
  {
    hide CanonicalTerm, Text, KeyAt, RunWords, Settled, FindTerm, TrimRight, SplitKeyed;
    var j := Text(run);
    RunSettled(run);
    JoinStarts(RunWords(run));
    RunHasNoTerm(RunWords(run), k);
    TrimOneSpace(j);
    FrontToken(j);
    FrontToken(j + " " + k);
    assert (j + " " + k)[..|j| + 1] == j + " ";
  }

  lemma FrontToken(s: string)
    requires s != "" && s[0] != ' '
    ensures NextToken(s, true) == SplitRest(s, true)
  {
    hide SplitRest;
    assert s[0..] == s;
  }

  /** The key as written, with the dash of a negated term. */
  function KeyText(t: Term): string {
    if t.not then "-" + t.key else t.key
  }

  function ValueText(t: Term): string {
    if ' ' in t.value then "\"" + t.value + "\"" else t.value
  }

  lemma KeyTextIs(t: Term)
    requires CanonicalTerm(t) && t.key != ""
    ensures var p := KeyText(t);
      && p != "" && p[0] != ' ' && ' ' !in p && ':' !in p
      && TrimDash(p) == t.key && ("-" <= p <==> t.not)
      && (|p| >= 2 || p[0] != '-') && !Phrased(p)
      && Printed(t) == p + (":" + ValueText(t))
  {
    assert t.key[0] in t.key;
    if t.not {
      var p := "-" + t.key;
      assert p[1..] == t.key && p[1] == t.key[0];
    }
  }

  lemma KeyedAt(t: Term, tail: string)
    requires CanonicalTerm(t) && t.key != ""
    ensures var s := Printed(t) + tail; s != "" && s[0] != ' ' && KeyAt(s) && Until(s, ':') == |KeyText(t)|
  {
    hide CanonicalTerm, Printed, Until, Phrased, KeyText, ValueText;
    var p, y := KeyText(t), ValueText(t) + tail;
    KeyTextIs(t);
    var s := p + (":" + y);
    assert Printed(t) + tail == s;
    PhrasedStable(p, ":" + y);
    UntilAt(p, ":" + y, ':');
    ColonInWord(p, y);
  }

  lemma ColonInWord(p: string, y: string)
    requires ' ' !in p
    ensures var s := p + (":" + y); ':' in s[..Until(s, ' ')]
  {
    hide Until;
    var s := p + (":" + y);
    NoSpaceIn(p);
    UntilGrows(p + ":", y, ' ');
    assert s == p + ":" + y && s[|p|] == ':';
  }

  lemma NoSpaceIn(p: string)
    requires ' ' !in p
    ensures Until(p + ":", ' ') == |p| + 1
  {
    UntilAt(p + ":", "", ' ');
    assert p + ":" + "" == p + ":";
  }

  /** How a key's value is cut, once it is known where it ends. */
  lemma ValueCut(s: string, value: string, v: string, quoted: bool)
    requires KeyAt(s) && Until(s, ':') < |s| && s[Until(s, ':') + 1..] == value && value != ""
    requires quoted <==> "\"" <= value
    requires if quoted then Until(value[1..], '"') == |v| < |value| - 1 && value[1..|v| + 1] == v
             else Until(value, ' ') == |v| && value[..|v|] == v
    ensures var colon := Until(s, ':');
      SplitKeyed(s, true) == Found(colon + 1 + |v| + (if quoted then 2 else 0), Some(s[..colon + 1] + v))
  {
    hide Until, KeyAt;
    var colon := Until(s, ':');
    if !quoted { assert s[..colon + 1 + |v|] == s[..colon + 1] + value[..|v|]; }
  }

  /** A key with its value is one token, the value's quotes taken off. */
  lemma KeyedToken(t: Term, tail: string)
    requires CanonicalTerm(t) && t.key != "" && Follows(tail)
    ensures NextToken(Printed(t) + tail, true) == Found(|Printed(t)|, Some(KeyText(t) + ":" + t.value))
  {
    hide CanonicalTerm, Printed, Until, KeyAt, KeyText, FindTerm, SplitKeyed, NextToken, Follows, ValueText;
    var p, s := KeyText(t), Printed(t) + tail;
    KeyTextIs(t);
    KeyedAt(t, tail);
    KeyedFront(s);
    var value := ValueText(t) + tail;
    assert s == p + ":" + value;
    assert s[..|p| + 1] == p + ":" && s[|p| + 1..] == value;
    ValueRead(t, tail);
    ValueCut(s, value, t.value, ' ' in t.value);
    ValueLength(t);
  }

  lemma KeyedFront(s: string)
    requires s != "" && s[0] != ' ' && KeyAt(s)
    ensures NextToken(s, true) == SplitKeyed(s, true)
  {
    hide FindTerm, SplitKeyed, NextToken, KeyAt;
    FrontToken(s);
    KeyFound(s);
  }

  lemma ValueLength(t: Term)
    ensures |ValueText(t)| == |t.value| + if ' ' in t.value then 2 else 0
  {
  }

  lemma ValueRead(t: Term, tail: string)
    requires CanonicalTerm(t) && t.key != "" && Follows(tail)
    ensures var value := ValueText(t) + tail;
      && value != "" && ("\"" <= value <==> ' ' in t.value)
      && (' ' in t.value ==> Until(value[1..], '"') == |t.value| < |value| - 1 && value[1..|t.value| + 1] == t.value)
      && (' ' !in t.value ==> Until(value, ' ') == |t.value| && value[..|t.value|] == t.value)
  {
    hide Until;
    var v, value := t.value, ValueText(t) + tail;
    if ' ' in v {
      assert value[1..] == v + ("\"" + tail);
      UntilAt(v, "\"" + tail, '"');
    } else {
      UntilAt(v, tail, ' ');
      assert value[0] == v[0] && v[0] in v;
    }
  }

  lemma KeyedTerms(t: Term)
    requires CanonicalTerm(t) && t.key != ""
    ensures TermsOf(KeyText(t) + ":" + t.value) == [t]
  {
    hide Until, Phrased, KeyText, BareFrom, ToLower, Printed;
    var p := KeyText(t);
    KeyTextIs(t);
    var x := ":" + t.value;
    assert p + ":" + t.value == p + x;
    UntilAt(p, x, ':');
    PhrasedStable(p, x);
    assert (p + x)[..|p|] == p && (p + x)[|p| + 1..] == t.value;
  }

  // ----- the round trip

  lemma {:induction false} TokensFirst(s: string, advance: nat, token: string)
    requires NextToken(s, true) == Found(advance, Some(token))
    ensures Parsed(s) == TermsOf(token) + Parsed(s[advance..])
  {
    hide TermsOf, NextToken;
    var tokens := Tokens(s);
    assert tokens == [token] + Tokens(s[advance..]);
    assert tokens[1..] == Tokens(s[advance..]);
  }

  lemma {:induction false} ParsedSkip(s: string)
    requires s == "" || s[0] != ' '
    ensures Parsed(" " + s) == Parsed(s)
  {
    hide Tokens, AllTerms;
    assert (" " + s)[1..] == s;
    assert Spaces(" " + s) >= 1;
    TokensSkip(" " + s, 1);
  }

  lemma TextStarts(q: seq<Term>)
    requires q != [] && q[0].key != "" && CanonicalTerm(q[0])
    ensures Text(q) != "" && Text(q)[0] != ' ' && KeyAt(Text(q))
  {
    hide CanonicalTerm, Printed, KeyAt, Text, Until;
    TextFirst(q);
    KeyedAt(q[0], if |q| == 1 then "" else " " + Text(q[1..]));
  }

  lemma {:induction false} AnyTextStarts(q: seq<Term>)
    requires Canonical(q)
    ensures q == [] || (Text(q) != "" && Text(q)[0] != ' ')
  {
    hide Text, CanonicalTerm, KeyAt, Settled, Join;
    if q != [] {
      assert CanonicalTerm(q[0]);
      if q[0].key != "" {
        TextStarts(q);
      } else {
        TermSettled(q[0]);
        JoinStarts(BareWords(q[0]));
        TextFirst(q);
      }
    }
  }

  lemma {:induction false} KeyedFirst(q: seq<Term>)
    requires Canonical(q) && q != [] && q[0].key != ""
    ensures Parsed(Text(q)) == [q[0]] + Parsed(Text(q[1..]))
  {
    hide Text, CanonicalTerm, Printed, Parsed, TermsOf, NextToken, KeyText;
    assert CanonicalTerm(q[0]);
    var tail := if |q| == 1 then "" else " " + Text(q[1..]);
    TextFirst(q);
    KeyedToken(q[0], tail);
    KeyedTerms(q[0]);
    TokensFirst(Text(q), |Printed(q[0])|, KeyText(q[0]) + ":" + q[0].value);
    assert Text(q)[|Printed(q[0])|..] == tail;
    if |q| > 1 {
      Shorter(q, 1);
      AnyTextStarts(q[1..]);
      ParsedSkip(Text(q[1..]));
    } else {
      assert q[1..] == [] && Text(q[1..]) == "" by { NoText(); }
    }
  }

  lemma NoText()
    ensures Text([]) == "" && Parsed("") == []
  {
    assert NextToken("", true) == Found(0, None);
  }

  lemma Shorter(q: seq<Term>, n: nat)
    requires Canonical(q) && n <= |q|
    ensures Canonical(q[n..]) && Canonical(q[..n])
  {
    hide CanonicalTerm;
    var r := q[n..];
    forall i | 0 <= i < |r| - 1
      ensures !(IsPlain(r[i]) && IsPlain(r[i + 1]))
    {
      assert r[i] == q[n + i] && r[i + 1] == q[n + i + 1];
    }
  }

  lemma {:induction false} TextConcat(a: seq<Term>, b: seq<Term>)
    requires a != [] && b != []
    ensures Text(a + b) == Text(a) + " " + Text(b)
  {
    hide Printed;
    PrintedsConcat(a, b);
    JoinConcat(Printeds(a), Printeds(b));
  }

  lemma {:induction false} PrintedsConcat(a: seq<Term>, b: seq<Term>)
    ensures Printeds(a + b) == Printeds(a) + Printeds(b)
  {
    hide Printed;
    if a == [] {
      assert a + b == b;
    } else {
      assert (a + b)[0] == a[0] && (a + b)[1..] == a[1..] + b;
      PrintedsConcat(a[1..], b);
    }
  }

  lemma {:induction false} RunFirst(q: seq<Term>)
    requires Canonical(q) && q != [] && q[0].key == ""
    ensures RunLen(q) > 0
    ensures Parsed(Text(q)) == TermsOf(Text(q[..RunLen(q)])) + Parsed(Text(q[RunLen(q)..]))
  {
    hide Text, CanonicalTerm, Parsed, TermsOf, NextToken, KeyAt;
    var n := RunLen(q);
    var run, rest := q[..n], q[n..];
    var j := Text(run);
    assert forall i | 0 <= i < |run| :: CanonicalTerm(run[i]) && run[i].key == "";
    if n == |q| {
      assert run == q && rest == [];
      var k := AnyKey();
      RunToken(run, k);
      TokensFirst(j, |j|, j);
      assert j[|j|..] == "";
      NoText();
    } else {
      assert rest[0] == q[n] && CanonicalTerm(rest[0]);
      TextStarts(rest);
      RunToken(run, Text(rest));
      assert q == run + rest;
      TextConcat(run, rest);
      TokensFirst(Text(q), |j| + 1, j);
      assert Text(q)[|j| + 1..] == Text(rest);
    }
  }

  lemma AnyKey() returns (k: string)
    ensures KeyAt(k) && k[0] != ' '
  {
    k := ":";
    assert Until(k, ' ') == 1 && k[..1] == k;
  }

  /** Query round trip: a canonical query that is written and read again comes back as it was
      if and only if no phrase with a colon stands in a run that starts with something else. */
  lemma {:induction false} QueryRoundTrip(q: seq<Term>)
    requires Canonical(q)
    ensures Parsed(Text(q)) == q <==> Readable(q)
    decreases |q|
  {
    hide Text, CanonicalTerm, Parsed, TermsOf, RunReadable;
    if q == [] {
      NoText();
    } else if q[0].key != "" {
      KeyedFirst(q);
      Shorter(q, 1);
      QueryRoundTrip(q[1..]);
      SameBehind([q[0]], Parsed(Text(q[1..])), q[1..]);
      assert q == [q[0]] + q[1..];
    } else {
      RunFirst(q);
      var n := RunLen(q);
      var run, rest := q[..n], q[n..];
      Shorter(q, n);
      QueryRoundTrip(rest);
      assert q == run + rest;
      SameBehind(run, Parsed(Text(rest)), rest);
      assert Canonical(run) && forall i | 0 <= i < |run| :: CanonicalTerm(run[i]) && run[i].key == "";
      if RunReadable(run) {
        ReadableRun(run);
      } else {
        UnreadableRun(run);
        assert Parsed(Text(q))[0] == TermsOf(Text(run))[0];
      }
    }
  }

  lemma SameBehind<T>(a: seq<T>, b: seq<T>, c: seq<T>)
    ensures a + b == a + c <==> b == c
  {
    if a + b == a + c {
      assert b == (a + b)[|a|..];
      assert c == (a + c)[|a|..];
    }
  }

  /** A word and a phrase with a colon: canonical, and read back as a key nobody wrote. */
  lemma ColonInPhrase()
    ensures var q := [Term("", "foo", false, false), Term("", "a:b", false, true)];
      Canonical(q) && !Readable(q) && Parsed(Text(q)) != q
  {
    hide Text, Parsed;
    var q := [Term("", "foo", false, false), Term("", "a:b", false, true)];
    OneWord("foo");
    assert Canonical(q);
    assert RunLen(q[1..]) == 1 && RunLen(q) == 2 && q[..2] == q;
    assert !RunReadable(q) by { assert q[1].quoted && ':' in q[1].value; }
    QueryRoundTrip(q);
  }

  lemma {:induction false} OneWord(w: string)
    requires ' ' !in w
    ensures Words(w) == [w]
  {
    if w != "" {
      OneWord(w[1..]);
      assert w == [w[0]] + w[1..];
    }
  }

  // ----- whatever is typed

  lemma {:induction false} LooseLower(s: string)
    ensures Loose(ToLower(s)) == Loose(s)
  {
    if s != "" {
      LooseLower(s[1..]);
      assert ToLower(s)[1..] == ToLower(s[1..]);
    }
  }

  lemma {:induction false} LooseStripped(s: string)
    ensures Loose(Stripped(s)) == Loose(s)
  {
    if s != "" {
      LooseStripped(s[1..]);
      LooseBoth(if s[0] == '"' then "" else [s[0]], Stripped(s[1..]));
      LooseBoth([s[0]], s[1..]);
      assert s == [s[0]] + s[1..];
      assert [s[0]][1..] == "" && Loose("") == "";
    }
  }

  lemma {:induction false} LooseJoin(a: seq<string>, b: seq<string>)
    ensures Loose(Join(a + b, " ")) == Loose(Join(a, " ")) + Loose(Join(b, " "))
  {
    hide Loose;
    LooseSpaces("");
    if a == [] || b == [] {
      assert a + b == if a == [] then b else a;
    } else {
      JoinConcat(a, b);
      LooseSpaces(" ");
      LooseBoth(Join(a, " ") + " ", Join(b, " "));
      LooseBoth(Join(a, " "), " ");
    }
  }

  /** A query's text, so read. */
  function Said(q: seq<Term>): string {
    Loose(Text(q))
  }

  lemma SaidBoth(a: seq<Term>, b: seq<Term>)
    ensures Said(a + b) == Said(a) + Said(b)
  {
    hide Loose, Join, Printeds;
    PrintedsConcat(a, b);
    LooseJoin(Printeds(a), Printeds(b));
  }

  lemma SaidOne(t: Term)
    ensures Said([t]) == Loose(Printed(t))
  {
    hide Loose, Printed;
    assert Printeds([t]) == [Printed(t)];
  }

  lemma SaidPlain(w: string)
    ensures Said([Term("", w, false, false)]) == Loose(w)
  {
    hide Loose;
    SaidOne(Term("", w, false, false));
  }

  /** A term's text, so read: its dash, its key with the colon, and its value. */
  lemma SaidPrinted(t: Term)
    ensures Said([t]) == (if t.not then "-" else "") + ((if t.key != "" then Loose(t.key) + ":" else "") + Loose(t.value))
  {
    hide Loose;
    var value := if t.quoted || (t.key != "" && ' ' in t.value) then "\"" + t.value + "\"" else t.value;
    var keyed := if t.key != "" then t.key + ":" + value else value;
    SaidOne(t);
    SaidValue(t.value);
    assert Loose("-") == "-" && Loose(":") == ":" by { LooseMarks(); }
    LooseBoth(t.key + ":", value);
    LooseBoth(t.key, ":");
    LooseBoth("-", keyed);
  }

  lemma SaidValue(v: string)
    ensures Loose("\"" + v + "\"") == Loose(v)
  {
    hide Loose;
    LooseQuotes("", v);
    assert "" + "\"" + v + "\"" == "\"" + v + "\"" && "" + v == v;
  }

  lemma LooseMarks()
    ensures Loose("-") == "-" && Loose(":") == ":"
  {
    assert "-"[1..] == "" && ":"[1..] == "" && Loose("") == "";
  }

  lemma LooseDash(s: string)
    ensures Loose(s) == (if "-" <= s then "-" else "") + Loose(TrimDash(s))
  {
    hide Loose;
    if "-" <= s {
      assert s == "-" + s[1..];
      LooseBoth("-", s[1..]);
      LooseMarks();
    }
  }

  lemma SaidBare(w: string)
    ensures Said([Bare(w)]) == Loose(w)
  {
    hide Loose, Stripped, Said;
    SaidPrinted(Bare(w));
    LooseStripped(TrimDash(w));
    LooseDash(w);
  }

  lemma SaidFlushed(words: seq<string>)
    ensures Said(Flushed(words)) == Loose(Join(words, " "))
  {
    hide Loose, Join;
    if words == [] {
      assert Printeds([]) == [] && Join([], " ") == "" by { NoWords(); }
    } else {
      SaidPlain(Join(words, " "));
    }
  }

  lemma NoWords()
    ensures Printeds([]) == [] && Join([], " ") == ""
  {
  }

  lemma {:induction false} SaidRun(run: string, words: seq<string>)
    ensures Said(BareFrom(run, words)) == Loose(Join(words, " ")) + Loose(run)
    decreases |run|
  {
    hide Said, Loose, BareLen, Plain, Bare, TrimLeft, Flushed, Join, BareFrom;
    var left := TrimLeft(run, ' ');
    LooseTrimLeft(run);
    BareFromTrimmed(run, words);
    LooseSpaces("");
    if left == "" {
      SaidFlushed(words);
      NothingBare("", words);
    } else {
      var word, rest := left[..BareLen(left)], left[BareLen(left)..];
      assert left == word + rest;
      LooseBoth(word, rest);
      TrimTwice(run);
      FirstBare(left, words);
      if Plain(word) {
        SaidRun(rest, words + [word]);
        LooseJoin(words, [word]);
        OneJoined(word);
      } else {
        SaidRun(rest, []);
        NoWords();
        SaidSpecial(words, word, BareFrom(rest, []));
      }
    }
  }

  lemma SaidSpecial(words: seq<string>, word: string, more: seq<Term>)
    ensures Said(Flushed(words) + [Bare(word)] + more) == Loose(Join(words, " ")) + Loose(word) + Said(more)
  {
    hide Said, Loose, Bare, Flushed, Join;
    SaidFlushed(words);
    SaidBare(word);
    SaidBoth(Flushed(words), [Bare(word)]);
    SaidBoth(Flushed(words) + [Bare(word)], more);
  }

  lemma OneJoined(w: string)
    ensures Join([w], " ") == w
  {
  }

  lemma LooseTrimLeft(s: string)
    ensures Loose(TrimLeft(s, ' ')) == Loose(s)
  {
    hide Loose, TrimLeft;
    var t := TrimLeft(s, ' ');
    assert s == s[..|s| - |t|] + t;
    LooseBoth(s[..|s| - |t|], t);
    LooseSpaces(s[..|s| - |t|]);
  }

  lemma SaidKeyed(key: string, value: string)
    requires ToLower(TrimDash(key)) != ""
    ensures Said([Term(ToLower(TrimDash(key)), value, "-" <= key, false)]) == Loose(key + ":" + value)
  {
    hide Loose, ToLower, Said, TrimDash;
    SaidPrinted(Term(ToLower(TrimDash(key)), value, "-" <= key, false));
    LooseLower(TrimDash(key));
    LooseDash(key);
    LooseMarks();
    LooseBoth(key + ":", value);
    LooseBoth(key, ":");
  }

  lemma SaidToken(token: string)
    ensures Said(TermsOf(token)) == Loose(token)
  {
    hide Said, Loose, BareFrom, Phrased, ToLower, Until, Join;
    var colon := Until(token, ':');
    if Phrased(token) || colon == |token| {
      SaidRun(token, []);
      assert Join([], " ") == "" by { NoWords(); }
      LooseSpaces("");
    } else {
      var key, value := token[..colon], token[colon + 1..];
      assert token == key + ":" + value;
      if ToLower(TrimDash(key)) == "" || value == "" { SaidPlain(token); } else { SaidKeyed(key, value); }
    }
  }

  lemma {:induction false} SaidTokens(tokens: seq<string>)
    ensures Said(AllTerms(tokens)) == Loose(Flattened(tokens))
  {
    hide Said, Loose, TermsOf;
    if tokens == [] {
      SaidFlushed([]);
      assert Flushed([]) == [] && Join([], " ") == "";
    } else {
      SaidTokens(tokens[1..]);
      SaidToken(tokens[0]);
      SaidBoth(TermsOf(tokens[0]), AllTerms(tokens[1..]));
      LooseBoth(tokens[0], Flattened(tokens[1..]));
    }
  }

  /** Whatever is typed, the query read from it, written again, says the same: nothing is lost
      or moved but spaces, quotes and the case of letters. */
  lemma NothingIsLost(raw: string)
    ensures Loose(Text(Parsed(raw))) == Loose(raw)
  {
    hide Loose, Tokens, AllTerms, Text;
    SaidTokens(Tokens(raw));
    TokensKeep(raw);
  }

  /** One key with its value, as typed: the key is read in lower case, and where there is no
      value, or nothing before the colon, the whole is a word. */
  lemma TypedKey(key: string, value: string)
    requires ' ' !in key && '"' !in key && ':' !in key && ' ' !in value && '"' !in value
    ensures var name, q := if "-" <= key then key[1..] else key, Parsed(key + ":" + value);
      && |q| == 1
      && if name == "" || value == "" then q[0] == Term("", key + ":" + value, false, false)
         else
           && q[0] == Term(q[0].key, value, "-" <= key, false) && |q[0].key| == |name|
           && forall i | 0 <= i < |name| :: q[0].key[i] == if 'A' <= name[i] <= 'Z' then name[i] - 'A' + 'a' else name[i]
  {
    hide Until, BareFrom, Tokens, AllTerms, SplitRest, BareLen;
    var s := key + ":" + value;
    TypedToken(key, value);
    TokensFirst(s, |s|, s);
    assert s[|s|..] == "" && Parsed("") == [] by { NothingTyped(); }
    UntilAt(key, ":" + value, ':');
    assert s == key + (":" + value);
    assert s[..|key|] == key && s[|key| + 1..] == value;
    NotPhrased(s);
  }

  lemma NothingTyped()
    ensures Parsed("") == []
  {
  }

  lemma NotPhrased(s: string)
    requires '"' !in s
    ensures !Phrased(s)
  {
    assert (s != "" ==> s[0] in s) && (|s| > 1 ==> s[1] in s);
  }

  lemma TypedToken(key: string, value: string)
    requires ' ' !in key && '"' !in key && ':' !in key && ' ' !in value && '"' !in value
    ensures var s := key + ":" + value; NextToken(s, true) == Found(|s|, Some(s))
  {
    hide Until, FindTerm;
    var s := key + (":" + value);
    assert key + ":" + value == s;
    assert s[0] in s && ' ' !in s && '"' !in s;
    NotPhrased(s);
    UntilAt(s, "", ' ');
    assert s + "" == s;
    UntilAt(key, ":" + value, ':');
    assert s[..|s|] == s && ':' in s by { assert s[|key|] == ':'; }
    KeyFound(s);
    FrontToken(s);
    assert s[|key| + 1..] == value;
    UntilAt(value, "", ' ');
    assert value + "" == value;
  }

  // ----- the loops

  /** `bareTerms`: the terms of a run, plain words gathered until something else ends them. */
  method BareTerms(run: string) returns (terms: seq<Term>)
    ensures terms == BareFrom(run, [])
  {
    hide BareLen, Plain, Bare, TrimLeft, Flushed, BareFrom;
    terms := [];
    var words: seq<string>, left := [], TrimLeft(run, ' ');
    ghost var goal := BareFrom(run, []);
    assert [] + goal == goal;
    TrimTwice(run);
    BareFromTrimmed(run, []);
    while left != ""
      invariant left == TrimLeft(left, ' ')
      invariant terms + BareFrom(left, words) == goal
      decreases |left|
    {
      var word, rest := left[..BareLen(left)], left[BareLen(left)..];
      TrimTwice(rest);
      BareFromWord(terms, left, words);
      if Plain(word) {
        words := words + [word];
      } else {
        terms := terms + Flushed(words) + [Bare(word)];
        words := [];
      }
      left := TrimLeft(rest, ' ');
    }
    NothingBare("", words);
    terms := terms + Flushed(words);
  }

  lemma {:induction false} BareFromWord(terms: seq<Term>, left: string, words: seq<string>)
    requires left != "" && left == TrimLeft(left, ' ')
    ensures var word, rest := left[..BareLen(left)], TrimLeft(left[BareLen(left)..], ' ');
      terms + BareFrom(left, words) == if Plain(word) then terms + BareFrom(rest, words + [word])
                                       else terms + Flushed(words) + [Bare(word)] + BareFrom(rest, [])
  {
    hide BareLen, Plain, Bare, TrimLeft, Flushed, BareFrom;
    var word, rest := left[..BareLen(left)], left[BareLen(left)..];
    FirstBare(left, words);
    BareFromTrimmed(rest, words + [word]);
    BareFromTrimmed(rest, []);
    var more := BareFrom(rest, []);
    assert terms + (Flushed(words) + [Bare(word)] + more) == terms + Flushed(words) + [Bare(word)] + more;
  }

  lemma {:induction false} FirstBare(left: string, words: seq<string>)
    requires left != "" && left == TrimLeft(left, ' ')
    ensures var word, rest := left[..BareLen(left)], left[BareLen(left)..];
      BareFrom(left, words) == if Plain(word) then BareFrom(rest, words + [word])
                               else Flushed(words) + [Bare(word)] + BareFrom(rest, [])
  {
    hide BareLen, Plain, Bare, TrimLeft, Flushed, BareFrom;
    BareFromIs(left, words);
  }

  lemma {:induction false} TrimTwice(s: string)
    ensures TrimLeft(TrimLeft(s, ' '), ' ') == TrimLeft(s, ' ')
  {
    hide TrimLeft;
    var t := TrimLeft(s, ' ');
    assert t == "" || |TrimLeft(t, ' ')| == |t|;
  }

  lemma {:induction false} BareFromTrimmed(run: string, words: seq<string>)
    ensures BareFrom(TrimLeft(run, ' '), words) == BareFrom(run, words)
  {
    hide TrimLeft, Plain, Bare, Flushed, BareLen, BareFrom;
    TrimTwice(run);
    var left := TrimLeft(run, ' ');
    BareFromIs(run, words);
    BareFromIs(left, words);
  }

  /** One step of the fold. */
  lemma {:induction false} BareFromIs(run: string, words: seq<string>)
    ensures var left := TrimLeft(run, ' ');
      BareFrom(run, words) == if left == "" then Flushed(words)
        else if Plain(left[..BareLen(left)]) then BareFrom(left[BareLen(left)..], words + [left[..BareLen(left)]])
        else Flushed(words) + [Bare(left[..BareLen(left)])] + BareFrom(left[BareLen(left)..], [])
  {
    hide TrimLeft, Plain, Bare, Flushed, BareLen;
  }

  /** What one token says; a key with no value is a word. */
  method ReadToken(token: string) returns (terms: seq<Term>)
    ensures terms == TermsOf(token)
  {
    hide BareFrom, Phrased, ToLower, Until;
    var colon := Until(token, ':');
    var keyed := colon < |token|;
    if Phrased(token) || !keyed {
      terms := BareTerms(token);
    } else {
      var key, value := token[..colon], token[colon + 1..];
      var not := "-" <= key;
      key := ToLower(TrimDash(key));
      if key == "" || value == "" {
        terms := [Term("", token, false, false)];
      } else {
        terms := [Term(key, value, not, false)];
      }
    }
  }

  /** `Parse`: token by token. */
  method Parse(raw: string) returns (q: seq<Term>)
    ensures q == Parsed(raw)
  {
    hide TermsOf, NextToken;
    q := [];
    var rest := raw;
    assert [] + Parsed(raw) == Parsed(raw);
    var r := SplitSearchTokens(rest, true);
    while r.token.Some?
      invariant r == NextToken(rest, true)
      invariant q + Parsed(rest) == Parsed(raw)
      decreases |rest|
    {
      TokensFirst(rest, r.advance, r.token.value);
      var terms := ReadToken(r.token.value);
      rest := rest[r.advance..];
      assert q + (terms + Parsed(rest)) == q + terms + Parsed(rest);
      q := q + terms;
      r := SplitSearchTokens(rest, true);
    }
    assert Parsed(rest) == [];
  }

  /** `Query.String`. */
  method QueryString(q: seq<Term>) returns (text: string)
    ensures text == Text(q)
  {
    hide Printed, Join;
    var out: seq<string> := [];
    for i := 0 to |q|
      invariant out == Printeds(q[..i])
    {
      assert q[..i + 1] == q[..i] + [q[i]];
      PrintedsConcat(q[..i], [q[i]]);
      assert Printeds([q[i]]) == [Printed(q[i])];
      out := out + [Printed(q[i])];
    }
    assert q[..|q|] == q;
    text := Join(out, " ");
  }
}
