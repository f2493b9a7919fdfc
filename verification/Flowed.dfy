/** format=flowed (RFC 3676): the greedy filler, its inverse and the width of what it writes.
    A character stands for one octet. */
module Flowed {
  import opened Lines

  const WRAP_COLUMN: nat := 72

  // ----- wrapping

  /** A leading space would read as stuffing, and "From " is mangled in transit. */
  predicate NeedsStuffing(line: string) {
    " " <= line || "From " <= line
  }

  function Stuffed(line: string): string {
    if NeedsStuffing(line) then " " + line else line
  }

  /** The words filled greedily into lines of the column less `lead` octets. */
  function Fill(lead: nat, cur: string, words: seq<string>): (pieces: seq<string>)
    ensures pieces != []
    decreases |words|
  {
    if words == [] then [cur]
    else if cur == "" then Fill(lead, words[0], words[1..])
    else if lead + |cur| + 1 + |words[0]| <= WRAP_COLUMN then Fill(lead, cur + " " + words[0], words[1..])
    else [cur] + Fill(lead, words[0], words[1..])
  }

  /** The pieces as written: a trailing space marks each but the last as soft. */
  function Emitted(lead: string, pieces: seq<string>, cr: string): (ls: seq<string>)
    requires pieces != []
    ensures |ls| == |pieces|
  {
    if |pieces| == 1 then [Stuffed(lead + pieces[0]) + cr]
    else [Stuffed(lead + pieces[0]) + " " + cr] + Emitted(lead, pieces[1..], cr)
  }

  function Markers(line: string): (m: string)
    ensures m <= line
  {
    line[..|line| - |TrimLeft(line, '>')|]
  }

  function TrimPrefix(s: string, c: char): string {
    if s != "" && s[0] == c then s[1..] else s
  }

  /** A typed trailing space would read as soft; quoted lines keep theirs, and so does "-- ". */
  function Trimmed(line: string): string {
    if line != "-- " && Markers(line) == "" then TrimRight(line, ' ') else line
  }

  predicate LeftAlone(line: string) {
    |line| <= WRAP_COLUMN || " " <= line || "\t" <= line
  }

  function Lead(line: string): string {
    if Markers(line) == "" then "" else Markers(line) + " "
  }

  /** What stands behind the markers of a quoted line. */
  function Content(line: string): string {
    if Markers(line) == "" then line else TrimPrefix(line[|Markers(line)|..], ' ')
  }

  function WrapLine(raw: string): (ls: seq<string>)
    ensures ls != []
  {
    var (line, cr) := CutSuffix(raw, "\r");
    var end := if cr then "\r" else "";
    var t := Trimmed(line);
    if LeftAlone(t) then [Stuffed(t) + end]
    else Emitted(Lead(t), Fill(|Lead(t)|, "", Words(Content(t))), end)
  }

  function WrapLines(raws: seq<string>): seq<string> {
    if raws == [] then [] else WrapLine(raws[0]) + WrapLines(raws[1..])
  }

  function Wrap(text: string): string {
    Join(WrapLines(Split(text)), "\n")
  }

  // ----- unflowing

  datatype Reading = Reading(out: seq<string>, soft: bool, depth: int)

  function Repeated(c: char, n: nat): string {
    seq(n, _ => c)
  }

  /** The quote depth of a line and what it says behind markers and stuffing. */
  function Parsed(raw: string): (nat, string) {
    var line := CutSuffix(raw, "\r").0;
    var bare := TrimLeft(line, '>');
    (|line| - |bare|, TrimPrefix(bare, ' '))
  }

  /** The last line with `more` behind it. */
  function Extended(out: seq<string>, more: string): (r: seq<string>)
    requires out != []
    ensures |r| == |out|
  {
    out[|out| - 1 := out[|out| - 1] + more]
  }

  function ReadLine(r: Reading, raw: string, delSp: bool): (q: Reading)
    requires r.soft ==> r.out != []
    ensures q.soft ==> q.out != []
  {
    var (n, content) := Parsed(raw);
    var joins := r.soft && n == r.depth && content != "-- ";
    var soft := content != "-- " && CutSuffix(content, " ").1;
    var kept := if soft && delSp then CutSuffix(content, " ").0 else content;
    if joins then Reading(Extended(r.out, kept), soft, n)
    else Reading(r.out + [if n > 0 then Repeated('>', n) + " " + kept else kept], soft, n)
  }

  function ReadAll(r: Reading, raws: seq<string>, delSp: bool): (q: Reading)
    requires r.soft ==> r.out != []
    ensures q.soft ==> q.out != []
    decreases |raws|
  {
    if raws == [] then r else ReadAll(ReadLine(r, raws[0], delSp), raws[1..], delSp)
  }

  function Unflowed(text: string, delSp: bool): string {
    Join(ReadAll(Reading([], false, -1), Split(text), delSp).out, "\n")
  }

  // ----- width

  /** Every piece fits beside its lead, or is one word that no line could hold. */
  lemma {:induction false} FillFits(lead: nat, cur: string, words: seq<string>, all: seq<string>)
    requires forall w | w in words :: w in all
    requires lead + |cur| <= WRAP_COLUMN || cur in all
    ensures forall p | p in Fill(lead, cur, words) :: lead + |p| <= WRAP_COLUMN || p in all
    decreases |words|
  {
    if words != [] {
      var w, rest := words[0], words[1..];
      if cur == "" {
        FillFits(lead, w, rest, all);
      } else if lead + |cur| + 1 + |w| <= WRAP_COLUMN {
        FillFits(lead, cur + " " + w, rest, all);
      } else {
        FillFits(lead, w, rest, all);
      }
    }
  }

  /** A line of output: how long it may be, or the one word that forces more. */
  ghost predicate Fits(out: string, lead: string, words: seq<string>) {
    |out| <= 74 || exists w | w in words :: out == Stuffed(lead + w) || out == Stuffed(lead + w) + " "
  }

  lemma {:induction false} EmittedFits(lead: string, pieces: seq<string>, cr: string, words: seq<string>)
    requires pieces != [] && (cr == "" || cr == "\r")
    requires forall p | p in pieces :: |lead| + |p| <= WRAP_COLUMN || p in words
    ensures forall i | 0 <= i < |Emitted(lead, pieces, cr)| ::
              exists out :: Emitted(lead, pieces, cr)[i] == out + cr && Fits(out, lead, words)
    decreases |pieces|
  {
    var p, es := pieces[0], Emitted(lead, pieces, cr);
    assert p in pieces;
    var out := if |pieces| == 1 then Stuffed(lead + p) else Stuffed(lead + p) + " ";
    assert Fits(out, lead, words) by {
      if |lead| + |p| > WRAP_COLUMN { assert p in words; }
    }
    assert es[0] == out + cr;
    if |pieces| > 1 {
      EmittedFits(lead, pieces[1..], cr, words);
      assert es[1..] == Emitted(lead, pieces[1..], cr);
      forall i | 0 <= i < |es|
        ensures exists o :: es[i] == o + cr && Fits(o, lead, words)
      {
        if i > 0 { assert es[i] == es[1..][i - 1]; }
      }
    }
  }

  /** A line written for a typed line is at most 74 octets before its line end, unless it is an
      indented line left alone or holds a single word that is too long by itself. */
  ghost predicate Narrow(written: string, raw: string) {
    var (line, cr) := CutSuffix(raw, "\r");
    var t := Trimmed(line);
    var end := if cr then "\r" else "";
    exists out :: written == out + end
      && (Fits(out, Lead(t), Words(Content(t))) || (out == Stuffed(t) && (" " <= t || "\t" <= t)))
  }

  lemma LineWidth(raw: string, i: nat)
    requires i < |WrapLine(raw)|
    ensures Narrow(WrapLine(raw)[i], raw)
  {
    hide Words, Markers, Lead, Content, Trimmed, Fill, Emitted;
    var (line, cr) := CutSuffix(raw, "\r");
    var t := Trimmed(line);
    var end := if cr then "\r" else "";
    if LeftAlone(t) {
      var out := Stuffed(t);
      assert |out| <= |t| + 1;
      assert WrapLine(raw)[i] == out + end && (Fits(out, Lead(t), Words(Content(t))) || " " <= t || "\t" <= t);
    } else {
      var words := Words(Content(t));
      assert WrapLine(raw) == Emitted(Lead(t), Fill(|Lead(t)|, "", words), end);
      FillHolds(|Lead(t)|, words);
      EmittedFits(Lead(t), Fill(|Lead(t)|, "", words), end, words);
    }
  }

  lemma {:induction false} LinesWidth(raws: seq<string>, i: nat)
    requires i < |WrapLines(raws)|
    ensures exists raw :: raw in raws && Narrow(WrapLines(raws)[i], raw)
    decreases |raws|
  {
    hide Narrow, WrapLine;
    var first := WrapLine(raws[0]);
    if i < |first| {
      LineWidth(raws[0], i);
      assert raws[0] in raws && WrapLines(raws)[i] == first[i];
    } else {
      LinesWidth(raws[1..], i - |first|);
      var raw :| raw in raws[1..] && Narrow(WrapLines(raws[1..])[i - |first|], raw);
      assert raw in raws && WrapLines(raws)[i] == WrapLines(raws[1..])[i - |first|];
    }
  }

  /** Width: whatever the text, every line of what is written is narrow for a line typed. */
  lemma WidthTheorem(text: string)
    ensures var ls := Split(Wrap(text));
      forall i | 0 <= i < |ls| :: exists raw :: raw in Split(text) && Narrow(ls[i], raw)
  {
    hide Narrow, Split, WrapLines;
    var raws := Split(text);
    SplitGivesOneLines(text);
    WrapOneLines(raws);
    WrapsSomething(raws);
    SplitJoin(WrapLines(raws));
    forall i | 0 <= i < |WrapLines(raws)|
      ensures exists raw :: raw in raws && Narrow(WrapLines(raws)[i], raw)
    {
      LinesWidth(raws, i);
    }
  }

  lemma FirstWord(w: string, x: string)
    requires ' ' !in w
    ensures Words(w)[0] == w && Words(w + " " + x)[0] == w
    decreases |w|
  {
    if w == "" {
      assert w + " " + x == " " + x && (" " + x)[0] == ' ';
    } else {
      FirstWord(w[1..], x);
      assert (w + " " + x)[1..] == w[1..] + " " + x;
      assert w == [w[0]] + w[1..];
    }
  }

  lemma {:induction false} FillKeepsStart(lead: nat, cur: string, words: seq<string>)
    requires cur != ""
    ensures var p := Fill(lead, cur, words)[0]; p == cur || cur + " " <= p
    decreases |words|
  {
    if words != [] && lead + |cur| + 1 + |words[0]| <= WRAP_COLUMN {
      var next := cur + " " + words[0];
      FillKeepsStart(lead, next, words[1..]);
      var p := Fill(lead, next, words[1..])[0];
      assert cur + " " <= next <= p;
    }
  }

  /** The first word of each line would not have fitted on the one before. */
  predicate Greedy(lead: nat, ps: seq<string>) {
    |ps| <= 1 || (lead + |ps[0]| + 1 + |Words(ps[1])[0]| > 72 && Greedy(lead, ps[1..]))
  }

  lemma {:induction false} FillIsGreedy(lead: nat, cur: string, words: seq<string>)
    requires forall i | 0 <= i < |words| :: ' ' !in words[i]
    ensures Greedy(lead, Fill(lead, cur, words))
    decreases |words|
  {
    hide Words;
    if words != [] {
      var w, rest := words[0], words[1..];
      if cur == "" {
        FillIsGreedy(lead, w, rest);
      } else if lead + |cur| + 1 + |w| <= WRAP_COLUMN {
        FillIsGreedy(lead, cur + " " + w, rest);
      } else {
        FillIsGreedy(lead, w, rest);
        var more := Fill(lead, w, rest);
        FirstWordFills(lead, w, rest);
        assert ([cur] + more)[1..] == more;
      }
    }
  }

  lemma FirstWordFills(lead: nat, w: string, rest: seq<string>)
    requires ' ' !in w
    ensures |Words(Fill(lead, w, rest)[0])[0]| >= |w|
  {
    hide Words, Fill;
    var p := Fill(lead, w, rest)[0];
    if w != "" {
      FillKeepsStart(lead, w, rest);
      FirstWord(w, if p == w then "" else p[|w| + 1..]);
      assert p == w || p == w + " " + p[|w| + 1..];
    }
  }

  /** A wrapped line is filled greedily: no line ends before it has to. */
  lemma WrapIsGreedy(t: string)
    ensures Greedy(|Lead(t)|, Fill(|Lead(t)|, "", Words(Content(t))))
  {
    hide Words, Fill, Greedy;
    WordsLack(Content(t), ' ');
    assert forall i | 0 <= i < |Words(Content(t))| :: Words(Content(t))[i] in Words(Content(t));
    FillIsGreedy(|Lead(t)|, "", Words(Content(t)));
  }

  /** Filling from nothing: every piece fits, or is one of the words. */
  lemma {:induction false} FillHolds(lead: nat, words: seq<string>)
    requires words != []
    ensures forall p | p in Fill(lead, "", words) :: lead + |p| <= WRAP_COLUMN || p in words
  {
    assert Fill(lead, "", words) == Fill(lead, words[0], words[1..]);
    FillFits(lead, words[0], words[1..], words);
  }

  // ----- paragraphs

  predicate IsSoft(content: string) {
    content != "-- " && CutSuffix(content, " ").1
  }

  predicate Soft(raw: string) {
    IsSoft(Parsed(raw).1)
  }

  /** Whether a line belongs to the paragraph of a line before it: that one is soft, both are at
      one quote depth, and it is not the signature mark. */
  predicate Continues(soft: bool, depth: int, raw: string) {
    soft && Parsed(raw).0 == depth && Parsed(raw).1 != "-- "
  }

  function Said(raw: string, delSp: bool): string {
    var content := Parsed(raw).1;
    if delSp && Soft(raw) then content[..|content| - 1] else content
  }

  function Opening(raw: string): string {
    if Parsed(raw).0 > 0 then Repeated('>', Parsed(raw).0) + " " else ""
  }

  /** How many lines the first paragraph has. */
  function FlowLen(raws: seq<string>): (n: nat)
    requires raws != []
    ensures 0 < n <= |raws|
  {
    if |raws| > 1 && Continues(Soft(raws[0]), Parsed(raws[0]).0, raws[1]) then 1 + FlowLen(raws[1..]) else 1
  }

  function AllSaid(raws: seq<string>, delSp: bool): string {
    if raws == [] then "" else Said(raws[0], delSp) + AllSaid(raws[1..], delSp)
  }

  /** The text by paragraphs: each is opened once, at its depth, and says what its lines say. */
  function Paragraphs(raws: seq<string>, delSp: bool): seq<string>
    decreases |raws|
  {
    if raws == [] then []
    else
      var n := FlowLen(raws);
      [Opening(raws[0]) + AllSaid(raws[..n], delSp)] + Paragraphs(raws[n..], delSp)
  }

  /** What is still to come, behind the lines read so far. */
  function Completed(r: Reading, raws: seq<string>, delSp: bool): seq<string>
    requires r.soft ==> r.out != []
  {
    if raws != [] && Continues(r.soft, r.depth, raws[0]) then
      var n := FlowLen(raws);
      Extended(r.out, AllSaid(raws[..n], delSp)) + Paragraphs(raws[n..], delSp)
    else r.out + Paragraphs(raws, delSp)
  }

  lemma ReadLineIs(r: Reading, raw: string, delSp: bool)
    requires r.soft ==> r.out != []
    ensures var q := ReadLine(r, raw, delSp);
      && q.soft == Soft(raw) && q.depth == Parsed(raw).0
      && q.out == if Continues(r.soft, r.depth, raw) then Extended(r.out, Said(raw, delSp))
                  else r.out + [Opening(raw) + Said(raw, delSp)]
  {
    hide Parsed, Repeated;
    var content := Parsed(raw).1;
    if IsSoft(content) { assert content == CutSuffix(content, " ").0 + " "; }
    assert "" + Said(raw, delSp) == Said(raw, delSp);
  }

  lemma {:induction false} SaidFirst(raws: seq<string>, delSp: bool, n: nat)
    requires 0 < n <= |raws|
    ensures AllSaid(raws[..n], delSp) == Said(raws[0], delSp) + AllSaid(raws[1..][..n - 1], delSp)
  {
    hide Said;
    assert raws[..n][1..] == raws[1..][..n - 1];
  }

  lemma {:induction false} FlowsRead(r: Reading, raws: seq<string>, delSp: bool)
    requires r.soft ==> r.out != []
    ensures ReadAll(r, raws, delSp).out == Completed(r, raws, delSp)
    decreases |raws|
  {
    hide Parsed, Soft, Said, Opening, ReadLine, Continues, Extended, AllSaid;
    if raws == [] {
      assert r.out + [] == r.out;
    } else {
      var q, rest := ReadLine(r, raws[0], delSp), raws[1..];
      ReadLineIs(r, raws[0], delSp);
      FlowsRead(q, rest, delSp);
      OneLineFurther(r, q, raws, delSp);
    }
  }

  lemma FlowFirst(raws: seq<string>)
    requires raws != []
    ensures FlowLen(raws)
      == if |raws| > 1 && Continues(Soft(raws[0]), Parsed(raws[0]).0, raws[1]) then 1 + FlowLen(raws[1..]) else 1
  {
    hide Parsed, Soft, Continues;
  }

  /** What is still to come behind the first line of a paragraph. */
  lemma RestOfParagraph(q: Reading, raws: seq<string>, delSp: bool)
    requires raws != [] && (q.soft ==> q.out != [])
    requires q.soft == Soft(raws[0]) && q.depth == Parsed(raws[0]).0
    ensures var n := FlowLen(raws);
      Completed(q, raws[1..], delSp)
      == (if n > 1 then Extended(q.out, AllSaid(raws[1..][..n - 1], delSp)) else q.out) + Paragraphs(raws[n..], delSp)
  {
    hide Parsed, Soft, Extended, AllSaid, FlowLen, Paragraphs;
    FlowFirst(raws);
    assert raws[FlowLen(raws)..] == raws[1..][FlowLen(raws) - 1..];
  }

  /** What is still to come from the first line of a paragraph on. */
  lemma {:induction false} WholeParagraph(r: Reading, raws: seq<string>, delSp: bool)
    requires raws != [] && (r.soft ==> r.out != [])
    ensures var n := FlowLen(raws);
      var all := Said(raws[0], delSp) + AllSaid(raws[1..][..n - 1], delSp);
      Completed(r, raws, delSp)
      == (if Continues(r.soft, r.depth, raws[0]) then Extended(r.out, all) else r.out + [Opening(raws[0]) + all]) + Paragraphs(raws[n..], delSp)
  {
    hide Parsed, Soft, Said, Opening, Extended, AllSaid, FlowLen;
    var n := FlowLen(raws);
    SaidFirst(raws, delSp, n);
    var p := Opening(raws[0]) + AllSaid(raws[..n], delSp);
    assert r.out + ([p] + Paragraphs(raws[n..], delSp)) == r.out + [p] + Paragraphs(raws[n..], delSp);
  }

  lemma {:induction false} OneLineFurther(r: Reading, q: Reading, raws: seq<string>, delSp: bool)
    requires raws != [] && (r.soft ==> r.out != []) && (q.soft ==> q.out != [])
    requires q.soft == Soft(raws[0]) && q.depth == Parsed(raws[0]).0
    requires q.out == if Continues(r.soft, r.depth, raws[0]) then Extended(r.out, Said(raws[0], delSp))
                      else r.out + [Opening(raws[0]) + Said(raws[0], delSp)]
    ensures Completed(q, raws[1..], delSp) == Completed(r, raws, delSp)
  {
    hide Parsed, Soft, Said, Opening, Extended, AllSaid, FlowLen, Completed, Paragraphs;
    var n, said := FlowLen(raws), Said(raws[0], delSp);
    var more := AllSaid(raws[1..][..n - 1], delSp);
    RestOfParagraph(q, raws, delSp);
    WholeParagraph(r, raws, delSp);
    if n == 1 {
      assert raws[1..][..0] == [];
      NothingSaid(delSp);
      assert said + more == said;
    } else if Continues(r.soft, r.depth, raws[0]) {
      ExtendedTwice(r.out, said, more);
    } else {
      ExtendedOpen(r.out, Opening(raws[0]), said, more);
    }
  }

  lemma NothingSaid(delSp: bool)
    ensures AllSaid([], delSp) == ""
  {
  }

  /** Unflowing is reading by paragraphs: soft-broken lines of one quote depth join, and no
      others, the spaces deleted where that is asked for. */
  lemma UnflowedIsParagraphs(text: string, delSp: bool)
    ensures Unflowed(text, delSp) == Join(Paragraphs(Split(text), delSp), "\n")
  {
    hide ReadAll, Paragraphs, Split, Join;
    FlowsRead(Reading([], false, -1), Split(text), delSp);
    assert [] + Paragraphs(Split(text), delSp) == Paragraphs(Split(text), delSp);
  }

  lemma ExtendedTwice(out: seq<string>, a: string, b: string)
    requires out != []
    ensures Extended(Extended(out, a), b) == Extended(out, a + b)
  {
    var last := out[|out| - 1];
    assert last + a + b == last + (a + b);
  }

  lemma ExtendedOpen(out: seq<string>, lead: string, a: string, b: string)
    ensures Extended(out + [lead + a], b) == out + [lead + (a + b)]
  {
    assert lead + a + b == lead + (a + b);
  }

  // ----- the round trip

  /** What unflowing should give back for a typed line: without its line end and, unless it is
      quoted or the signature mark, without trailing spaces; a quote is written "> ". */
  function Normal(raw: string): string {
    var t := Trimmed(CutSuffix(raw, "\r").0);
    if Markers(t) == "" then t else Markers(t) + " " + Content(t)
  }

  /** One line, wrapped and read, gives itself and leaves nothing open. */
  predicate ReadsBack(raw: string) {
    var q := ReadAll(Reading([], false, -1), WrapLine(raw), false);
    q.out == [Normal(raw)] && !q.soft
  }

  /** Pieces that join again: none but the last is the signature mark's dashes, no later one
      reads as the mark or, unquoted, as a quote. */
  predicate FlowsOn(ps: seq<string>, quoted: bool)
    requires ps != []
  {
    |ps| == 1
    || (ps[0] != "--" && ps[1] != (if |ps| == 2 then "-- " else "--") && (quoted || !(">" <= ps[1])) && FlowsOn(ps[1..], quoted))
  }

  function Pieces(t: string): (ps: seq<string>)
    ensures ps != []
  {
    Fill(|Lead(t)|, "", Words(Content(t)))
  }

  predicate NoReturn(raw: string) {
    '\r' !in CutSuffix(raw, "\r").0
  }

  /** The condition on a typed line, before it is sent: short, it is not a quote that ends in a
      soft space; filled, its pieces join again, lose no space between them and end hard. */
  predicate Carried(raw: string) {
    var t := Trimmed(CutSuffix(raw, "\r").0);
    if LeftAlone(t) then Markers(t) == "" || !IsSoft(Content(t))
    else FlowsOn(Pieces(t), Markers(t) != "") && Join(Pieces(t), " ") == Content(t) && !IsSoft(Pieces(t)[|Pieces(t)| - 1])
  }

  lemma CutReturn(line: string, cr: string)
    requires (cr == "" && (line == "" || line[|line| - 1] != '\r')) || cr == "\r"
    ensures CutSuffix(line + cr, "\r").0 == line
  {
    if cr == "\r" {
      assert (line + cr)[|line|..] == "\r";
    } else {
      assert line + cr == line;
    }
  }

  /** What a line says once its end and its markers are known. */
  lemma ParsedAs(line: string, cr: string, bare: string)
    requires (cr == "" && (line == "" || line[|line| - 1] != '\r')) || cr == "\r"
    requires TrimLeft(line, '>') == bare
    ensures Parsed(line + cr) == (|line| - |bare|, TrimPrefix(bare, ' '))
  {
    hide CutSuffix, TrimLeft, Parsed;
    CutReturn(line, cr);
    ParsedOf(line + cr, line, bare);
  }

  lemma ParsedOf(raw: string, line: string, bare: string)
    requires CutSuffix(raw, "\r").0 == line && TrimLeft(line, '>') == bare
    ensures Parsed(raw) == (|line| - |bare|, TrimPrefix(bare, ' '))
  {
    hide CutSuffix, TrimLeft, TrimPrefix;
  }

  /** A line without markers, stuffed where it must be, says what it was. */
  lemma ParsedPlain(b: string, stuffed: bool, cr: string)
    requires b == "" || (b[0] != '>' && b[|b| - 1] != '\r')
    requires stuffed || !(" " <= b)
    requires cr == "" || cr == "\r"
    ensures Parsed((if stuffed then " " + b else b) + cr) == (0, b)
  {
    hide Parsed, CutSuffix;
    var line := if stuffed then " " + b else b;
    if stuffed {
      assert line[1..] == b && (b == "" || line[|line| - 1] == b[|b| - 1]);
    }
    ParsedAs(line, cr, line);
  }

  lemma {:induction false} TrimMarkers(m: string, rest: string)
    requires (forall c | c in m :: c == '>') && (rest == "" || rest[0] != '>')
    ensures TrimLeft(m + rest, '>') == rest
  {
    if m == "" {
      assert m + rest == rest;
    } else {
      assert m[0] in m && forall c | c in m[1..] :: c in m;
      assert (m + rest)[1..] == m[1..] + rest;
      TrimMarkers(m[1..], rest);
    }
  }

  lemma ParsedQuoted(m: string, b: string, cr: string)
    requires forall c | c in m :: c == '>'
    requires (b == "" || b[|b| - 1] != '\r') && (cr == "" || cr == "\r")
    ensures Parsed(m + " " + b + cr) == (|m|, b)
  {
    hide Parsed, TrimLeft;
    var line, bare := m + " " + b, " " + b;
    assert line == m + bare && bare[1..] == b;
    assert line[|line| - 1] == bare[|b|];
    TrimMarkers(m, bare);
    ParsedAs(line, cr, bare);
  }

  lemma RepeatedMarkers(m: string)
    requires forall c | c in m :: c == '>'
    ensures Repeated('>', |m|) == m
  {
    assert forall i | 0 <= i < |m| :: m[i] in m;
  }

  lemma MarkersAre(line: string)
    ensures forall c | c in Markers(line) :: c == '>'
    ensures Markers(line) == "" <==> line == "" || line[0] != '>'
    ensures var rest := line[|Markers(line)|..]; line == Markers(line) + rest && (rest == "" || rest[0] != '>')
  {
  }

  lemma TrimmedMarkers(line: string)
    ensures Markers(Trimmed(line)) == Markers(line) && Trimmed(line) <= line
    ensures Markers(line) == "" ==> Trimmed(line) == "-- " || !CutSuffix(Trimmed(line), " ").1
  {
    hide Markers, TrimRight;
    MarkersAre(line);
    MarkersAre(Trimmed(line));
  }

  lemma AloneParsed(line: string, end: string)
    requires '\r' !in line && (end == "" || end == "\r")
    ensures var t := Trimmed(line);
            Parsed(Stuffed(t) + end) == (|Markers(t)|, if Markers(t) == "" then t else Content(t))
  {
    hide Parsed, Trimmed, Markers;
    var t := Trimmed(line);
    TrimmedMarkers(line);
    MarkersAre(t);
    assert t != "" ==> t[|t| - 1] in line;
    if Markers(t) == "" {
      ParsedPlain(t, NeedsStuffing(t), end);
    } else {
      assert t[0] == '>';
      ParsedAsTyped(t, end);
    }
  }

  lemma ParsedAsTyped(t: string, end: string)
    requires t != "" && t[|t| - 1] != '\r' && (end == "" || end == "\r") && Markers(t) != ""
    ensures Parsed(t + end) == (|Markers(t)|, Content(t))
  {
    CutReturn(t, end);
  }

  lemma ContentHasNoReturn(line: string)
    requires '\r' !in line
    ensures '\r' !in Content(Trimmed(line))
  {
    hide Trimmed, Markers;
    TrimmedMarkers(line);
    forall c | c in Content(Trimmed(line))
      ensures c in line
    {
    }
  }

  lemma PlainContent(t: string)
    requires Markers(t) == ""
    ensures Content(t) == t
  {
  }

  lemma FillStarts(lead: nat, words: seq<string>)
    requires words != []
    ensures Fill(lead, "", words) == Fill(lead, words[0], words[1..])
  {
  }

  /** Every piece is made of the words' characters, none starts with a space, and only the last
      can be empty. */
  lemma {:induction false} FillMade(lead: nat, cur: string, words: seq<string>, c: char)
    requires c != ' ' && c !in cur && (cur == "" || cur[0] != ' ')
    requires forall i | 0 <= i < |words| :: c !in words[i] && ' ' !in words[i]
    ensures Made(Fill(lead, cur, words), c)
    decreases |words|
  {
    if words != [] {
      var w, rest := words[0], words[1..];
      if w != "" { assert w[0] in w; }
      if cur == "" {
        FillMade(lead, w, rest, c);
      } else if lead + |cur| + 1 + |w| <= WRAP_COLUMN {
        FillMade(lead, cur + " " + w, rest, c);
      } else {
        FillMade(lead, w, rest, c);
        assert ([cur] + Fill(lead, w, rest))[1..] == Fill(lead, w, rest);
      }
    }
  }

  predicate Made(ps: seq<string>, c: char) {
    ps == [] || (c !in ps[0] && (ps[0] == "" || ps[0][0] != ' ') && (|ps| > 1 ==> ps[0] != "") && Made(ps[1..], c))
  }

  lemma PiecesMade(t: string, c: char)
    requires c != ' ' && c !in Content(t)
    ensures Made(Pieces(t), c)
  {
    hide Words, Content, Fill, Made;
    var ws := Words(Content(t));
    WordsLack(Content(t), ' ');
    WordsLack(Content(t), c);
    assert forall i | 0 <= i < |ws| :: ws[i] in ws;
    FillMade(|Lead(t)|, "", ws, c);
  }

  /** What a written piece says. */
  lemma PieceSays(lead: string, p: string, tail: string, cr: string, m: string)
    requires (forall c | c in m :: c == '>') && lead == (if m == "" then "" else m + " ")
    requires '\r' !in p && (p == "" || p[0] != ' ') && (tail == "" || (tail == " " && p != "")) && (cr == "" || cr == "\r")
    ensures m != "" || !(">" <= p) ==> Parsed(Stuffed(lead + p) + tail + cr) == (|m|, p + tail)
    ensures m == "" && ">" <= p ==> Parsed(Stuffed(lead + p) + tail + cr).0 > 0
  {
    hide Parsed, Stuffed;
    var b := p + tail;
    assert b != "" ==> b[|b| - 1] != '\r' by { if tail == "" && p != "" { assert b == p && p[|p| - 1] in p; } }
    if m != "" {
      QuotedSays(m, p, tail, cr);
    } else {
      assert lead + p == p;
      if ">" <= p {
        assert Stuffed(p) == p by { QuoteIsNotStuffed(p); }
        QuoteSays(b, cr);
      } else {
        PlainSays(p, tail, cr);
      }
    }
  }

  lemma QuoteIsNotStuffed(p: string)
    requires ">" <= p
    ensures Stuffed(p) == p
  {
    assert p[0] == '>';
  }

  lemma QuotedSays(m: string, p: string, tail: string, cr: string)
    requires m != "" && (forall c | c in m :: c == '>') && (cr == "" || cr == "\r")
    requires p + tail == "" || (p + tail)[|p + tail| - 1] != '\r'
    ensures Parsed(Stuffed(m + " " + p) + tail + cr) == (|m|, p + tail)
  {
    hide Parsed, Stuffed;
    var line := m + " " + p;
    assert Stuffed(line) == line by { assert m[0] in m && line[0] == '>'; QuoteIsNotStuffed(line); }
    ParsedQuoted(m, p + tail, cr);
    assert line + tail == m + " " + (p + tail);
  }

  lemma PlainSays(p: string, tail: string, cr: string)
    requires !(">" <= p) && (p == "" || p[0] != ' ') && (tail == "" || (tail == " " && p != "")) && (cr == "" || cr == "\r")
    requires p + tail == "" || (p + tail)[|p + tail| - 1] != '\r'
    ensures Parsed(Stuffed(p) + tail + cr) == (0, p + tail)
  {
    hide Parsed, NeedsStuffing;
    var b, stuffed := p + tail, NeedsStuffing(p);
    assert b != "" ==> b[0] == p[0];
    ParsedPlain(b, stuffed, cr);
    assert Stuffed(p) + tail == if stuffed then " " + b else b;
  }

  lemma QuoteSays(b: string, cr: string)
    requires b != "" && b[0] == '>' && b[|b| - 1] != '\r' && (cr == "" || cr == "\r")
    ensures Parsed(b + cr).0 > 0
  {
    hide CutSuffix, Parsed;
    ParsedAs(b, cr, TrimLeft(b, '>'));
  }

  lemma SoftPiece(p: string)
    ensures IsSoft(p + " ") <==> p != "--"
  {
    assert (p + " ")[|p|..] == " " && (p + " ")[..|p|] == p && "-- "[..2] == "--";
    assert p == "--" ==> p + " " == "-- ";
  }

  /** A piece as it is written: its depth, what it says and whether it is soft. */
  lemma WrittenPiece(lead: string, ps: seq<string>, cr: string, m: string)
    requires (forall c | c in m :: c == '>') && lead == (if m == "" then "" else m + " ")
    requires ps != [] && Made(ps, '\r') && (cr == "" || cr == "\r")
    ensures var raw, said := Emitted(lead, ps, cr)[0], if |ps| == 1 then ps[0] else ps[0] + " ";
      if m != "" || !(">" <= ps[0])
      then Parsed(raw) == (|m|, said) && Said(raw, false) == said && (Soft(raw) <==> if |ps| == 1 then IsSoft(ps[0]) else ps[0] != "--")
      else Parsed(raw).0 != |m|
  {
    hide Parsed, IsSoft;
    var p := ps[0];
    if |ps| == 1 {
      assert Stuffed(lead + p) + "" + cr == Stuffed(lead + p) + cr && p + "" == p;
      PieceSays(lead, p, "", cr, m);
    } else {
      PieceSays(lead, p, " ", cr, m);
      SoftPiece(p);
    }
  }

  /** All lines are one paragraph exactly when the first flows into the others, and they do. */
  lemma {:induction false} AllFlow(es: seq<string>)
    requires |es| > 1
    ensures FlowLen(es) == |es| <==> Continues(Soft(es[0]), Parsed(es[0]).0, es[1]) && FlowLen(es[1..]) == |es[1..]|
    ensures AllSaid(es, false) == Said(es[0], false) + AllSaid(es[1..], false)
  {
    hide Parsed, Soft, Continues, Said, FlowLen;
    FlowFirst(es);
  }

  lemma {:induction false} EmittedFirst(lead: string, ps: seq<string>, cr: string)
    requires |ps| > 1
    ensures var es, rest := Emitted(lead, ps, cr), Emitted(lead, ps[1..], cr);
      && |es| == |ps| && |rest| == |ps| - 1 && es[1..] == rest && es[1] == rest[0] && es[|es| - 1] == rest[|rest| - 1]
  {
    hide Stuffed;
  }

  /** The second piece continues the first where neither is, or reads as, something else. */
  lemma SecondContinues(lead: string, ps: seq<string>, cr: string, m: string)
    requires (forall c | c in m :: c == '>') && lead == (if m == "" then "" else m + " ")
    requires |ps| > 1 && Made(ps, '\r') && (cr == "" || cr == "\r") && (m != "" || !(">" <= ps[0]))
    ensures |Emitted(lead, ps, cr)| == |ps|
    ensures var es := Emitted(lead, ps, cr);
      Continues(Soft(es[0]), Parsed(es[0]).0, es[1])
      <==> ps[0] != "--" && ps[1] != (if |ps| == 2 then "-- " else "--") && (m != "" || !(">" <= ps[1]))
  {
    hide Parsed, Soft, Said, IsSoft, Emitted;
    EmittedFirst(lead, ps, cr);
    WrittenPiece(lead, ps, cr, m);
    WrittenPiece(lead, ps[1..], cr, m);
    MarkedContent(ps[1]);
  }

  /** All pieces are one paragraph exactly when they flow on; then they say the pieces joined. */
  lemma {:induction false} PiecesFlow(lead: string, ps: seq<string>, cr: string, m: string)
    requires (forall c | c in m :: c == '>') && lead == (if m == "" then "" else m + " ")
    requires ps != [] && Made(ps, '\r') && (cr == "" || cr == "\r") && (m != "" || !(">" <= ps[0]))
    ensures var es := Emitted(lead, ps, cr);
      && |es| == |ps| && (FlowLen(es) == |es| <==> FlowsOn(ps, m != ""))
      && (FlowsOn(ps, m != "") ==> AllSaid(es, false) == Join(ps, " ") && (Soft(es[|es| - 1]) <==> IsSoft(ps[|ps| - 1])))
    decreases |ps|
  {
    hide Parsed, Soft, Said, IsSoft, FlowLen, AllSaid, Emitted, Continues, Stuffed;
    WrittenPiece(lead, ps, cr, m);
    if |ps| == 1 {
      OnePiece(Emitted(lead, ps, cr), lead, ps, cr);
    } else {
      EmittedFirst(lead, ps, cr);
      AllFlow(Emitted(lead, ps, cr));
      SecondContinues(lead, ps, cr, m);
      if m != "" || !(">" <= ps[1]) { PiecesFlow(lead, ps[1..], cr, m); }
    }
  }

  lemma OnePiece(es: seq<string>, lead: string, ps: seq<string>, cr: string)
    requires |ps| == 1 && es == Emitted(lead, ps, cr)
    ensures |es| == 1 && FlowLen(es) == 1 && AllSaid(es, false) == Said(es[0], false)
  {
    hide Parsed, Soft, Said, Continues, Stuffed;
    assert es[1..] == [];
    assert Said(es[0], false) + "" == Said(es[0], false);
  }

  lemma MarkedContent(p: string)
    ensures p + " " == "-- " <==> p == "--"
  {
    assert p + " " == "-- " ==> (p + " ")[..|p|] == "-- "[..2];
  }

  lemma {:induction false} ReadAllSoft(r: Reading, raws: seq<string>, delSp: bool)
    requires raws != [] && (r.soft ==> r.out != [])
    ensures var q, last := ReadAll(r, raws, delSp), raws[|raws| - 1]; q.soft == Soft(last) && q.depth == Parsed(last).0
    decreases |raws|
  {
    hide Parsed, Soft, ReadLine;
    var q := ReadLine(r, raws[0], delSp);
    ReadLineIs(r, raws[0], delSp);
    if |raws| == 1 {
      assert raws[1..] == [] && ReadAll(q, [], delSp) == q;
    } else {
      ReadAllSoft(q, raws[1..], delSp);
    }
  }

  /** What some lines give does not depend on what was read before, if that is closed. */
  lemma {:induction false} ReadClosed(r: Reading, raws: seq<string>)
    requires !r.soft && raws != []
    ensures ReadAll(r, raws, false).out == r.out + Paragraphs(raws, false)
    ensures ReadAll(r, raws, false).soft == Soft(raws[|raws| - 1])
  {
    hide ReadAll, Paragraphs, Soft;
    FlowsRead(r, raws, false);
    ReadAllSoft(r, raws, false);
  }

  lemma OneParagraph(raws: seq<string>)
    requires raws != []
    ensures FlowLen(raws) == |raws| <==> |Paragraphs(raws, false)| == 1
    ensures FlowLen(raws) == |raws| ==> Paragraphs(raws, false) == [Opening(raws[0]) + AllSaid(raws, false)]
  {
    hide Opening, AllSaid, FlowLen;
    var n := FlowLen(raws);
    if n == |raws| {
      assert raws[..n] == raws && raws[n..] == [];
    } else {
      assert raws[n..] != [];
    }
  }

  lemma WordsStart(s: string)
    requires s != "" && s[0] != ' '
    ensures Words(s)[0] != "" && Words(s)[0][0] == s[0]
  {
  }

  /** The first piece of an unquoted line does not look like a quote. */
  lemma FirstPiece(t: string)
    requires !LeftAlone(t) && Markers(t) == ""
    ensures !(">" <= Pieces(t)[0])
  {
    hide Words, Fill, Markers;
    MarkersAre(t);
    PlainContent(t);
    var ws := Words(t);
    WordsStart(t);
    FillStarts(|Lead(t)|, ws);
    FillKeepsStart(|Lead(t)|, ws[0], ws[1..]);
    var p := Pieces(t)[0];
    assert ws[0] <= p;
  }

  lemma OpeningIs(raw: string, m: string)
    requires Parsed(raw).0 == |m| && forall c | c in m :: c == '>'
    ensures Opening(raw) == if m == "" then "" else m + " "
  {
    hide Parsed, Repeated;
    RepeatedMarkers(m);
  }

  lemma SameAfter(lead: string, a: string, b: string)
    ensures lead + a == lead + b <==> a == b
  {
    assert (lead + a)[|lead|..] == a && (lead + b)[|lead|..] == b;
  }

  /** A filled line is one paragraph, its own, exactly when its pieces flow on and lose nothing;
      then it ends as its last piece does. */
  lemma FilledExactly(t: string, end: string)
    requires '\r' !in t && !LeftAlone(t) && (end == "" || end == "\r")
    ensures var es, ps := Emitted(Lead(t), Pieces(t), end), Pieces(t);
      && (Paragraphs(es, false) == [Lead(t) + Content(t)] <==> FlowsOn(ps, Markers(t) != "") && Join(ps, " ") == Content(t))
      && (FlowsOn(ps, Markers(t) != "") ==> (Soft(es[|es| - 1]) <==> IsSoft(ps[|ps| - 1])))
      && Said(es[0], false) == (if |ps| == 1 then ps[0] else ps[0] + " ")
  {
    hide Markers, Content, Pieces, Emitted, FlowsOn, Paragraphs, Parsed, Soft, AllSaid, FlowLen, IsSoft, LeftAlone, Opening, Join, Said;
    var m, lead, ps := Markers(t), Lead(t), Pieces(t);
    MarkersAre(t);
    assert '\r' !in Content(t) by { ContentOf(t, '\r'); }
    PiecesMade(t, '\r');
    if m == "" { FirstPiece(t); }
    var es := Emitted(lead, ps, end);
    PiecesFlow(lead, ps, end, m);
    OneParagraph(es);
    WrittenPiece(lead, ps, end, m);
    OpeningIs(es[0], m);
    SameAfter(lead, Join(ps, " "), Content(t));
  }

  lemma ContentOf(t: string, c: char)
    requires c !in t
    ensures c !in Content(t)
  {
    hide Markers;
    MarkersAre(t);
    assert forall x | x in Content(t) :: x in t;
  }

  lemma AloneExactly(line: string, end: string)
    requires '\r' !in line && (end == "" || end == "\r")
    ensures var t := Trimmed(line);
      var es := [Stuffed(t) + end];
      && Paragraphs(es, false) == [if Markers(t) == "" then t else Markers(t) + " " + Content(t)]
      && (Soft(es[0]) <==> Markers(t) != "" && IsSoft(Content(t)))
  {
    hide Trimmed, Markers, Content, Parsed, Stuffed, Paragraphs;
    var t := Trimmed(line);
    var raw := Stuffed(t) + end;
    var raws := [raw];
    AloneParsed(line, end);
    TrimmedMarkers(line);
    MarkersAre(t);
    OneParagraph(raws);
    OpeningIs(raw, Markers(t));
    assert raws[1..] == [];
    assert AllSaid(raws, false) == Said(raw, false) + "" == Said(raw, false);
    if Markers(t) == "" { assert "" + t == t; }
  }

  /** What is written for a line gives the line in its normal form, and nothing else. */
  predicate GivesItself(raw: string) {
    Paragraphs(WrapLine(raw), false) == [Normal(raw)]
  }

  function LastWritten(raw: string): string {
    WrapLine(raw)[|WrapLine(raw)| - 1]
  }

  /** The condition for that on the typed line: it is left alone, or its pieces join again and
      lose no space between them. */
  predicate Whole(raw: string) {
    var t := Trimmed(CutSuffix(raw, "\r").0);
    LeftAlone(t) || (FlowsOn(Pieces(t), Markers(t) != "") && Join(Pieces(t), " ") == Content(t))
  }

  /** Exactness per line: a typed line gives itself if and only if it is whole, and then comes
      back closed if and only if flowing can carry it. */
  lemma LineExactly(raw: string)
    requires NoReturn(raw)
    ensures GivesItself(raw) <==> Whole(raw)
    ensures Carried(raw) <==> GivesItself(raw) && !Soft(LastWritten(raw))
    ensures ReadsBack(raw) <==> Carried(raw)
    ensures |WrapLine(raw)| > 1 ==> Said(WrapLine(raw)[0], false) != ""
  {
    hide Trimmed, Markers, LeftAlone, Content, ReadAll, Emitted, Pieces, FlowsOn, IsSoft, Stuffed, WrapLine, Join, Soft, Said, Paragraphs;
    var (line, cr) := CutSuffix(raw, "\r");
    var end, t := if cr then "\r" else "", Trimmed(line);
    WrapLineIs(raw);
    TrimmedMarkers(line);
    assert '\r' !in t by { assert forall c | c in t :: c in line; }
    ReadClosed(Reading([], false, -1), WrapLine(raw));
    assert [] + Paragraphs(WrapLine(raw), false) == Paragraphs(WrapLine(raw), false);
    if LeftAlone(t) {
      AloneExactly(line, end);
    } else {
      FilledExactly(t, end);
      PiecesAre(t);
      if Markers(t) == "" {
        PlainContent(t);
        assert Lead(t) + t == t;
      }
    }
  }

  lemma PiecesAre(t: string)
    ensures Pieces(t) == Fill(|Lead(t)|, "", Words(Content(t)))
  {
  }

  // ----- a plainer condition

  predicate Filled(w: string, quoted: bool) {
    w != "" && w != "--" && (quoted || w[0] != '>')
  }

  /** A line whose meaning flowing can carry: no carriage return but in its line end, a quoted
      line that is not itself soft, and, where it must be wrapped, single spaces between words
      of which none is the signature mark or, unquoted, looks like a quote. */
  predicate Carries(raw: string) {
    var line := CutSuffix(raw, "\r").0;
    var t := Trimmed(line);
    && '\r' !in line
    && (Markers(t) != "" ==> Content(t) == "-- " || !CutSuffix(Content(t), " ").1)
    && (!LeftAlone(t) ==> forall w | w in Words(Content(t)) :: Filled(w, Markers(t) != ""))
  }

  /** A line that says something and neither starts nor ends with a space. */
  predicate Solid(p: string, quoted: bool) {
    Filled(p, quoted) && p[0] != ' ' && p[|p| - 1] != ' ' && p[|p| - 1] != '\r'
  }

  lemma {:induction false} FillSolid(lead: nat, cur: string, words: seq<string>, quoted: bool)
    requires Solid(cur, quoted) && forall w | w in words :: Solid(w, quoted)
    ensures forall p | p in Fill(lead, cur, words) :: Solid(p, quoted)
    ensures Join(Fill(lead, cur, words), " ") == Join([cur] + words, " ")
    decreases |words|
  {
    if words == [] {
      assert [cur] + words == [cur];
    } else {
      var w, rest := words[0], words[1..];
      assert w in words;
      assert ([cur] + words)[1..] == words && words == [w] + rest;
      if lead + |cur| + 1 + |w| <= WRAP_COLUMN {
        var next := cur + " " + w;
        assert next != "--" by { assert next[|cur|] == ' '; }
        FillSolid(lead, next, rest, quoted);
        assert ([next] + rest)[1..] == rest;
        assert Join([next] + rest, " ") == Join([cur] + words, " ");
      } else {
        FillSolid(lead, w, rest, quoted);
        assert ([cur] + Fill(lead, w, rest))[1..] == Fill(lead, w, rest);
      }
    }
  }

  lemma SolidWords(s: string, quoted: bool)
    requires '\r' !in s && forall w | w in Words(s) :: Filled(w, quoted)
    ensures forall w | w in Words(s) :: Solid(w, quoted)
  {
    hide Words;
    WordsLack(s, ' ');
    WordsLack(s, '\r');
    forall w | w in Words(s)
      ensures Solid(w, quoted)
    {
      assert w[0] in w && w[|w| - 1] in w;
    }
  }

  lemma {:induction false} SolidFlows(ps: seq<string>, quoted: bool)
    requires ps != [] && forall p | p in ps :: Solid(p, quoted)
    ensures FlowsOn(ps, quoted)
    decreases |ps|
  {
    assert ps[0] in ps;
    if |ps| > 1 {
      assert ps[1] in ps && forall p | p in ps[1..] :: p in ps;
      assert ps[1] != "-- " by { assert ps[1][|ps[1]| - 1] != ' ' && "-- "[2] == ' '; }
      SolidFlows(ps[1..], quoted);
    }
  }

  /** Over-long lines that are single-spaced and hold no word that is the signature mark's or,
      unquoted, looks like a quote are among the lines that come back. */
  lemma CarriesIsCarried(raw: string)
    requires Carries(raw)
    ensures NoReturn(raw) && Carried(raw)
  {
    hide Trimmed, Markers, LeftAlone, Content, Words, Fill, Filled, FlowsOn, Solid;
    var line := CutSuffix(raw, "\r").0;
    var t := Trimmed(line);
    if !LeftAlone(t) {
      var ws, quoted := Words(Content(t)), Markers(t) != "";
      ContentHasNoReturn(line);
      SolidWords(Content(t), quoted);
      WordsJoin(Content(t));
      assert ws[0] in ws && forall w | w in ws[1..] :: w in ws;
      FillStarts(|Lead(t)|, ws);
      FillSolid(|Lead(t)|, ws[0], ws[1..], quoted);
      assert [ws[0]] + ws[1..] == ws;
      SolidFlows(Pieces(t), quoted);
      assert !IsSoft(Pieces(t)[|Pieces(t)| - 1]) by { SolidIsHard(Pieces(t)[|Pieces(t)| - 1], quoted); }
    }
  }

  lemma SolidIsHard(p: string, quoted: bool)
    requires Solid(p, quoted)
    ensures !IsSoft(p)
  {
  }

  // ----- whole texts

  function Normals(raws: seq<string>): seq<string> {
    if raws == [] then [] else [Normal(raws[0])] + Normals(raws[1..])
  }

  lemma {:induction false} ReadConcat(r: Reading, a: seq<string>, b: seq<string>)
    requires r.soft ==> r.out != []
    ensures ReadAll(r, a + b, false) == ReadAll(ReadAll(r, a, false), b, false)
    decreases |a|
  {
    hide ReadLine;
    if a == [] {
      assert a + b == b;
    } else {
      assert (a + b)[0] == a[0] && (a + b)[1..] == a[1..] + b;
      ReadConcat(ReadLine(r, a[0], false), a[1..], b);
    }
  }

  /** A line that stays open is continued by the line behind it. */
  predicate OpenTo(a: string, b: string) {
    Continues(Soft(LastWritten(a)), Parsed(LastWritten(a)).0, WrapLine(b)[0])
  }

  /** A text that comes back: every line gives itself, and none that stays open is continued. */
  predicate TextCarried(raws: seq<string>) {
    && (forall i | 0 <= i < |raws| :: GivesItself(raws[i]))
    && (forall i | 0 <= i < |raws| - 1 :: !OpenTo(raws[i], raws[i + 1]))
  }

  /** Lines that flowing can carry one by one make such a text. */
  lemma CarriedText(raws: seq<string>)
    requires forall i | 0 <= i < |raws| :: NoReturn(raws[i]) && Carried(raws[i])
    ensures TextCarried(raws)
  {
    hide NoReturn, Carried, GivesItself, Soft, Parsed, LastWritten;
    forall i | 0 <= i < |raws|
      ensures GivesItself(raws[i]) && !Soft(LastWritten(raws[i]))
    {
      LineExactly(raws[i]);
    }
  }

  lemma {:induction false} WrapLinesSnoc(raws: seq<string>, raw: string)
    ensures WrapLines(raws + [raw]) == WrapLines(raws) + WrapLine(raw)
    ensures Normals(raws + [raw]) == Normals(raws) + [Normal(raw)]
    ensures raws != [] ==> WrapLines(raws) != [] && WrapLines(raws)[|WrapLines(raws)| - 1] == LastWritten(raws[|raws| - 1])
    decreases |raws|
  {
    hide WrapLine, Normal;
    if raws == [] {
      assert raws + [raw] == [raw] && [raw][1..] == [];
      assert WrapLine(raw) + [] == WrapLine(raw);
    } else {
      assert (raws + [raw])[0] == raws[0] && (raws + [raw])[1..] == raws[1..] + [raw];
      WrapLinesSnoc(raws[1..], raw);
      if |raws| == 1 { assert raws[1..] == [] && WrapLine(raws[0]) + [] == WrapLine(raws[0]); }
    }
  }

  /** Behind what was read, some lines give exactly one more when they do not continue it and
      are that one paragraph. */
  lemma {:induction false} OneMoreLine(q: Reading, es: seq<string>, n: string)
    requires es != [] && (q.soft ==> q.out != []) && (|es| > 1 ==> Said(es[0], false) != "")
    ensures ReadAll(q, es, false).out == q.out + [n] <==> !Continues(q.soft, q.depth, es[0]) && Paragraphs(es, false) == [n]
  {
    hide ReadAll, Paragraphs, Soft, Parsed, Said, FlowLen, AllSaid, Extended;
    FlowsRead(q, es, false);
    if Continues(q.soft, q.depth, es[0]) {
      var k := FlowLen(es);
      SaidFirst(es, false, k);
      if |es| == 1 { assert es[k..] == []; NoParagraphs(); }
      ContinuedIsNotMore(q.out, AllSaid(es[..k], false), Paragraphs(es[k..], false), n);
    } else {
      SameLines(q.out, Paragraphs(es, false), [n]);
    }
  }

  lemma NoParagraphs()
    ensures Paragraphs([], false) == []
  {
  }

  lemma SameLines(a: seq<string>, b: seq<string>, c: seq<string>)
    ensures a + b == a + c <==> b == c
  {
    assert (a + b)[|a|..] == b && (a + c)[|a|..] == c;
  }

  lemma ContinuedIsNotMore(out: seq<string>, more: string, ps: seq<string>, n: string)
    requires out != [] && (more == "" ==> ps == [])
    ensures Extended(out, more) + ps != out + [n]
  {
    var k := |out| - 1;
    if more != "" {
      assert |(Extended(out, more) + ps)[k]| > |(out + [n])[k]|;
    } else {
      assert |Extended(out, more) + ps| < |out + [n]|;
    }
  }

  /** The text read line by line, as far as each of its lines. */
  ghost predicate ComesBack(raws: seq<string>) {
    forall n | 0 <= n <= |raws| :: ReadAll(Reading([], false, -1), WrapLines(raws[..n]), false).out == Normals(raws[..n])
  }

  lemma {:induction false} NextComesBack(raws: seq<string>, k: nat)
    requires k < |raws| && (forall i | 0 <= i < |raws| :: NoReturn(raws[i]))
    requires ReadAll(Reading([], false, -1), WrapLines(raws[..k]), false).out == Normals(raws[..k])
    ensures ReadAll(Reading([], false, -1), WrapLines(raws[..k + 1]), false).out == Normals(raws[..k + 1])
       <==> GivesItself(raws[k]) && (k > 0 ==> !OpenTo(raws[k - 1], raws[k]))
  {
    hide ReadAll, WrapLines, WrapLine, Normal, Normals, Paragraphs, NoReturn, Soft, Parsed, Said, LastWritten, Continues;
    var r, a, x := Reading([], false, -1), raws[..k], raws[k];
    assert raws[..k + 1] == a + [x];
    WrapLinesSnoc(a, x);
    var q := ReadAll(r, WrapLines(a), false);
    ReadConcat(r, WrapLines(a), WrapLine(x));
    FirstSays(x);
    OneMoreLine(q, WrapLine(x), Normal(x));
    if k > 0 {
      ReadAllSoft(r, WrapLines(a), false);
      assert a[|a| - 1] == raws[k - 1];
    } else {
      NothingWrapped();
      NothingRead(r);
      assert !Continues(false, -1, WrapLine(x)[0]) by { ClosedIsClosed(-1, WrapLine(x)[0]); }
    }
  }

  lemma ClosedIsClosed(depth: int, raw: string)
    ensures !Continues(false, depth, raw)
  {
  }

  lemma FirstSays(raw: string)
    requires NoReturn(raw)
    ensures |WrapLine(raw)| > 1 ==> Said(WrapLine(raw)[0], false) != ""
  {
    hide NoReturn, WrapLine, Said, GivesItself, Whole, Carried, ReadsBack;
    LineExactly(raw);
  }

  lemma NothingWrapped()
    ensures WrapLines([]) == []
  {
  }

  /** Exactness for texts: every part of a text up to a line comes back if and only if each line
      is whole and none that stays open is continued by the line behind it. */
  lemma {:induction false} TextExactly(raws: seq<string>)
    requires forall i | 0 <= i < |raws| :: NoReturn(raws[i])
    ensures ComesBack(raws) <==> TextCarried(raws)
    ensures TextCarried(raws) <==> (forall i | 0 <= i < |raws| :: Whole(raws[i])) && (forall i | 0 <= i < |raws| - 1 :: !OpenTo(raws[i], raws[i + 1]))
    decreases |raws|
  {
    hide NoReturn, ReadAll, WrapLines, Normals, GivesItself, OpenTo, Whole, Said, WrapLine;
    forall i | 0 <= i < |raws|
      ensures GivesItself(raws[i]) <==> Whole(raws[i])
    {
      LineExactly(raws[i]);
    }
    if raws == [] {
      assert raws[..0] == [];
      NothingWrapped();
      NothingRead(Reading([], false, -1));
      NoNormals();
    } else {
      var k := |raws| - 1;
      var a := raws[..k];
      TextExactly(a);
      assert forall n | 0 <= n <= k :: raws[..n] == a[..n];
      assert a[..k] == a && raws[..k + 1] == raws;
      if ComesBack(a) { NextComesBack(raws, k); }
      ComesBackSplits(raws, k);
      CarriedSplits(raws, k);
    }
  }

  lemma NoNormals()
    ensures Normals([]) == []
  {
  }

  lemma ComesBackSplits(raws: seq<string>, k: nat)
    requires |raws| == k + 1
    ensures ComesBack(raws) <==>
      ComesBack(raws[..k]) && ReadAll(Reading([], false, -1), WrapLines(raws[..k + 1]), false).out == Normals(raws[..k + 1])
  {
    hide ReadAll, WrapLines, Normals;
    var a := raws[..k];
    forall n | 0 <= n <= k
      ensures a[..n] == raws[..n]
    {
    }
    if ComesBack(raws) {
      forall n | 0 <= n <= k
        ensures ReadAll(Reading([], false, -1), WrapLines(a[..n]), false).out == Normals(a[..n])
      {
        assert a[..n] == raws[..n];
      }
    }
  }

  lemma CarriedSplits(raws: seq<string>, k: nat)
    requires |raws| == k + 1
    ensures TextCarried(raws) <==> TextCarried(raws[..k]) && GivesItself(raws[k]) && (k > 0 ==> !OpenTo(raws[k - 1], raws[k]))
  {
    hide GivesItself, OpenTo;
    var a := raws[..k];
    if TextCarried(raws) {
      forall i | 0 <= i < |a| - 1
        ensures !OpenTo(a[i], a[i + 1])
      {
        assert !OpenTo(raws[i], raws[i + 1]);
      }
      assert k > 0 ==> !OpenTo(raws[k - 1], raws[k - 1 + 1]);
    }
    if TextCarried(a) && GivesItself(raws[k]) && (k > 0 ==> !OpenTo(raws[k - 1], raws[k])) {
      forall i | 0 <= i < |raws| - 1
        ensures !OpenTo(raws[i], raws[i + 1])
      {
        if i < k - 1 { assert !OpenTo(a[i], a[i + 1]); }
      }
      forall i | 0 <= i < |raws|
        ensures GivesItself(raws[i])
      {
        if i < k { assert GivesItself(a[i]); }
      }
    }
  }

  lemma NothingRead(r: Reading)
    requires !r.soft
    ensures ReadAll(r, [], false) == r
  {
  }

  lemma {:induction false} WrapOneLines(raws: seq<string>)
    requires OneLines(raws)
    ensures OneLines(WrapLines(raws))
  {
    hide WrapLine, OneLine;
    if raws != [] {
      WrapLineOneLines(raws[0]);
      WrapOneLines(raws[1..]);
    }
  }

  lemma {:induction false} WrapLineOneLines(raw: string)
    requires OneLine(raw)
    ensures OneLines(WrapLine(raw))
  {
    hide Trimmed, Markers, Lead, Content, Words, Fill, Emitted, LeftAlone;
    var (line, cr) := CutSuffix(raw, "\r");
    var t := Trimmed(line);
    TrimmedMarkers(line);
    assert OneLine(t) by { assert forall c | c in t :: c in raw; }
    if !LeftAlone(t) {
      PartsOneLine(t);
      WordsLack(Content(t), '\n');
      var pieces := Fill(|Lead(t)|, "", Words(Content(t)));
      FillOneLine(|Lead(t)|, "", Words(Content(t)));
      EmittedOneLine(Lead(t), pieces, if cr then "\r" else "");
    }
  }

  lemma PartsOneLine(t: string)
    requires OneLine(t)
    ensures OneLine(Lead(t)) && OneLine(Content(t))
  {
    hide Markers;
    MarkersAre(t);
    assert forall c | c in Content(t) :: c in t;
  }

  lemma {:induction false} FillOneLine(lead: nat, cur: string, words: seq<string>)
    requires OneLine(cur) && forall w | w in words :: OneLine(w)
    ensures forall p | p in Fill(lead, cur, words) :: OneLine(p)
    decreases |words|
  {
    if words != [] {
      var w, rest := words[0], words[1..];
      assert w in words;
      FillOneLine(lead, w, rest);
      if cur != "" && lead + |cur| + 1 + |w| <= WRAP_COLUMN { FillOneLine(lead, cur + " " + w, rest); }
    }
  }

  lemma {:induction false} EmittedOneLine(lead: string, pieces: seq<string>, cr: string)
    requires pieces != [] && OneLine(lead) && (cr == "" || cr == "\r") && forall p | p in pieces :: OneLine(p)
    ensures OneLines(Emitted(lead, pieces, cr))
    decreases |pieces|
  {
    assert pieces[0] in pieces;
    if |pieces| > 1 {
      EmittedOneLine(lead, pieces[1..], cr);
    }
  }

  /** Flowed round trip: for every text whose lines are whole and none of which stays open into
      the next, quoted or not and with either line end, unflowing what was wrapped gives back
      each line in its normal form. */
  lemma FlowedRoundTrip(text: string)
    requires forall i | 0 <= i < |Split(text)| :: NoReturn(Split(text)[i])
    requires TextCarried(Split(text))
    ensures Unflowed(Wrap(text), false) == Join(Normals(Split(text)), "\n")
  {
    hide NoReturn, TextCarried, Split, WrapLines, ReadAll, Normals;
    var raws := Split(text);
    SplitGivesOneLines(text);
    WrapOneLines(raws);
    WrapsSomething(raws);
    SplitJoin(WrapLines(raws));
    TextExactly(raws);
    assert raws[..|raws|] == raws;
  }

  lemma {:induction false} WrapsSomething(raws: seq<string>)
    requires raws != []
    ensures WrapLines(raws) != []
  {
    hide Fill, Words, Content, Lead, Trimmed;
  }

  // ----- the loops

  function Emit(out: string, line: string, end: string): string {
    out + Stuffed(line) + end
  }

  lemma {:induction false} EmitSoft(out: string, lead: string, pieces: seq<string>, cr: string)
    requires |pieces| > 1
    ensures out + Unlines(Emitted(lead, pieces, cr))
         == Emit(out, lead + pieces[0], " " + (cr + "\n")) + Unlines(Emitted(lead, pieces[1..], cr))
  {
    hide Stuffed;
    var es, p, rest := Emitted(lead, pieces, cr), Stuffed(lead + pieces[0]), Emitted(lead, pieces[1..], cr);
    assert es[0] == p + " " + cr && es[1..] == rest;
    assert out + (p + " " + cr + "\n" + Unlines(rest)) == out + p + (" " + (cr + "\n")) + Unlines(rest);
  }

  lemma {:induction false} EmitLast(out: string, lead: string, p: string, cr: string)
    ensures out + Unlines(Emitted(lead, [p], cr)) == Emit(out, lead + p, cr + "\n")
  {
    hide Stuffed;
    EmitAlone(out, lead + p, cr);
  }

  lemma {:induction false} EmitAlone(out: string, line: string, cr: string)
    ensures out + Unlines([Stuffed(line) + cr]) == Emit(out, line, cr + "\n")
  {
    hide Stuffed;
    var es, l := [Stuffed(line) + cr], Stuffed(line);
    assert es[1..] == [] && Unlines(es) == l + cr + "\n" + "";
    assert out + (l + cr + "\n") == out + l + (cr + "\n");
  }

  /** The inner loop: the words of one line, greedily, with a running line. */
  method WriteFilled(out: string, lead: string, words: seq<string>, cr: string) returns (r: string)
    ensures r == out + Unlines(Emitted(lead, Fill(|lead|, "", words), cr))
  {
    hide Unlines, Emitted, Stuffed, Emit;
    r := out;
    var cur := "";
    ghost var goal := out + Unlines(Emitted(lead, Fill(|lead|, "", words), cr));
    assert words[0..] == words;
    for i := 0 to |words|
      invariant r + Unlines(Emitted(lead, Fill(|lead|, cur, words[i..]), cr)) == goal
    {
      var w := words[i];
      assert words[i..][0] == w && words[i..][1..] == words[i + 1..];
      if cur == "" {
        cur := w;
      } else if |lead| + |cur| + 1 + |w| <= WRAP_COLUMN {
        cur := cur + " " + w;
      } else {
        ghost var pieces := Fill(|lead|, cur, words[i..]);
        assert pieces[0] == cur && pieces[1..] == Fill(|lead|, w, words[i + 1..]);
        EmitSoft(r, lead, pieces, cr);
        r := Emit(r, lead + cur, " " + (cr + "\n"));
        cur := w;
      }
    }
    assert words[|words|..] == [];
    EmitLast(r, lead, cur, cr);
    r := Emit(r, lead + cur, cr + "\n");
  }

  /** The pieces of one typed line, each written with its end. */
  method WriteLine(out: string, raw: string) returns (r: string)
    ensures r == out + Unlines(WrapLine(raw))
  {
    hide Unlines, Emitted, Stuffed, Emit, Fill, Words, CutSuffix, WrapLine;
    var (line, cr) := CutSuffix(raw, "\r");
    var end := if cr then "\r" else "";
    var markers := line[..|line| - |TrimLeft(line, '>')|];
    WrapLineIs(raw);
    TrimmedMarkers(line);
    if line != "-- " && markers == "" {
      line := TrimRight(line, ' ');
    }
    if |line| <= WRAP_COLUMN || " " <= line || "\t" <= line {
      EmitAlone(out, line, end);
      r := Emit(out, line, end + "\n");
    } else {
      var lead, text := "", line;
      if markers != "" {
        lead, text := markers + " ", TrimPrefix(line[|markers|..], ' ');
      }
      r := WriteFilled(out, lead, Words(text), end);
    }
  }

  lemma WrapLineIs(raw: string)
    ensures var (line, cr) := CutSuffix(raw, "\r");
      var end, t := if cr then "\r" else "", Trimmed(line);
      WrapLine(raw) == if LeftAlone(t) then [Stuffed(t) + end]
                       else Emitted(Lead(t), Fill(|Lead(t)|, "", Words(Content(t))), end)
  {
    hide Trimmed, LeftAlone, Lead, Content, Fill, Emitted, Words, CutSuffix;
  }

  /** `wrapText` writes exactly the wrapped text. */
  method WrapText(text: string) returns (r: string)
    ensures r == Wrap(text)
  {
    hide Unlines, WrapLine, Join, Split;
    var raws, out := Split(text), "";
    ghost var all := WrapLines(raws);
    assert raws[0..] == raws;
    assert out + Unlines(all) == Unlines(all);
    for i := 0 to |raws|
      invariant out + Unlines(WrapLines(raws[i..])) == Unlines(all)
    {
      assert raws[i..][0] == raws[i] && raws[i..][1..] == raws[i + 1..];
      WrittenFirst(out, WrapLine(raws[i]), WrapLines(raws[i + 1..]));
      out := WriteLine(out, raws[i]);
    }
    assert raws[|raws|..] == [];
    NothingLeft(out);
    WrapsSomething(raws);
    UnlinesIsJoin(all);
    r := CutSuffix(out, "\n").0;
    CutEnd(Join(all, "\n"));
  }

  lemma {:induction false} WrittenFirst(out: string, a: seq<string>, b: seq<string>)
    ensures out + Unlines(a + b) == out + Unlines(a) + Unlines(b)
  {
    UnlinesConcat(a, b);
  }

  lemma NothingLeft(out: string)
    ensures out + Unlines([]) == out
  {
  }

  lemma CutEnd(s: string)
    ensures CutSuffix(s + "\n", "\n") == (s, true)
  {
    assert (s + "\n")[|s|..] == "\n" && (s + "\n")[..|s|] == s;
  }

  lemma ReadLineAs(r: Reading, raw: string, n: nat, content: string, delSp: bool)
    requires r.soft ==> r.out != []
    requires Parsed(raw) == (n, content)
    ensures var soft := content != "-- " && CutSuffix(content, " ").1;
      var kept := if soft && delSp then CutSuffix(content, " ").0 else content;
      ReadLine(r, raw, delSp) ==
        if r.soft && n == r.depth && content != "-- " then Reading(r.out[|r.out| - 1 := r.out[|r.out| - 1] + kept], soft, n)
        else Reading(r.out + [if n > 0 then Repeated('>', n) + " " + kept else kept], soft, n)
  {
    hide CutSuffix, Repeated, Parsed;
  }

  /** A line without its end, markers and stuffing, and how deep it is quoted. */
  method Unmarked(raw: string) returns (n: nat, content: string)
    ensures (n, content) == Parsed(raw)
  {
    hide CutSuffix, TrimLeft, TrimPrefix;
    var line := CutSuffix(raw, "\r").0;
    content := TrimLeft(line, '>');
    n := |line| - |content|;
    content := TrimPrefix(content, ' ');
  }

  /** `Unflow` gives back exactly the unflowed text, whichever spaces it is told to delete. */
  method Unflow(text: string, delSp: bool) returns (r: string)
    ensures r == Unflowed(text, delSp)
  {
    hide Join, Split, Repeated, Parsed, CutSuffix, ReadLine;
    var raws := Split(text);
    var out: seq<string>, soft, depth: int := [], false, -1;
    ghost var goal := ReadAll(Reading([], false, -1), raws, delSp);
    assert raws[0..] == raws;
    for i := 0 to |raws|
      invariant soft ==> out != []
      invariant ReadAll(Reading(out, soft, depth), raws[i..], delSp) == goal
    {
      ghost var was := Reading(out, soft, depth);
      assert raws[i..][0] == raws[i] && raws[i..][1..] == raws[i + 1..];
      var n, content := Unmarked(raws[i]);
      ReadLineAs(was, raws[i], n, content, delSp);
      var joins := soft && n == depth && content != "-- ";
      soft, depth := content != "-- " && CutSuffix(content, " ").1, n;
      if soft && delSp {
        content := CutSuffix(content, " ").0;
      }
      if joins {
        out := out[|out| - 1 := out[|out| - 1] + content];
      } else {
        if n > 0 {
          content := Repeated('>', n) + " " + content;
        }
        out := out + [content];
      }
      assert Reading(out, soft, depth) == ReadLine(was, raws[i], delSp);
    }
    assert raws[|raws|..] == [];
    r := Join(out, "\n");
  }
}
