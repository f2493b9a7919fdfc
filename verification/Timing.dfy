/** The time spent on a kind of work whose spans may overlap. */
module Timing {
  import opened Sorting

  /** From `start` up to `end`, in the clock's least unit. */
  datatype Span = Span(start: int, end: int)

  predicate Forward(s: Span) {
    s.start <= s.end
  }

  function Instants(start: int, end: int): (r: set<int>)
    ensures forall t :: t in r <==> start <= t < end
    ensures |r| == if start <= end then end - start else 0
    decreases end - start
  {
    if start >= end then {} else Instants(start, end - 1) + {end - 1}
  }

  /** The instants some span covers. */
  ghost predicate CoveredBy(t: int, spans: seq<Span>) {
    exists s | s in spans :: s.start <= t < s.end
  }

  ghost predicate Covers(instants: set<int>, spans: seq<Span>) {
    forall t :: t in instants <==> CoveredBy(t, spans)
  }

  function Covered(spans: seq<Span>): (r: set<int>)
    ensures Covers(r, spans)
  {
    if spans == [] then {}
    else
      assert forall s :: s in spans <==> s == spans[0] || s in spans[1..];
      Instants(spans[0].start, spans[0].end) + Covered(spans[1..])
  }

  function StartsFirst(a: Span, b: Span): bool {
    a.start <= b.start
  }

  ghost predicate ByStart(spans: seq<Span>) {
    Sorted(StartsFirst, spans)
  }

  /** The sweep's state: `done` instants counted before `cur`, and the two make up the prefix. */
  ghost predicate Swept(prefix: seq<Span>, done: set<int>, total: int, cur: Span) {
    && Forward(cur) && |done| == total
    && (forall t | t in done :: t < cur.start)
    && Covers(done + Instants(cur.start, cur.end), prefix)
  }

  lemma CoveredSnoc(prefix: seq<Span>, s: Span, t: int)
    ensures CoveredBy(t, prefix + [s]) <==> CoveredBy(t, prefix) || s.start <= t < s.end
  {
    if CoveredBy(t, prefix) {
      var x :| x in prefix && x.start <= t < x.end;
      assert x in prefix + [s];
    }
    assert s in prefix + [s];
  }

  lemma CoversSnoc(instants: set<int>, prefix: seq<Span>, s: Span)
    requires Covers(instants, prefix)
    ensures Covers(instants + Instants(s.start, s.end), prefix + [s])
  {
    forall t
      ensures t in instants + Instants(s.start, s.end) <==> CoveredBy(t, prefix + [s])
    {
      CoveredSnoc(prefix, s, t);
    }
  }

  /** A span that starts past the current one closes it. */
  lemma SweptPast(prefix: seq<Span>, done: set<int>, total: int, cur: Span, s: Span)
    requires Swept(prefix, done, total, cur) && Forward(s) && s.start > cur.end
    ensures Swept(prefix + [s], done + Instants(cur.start, cur.end), total + (cur.end - cur.start), s)
  {
    hide Covers, Instants;
    var i := Instants(cur.start, cur.end);
    assert done !! i;
    CoversSnoc(done + i, prefix, s);
  }

  /** Any other only moves its end. */
  lemma SweptInto(prefix: seq<Span>, done: set<int>, total: int, cur: Span, s: Span)
    requires Swept(prefix, done, total, cur) && Forward(s) && cur.start <= s.start <= cur.end
    ensures Swept(prefix + [s], done, total, if s.end > cur.end then cur.(end := s.end) else cur)
  {
    hide Covers, Instants;
    var end := if s.end > cur.end then s.end else cur.end;
    var i, j := Instants(cur.start, cur.end), Instants(s.start, s.end);
    CoversSnoc(done + i, prefix, s);
    InstantsJoin(cur.start, cur.end, s.start, s.end);
    UnionAssociates(done, i, j);
    assert (if s.end > cur.end then cur.(end := s.end) else cur) == Span(cur.start, end);
  }

  lemma UnionAssociates(a: set<int>, b: set<int>, c: set<int>)
    ensures a + b + c == a + (b + c)
  {
  }

  lemma InstantsJoin(a: int, b: int, c: int, d: int)
    requires a <= c <= b
    ensures Instants(a, b) + Instants(c, d) == Instants(a, if d > b then d else b)
  {
    hide Instants;
  }

  /** The sweep over spans in the order of their starts, however equal starts are placed. */
  method Sweep(spans: seq<Span>) returns (total: int)
    requires spans != [] && ByStart(spans) && forall s | s in spans :: Forward(s)
    ensures total == |Covered(spans)|
  {
    hide Covers, Swept, Instants, Covered;
    var cur := spans[0];
    total := 0;
    ghost var done: set<int> := {};
    assert Swept(spans[..1], done, 0, cur) by { SweptFirst(spans); }
    for i := 1 to |spans|
      invariant Swept(spans[..i], done, total, cur)
      invariant cur.start <= spans[i - 1].start
    {
      var s := spans[i];
      assert s in spans && StartsFirst(spans[i - 1], s);
      assert spans[..i + 1] == spans[..i] + [s];
      if s.start > cur.end {
        SweptPast(spans[..i], done, total, cur, s);
        done := done + Instants(cur.start, cur.end);
        total := total + (cur.end - cur.start);
        cur := s;
      } else {
        SweptInto(spans[..i], done, total, cur, s);
        if s.end > cur.end {
          cur := cur.(end := s.end);
        }
      }
    }
    assert spans[..|spans|] == spans;
    SweptCounts(spans, done, total, cur);
    total := total + (cur.end - cur.start);
  }

  lemma SweptFirst(spans: seq<Span>)
    requires spans != [] && Forward(spans[0])
    ensures Swept(spans[..1], {}, 0, spans[0])
  {
    var s := spans[0];
    assert Covers({}, []);
    CoversSnoc({}, [], s);
    assert [] + [s] == spans[..1];
  }

  lemma SweptCounts(spans: seq<Span>, done: set<int>, total: int, cur: Span)
    requires Swept(spans, done, total, cur)
    ensures |Covered(spans)| == total + (cur.end - cur.start)
  {
    hide Covered;
    assert Covered(spans) == done + Instants(cur.start, cur.end);
    assert done !! Instants(cur.start, cur.end);
  }

  /** Merged duration is the measure of the union: sorted and swept, the spans give the number
      of instants at least one of them covers. */
  method MergedDuration(spans: seq<Span>) returns (total: int)
    requires spans != [] && forall s | s in spans :: Forward(s)
    ensures total == |Covered(spans)|
  {
    hide Covers;
    var sorted := StableSort(StartsFirst, spans);
    StableSortSorts(StartsFirst, spans, spans[0]);
    assert forall s :: s in sorted <==> s in multiset(sorted);
    assert forall s :: s in spans <==> s in multiset(spans);
    total := Sweep(sorted);
    SameCover(sorted, spans);
  }

  lemma SameCover(a: seq<Span>, b: seq<Span>)
    requires forall s :: s in a <==> s in b
    ensures Covered(a) == Covered(b)
  {
    hide Covered;
    forall t
      ensures t in Covered(a) <==> t in Covered(b)
    {
      assert CoveredBy(t, a) <==> CoveredBy(t, b);
    }
  }
}
