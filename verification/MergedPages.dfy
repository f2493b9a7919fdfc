/** A page of several accounts' rows merged: cut from windows, it is the page of the whole. */
module MergedPages {
  import opened Basics
  import opened Pages
  import opened Sorting

  // ----- one row less

  ghost predicate AllLe<T>(le: (T, T) -> bool, s: seq<T>, x: T) {
    forall i | 0 <= i < |s| :: le(s[i], x)
  }

  ghost predicate LeAll<T>(le: (T, T) -> bool, x: T, s: seq<T>) {
    forall i | 0 <= i < |s| :: le(x, s[i])
  }

  lemma {:induction false} InsertBefore<T(!new)>(le: (T, T) -> bool, y: T, u: seq<T>, v: seq<T>)
    requires TotalPreorder(le) && (v == [] || le(y, v[0]))
    ensures Inserted(le, y, u + v) == Inserted(le, y, u) + v
  {
    if u == [] {
      assert u + v == v && Inserted(le, y, u) == [y];
    } else {
      assert (u + v)[0] == u[0] && (u + v)[1..] == u[1..] + v;
      if le(y, u[0]) {
        assert [y] + (u + v) == [y] + u + v;
      } else {
        InsertBefore(le, y, u[1..], v);
        assert [u[0]] + (Inserted(le, y, u[1..]) + v) == [u[0]] + Inserted(le, y, u[1..]) + v;
      }
    }
  }

  lemma {:induction false} InsertAfter<T(!new)>(le: (T, T) -> bool, y: T, u: seq<T>, v: seq<T>)
    requires forall i | 0 <= i < |u| :: !le(y, u[i])
    ensures Inserted(le, y, u + v) == u + Inserted(le, y, v)
  {
    if u == [] {
      assert u + v == v;
    } else {
      assert (u + v)[0] == u[0] && (u + v)[1..] == u[1..] + v;
      InsertAfter(le, y, u[1..], v);
      assert [u[0]] + (u[1..] + Inserted(le, y, v)) == u + Inserted(le, y, v);
    }
  }

  function CountLe<T>(le: (T, T) -> bool, s: seq<T>, x: T): nat {
    if s == [] then 0 else (if le(s[0], x) then 1 else 0) + CountLe(le, s[1..], x)
  }

  /** How the sort holds row `x`: what stands before it, among that every earlier row that may,
      and what stands behind it; without `x` the rest stays as it is. */
  ghost predicate Around<T>(le: (T, T) -> bool, a: seq<T>, x: T, b: seq<T>, u: seq<T>, v: seq<T>) {
    && StableSort(le, a + [x] + b) == u + [x] + v
    && StableSort(le, a + b) == u + v
    && AllLe(le, u, x) && LeAll(le, x, v)
    && |u| >= CountLe(le, a, x)
  }

  lemma {:induction false} SplitAt<T(!new)>(le: (T, T) -> bool, x: T, s: seq<T>) returns (u: seq<T>, v: seq<T>)
    requires TotalPreorder(le) && Sorted(le, s)
    ensures s == u + v && Inserted(le, x, s) == u + [x] + v
    ensures AllLe(le, u, x) && LeAll(le, x, v)
  {
    if s == [] || le(x, s[0]) {
      u, v := [], s;
      assert s == [] + s && [x] + s == [] + [x] + s;
    } else {
      u, v := SplitAt(le, x, s[1..]);
      assert s == [s[0]] + s[1..];
      assert [s[0]] + (u + [x] + v) == [s[0]] + u + [x] + v;
      u := [s[0]] + u;
    }
  }

  lemma {:induction false} RowAround<T(!new)>(le: (T, T) -> bool, a: seq<T>, x: T, b: seq<T>) returns (u: seq<T>, v: seq<T>)
    requires TotalPreorder(le)
    ensures Around(le, a, x, b, u, v)
    decreases |a|
  {
    hide Inserted;
    if a == [] {
      var s := StableSort(le, b);
      StableSortSorts(le, b, x);
      u, v := SplitAt(le, x, s);
      assert a + [x] + b == [x] + b && ([x] + b)[1..] == b && a + b == b;
    } else {
      u, v := RowAround(le, a[1..], x, b);
      assert (a + [x] + b)[0] == a[0] && (a + [x] + b)[1..] == a[1..] + [x] + b;
      assert (a + b)[0] == a[0] && (a + b)[1..] == a[1..] + b;
      u, v := InsertedAround(le, a[0], x, u, v);
    }
  }

  /** One more row in front leaves `x` where it was, or one further. */
  lemma InsertedAround<T(!new)>(le: (T, T) -> bool, y: T, x: T, u: seq<T>, v: seq<T>) returns (u': seq<T>, v': seq<T>)
    requires TotalPreorder(le) && AllLe(le, u, x) && LeAll(le, x, v)
    ensures Inserted(le, y, u + [x] + v) == u' + [x] + v' && Inserted(le, y, u + v) == u' + v'
    ensures AllLe(le, u', x) && LeAll(le, x, v')
    ensures |u'| == |u| + (if le(y, x) then 1 else 0)
  {
    hide Inserted;
    if le(y, x) {
      u', v' := Inserted(le, y, u), v;
      InsertBefore(le, y, u, [x] + v);
      InsertBefore(le, y, u, v);
      assert u + [x] + v == u + ([x] + v) && u' + [x] + v == u' + ([x] + v);
      InsertedHolds(le, y, u);
      assert forall i | 0 <= i < |u'| :: u'[i] in u';
    } else {
      u', v' := u, Inserted(le, y, v);
      InsertAfter(le, y, u + [x], v);
      InsertAfter(le, y, u, v);
      InsertedHolds(le, y, v);
      assert forall i | 0 <= i < |v'| :: v'[i] in v';
    }
  }

  lemma InsertedHolds<T>(le: (T, T) -> bool, y: T, s: seq<T>)
    ensures forall z | z in Inserted(le, y, s) :: z == y || z in s
  {
    hide Inserted;
    forall z | z in Inserted(le, y, s)
      ensures z == y || z in s
    {
      assert multiset(Inserted(le, y, s))[z] > 0;
    }
  }

  // ----- windows

  function First<T>(s: seq<T>, w: nat): seq<T> {
    if |s| <= w then s else s[..w]
  }

  lemma {:induction false} CountLeTail<T>(le: (T, T) -> bool, pre: seq<T>, s: seq<T>, x: T)
    requires AllLe(le, s, x)
    ensures CountLe(le, pre + s, x) >= |s|
    decreases |pre| + |s|
  {
    if pre != [] {
      assert (pre + s)[1..] == pre[1..] + s;
      CountLeTail(le, pre[1..], s, x);
    } else if s != [] {
      assert pre + s == s;
      assert pre + s[1..] == s[1..];
      CountLeTail(le, pre, s[1..], x);
    } 
  }

  /** Rows of an account behind its first `n` do not reach the first `w <= n` of the merge. */
  lemma {:induction false} TailDoesNotShow<T(!new)>(le: (T, T) -> bool, pre: seq<T>, rows: seq<T>, post: seq<T>, n: nat, w: nat)
    requires TotalPreorder(le) && Sorted(le, rows) && w <= n <= |rows|
    ensures First(StableSort(le, pre + rows + post), w) == First(StableSort(le, pre + rows[..n] + post), w)
    decreases |rows|
  {
    hide StableSort;
    if n < |rows| {
      var k := |rows| - 1;
      var x, fewer := rows[k], rows[..k];
      assert rows == fewer + [x];
      assert pre + rows + post == (pre + fewer) + [x] + post;
      CountLeTail(le, pre, fewer, x);
      var u, v := RowAround(le, pre + fewer, x, post);
      assert First(u + [x] + v, w) == First(u + v, w);
      TailDoesNotShow(le, pre, fewer, post, n, w);
      assert fewer[..n] == rows[..n];
    } else {
      assert rows[..n] == rows;
    }
  }

  /** What an account gives of its rows when asked for `n`. */
  function Cuts<T>(accounts: seq<seq<T>>, ns: seq<nat>): (cuts: seq<seq<T>>)
    requires |ns| == |accounts|
  {
    seq(|accounts|, i requires 0 <= i < |accounts| => First(accounts[i], ns[i]))
  }

  lemma AccountSuffices<T(!new)>(le: (T, T) -> bool, pre: seq<T>, rows: seq<T>, post: seq<T>, n: nat, w: nat)
    requires TotalPreorder(le) && Sorted(le, rows) && w <= n
    ensures First(StableSort(le, pre + (rows + post)), w) == First(StableSort(le, pre + First(rows, n) + post), w)
  {
    hide StableSort, Sorted;
    assert pre + rows + post == pre + (rows + post);
    if n < |rows| { TailDoesNotShow(le, pre, rows, post, n, w); }
  }

  lemma FlattenedCuts<T>(accounts: seq<seq<T>>, ns: seq<nat>, pre: seq<T>)
    requires |ns| == |accounts| && accounts != []
    ensures var cut, more := First(accounts[0], ns[0]), Flattened(Cuts(accounts[1..], ns[1..]));
      Flattened(Cuts(accounts, ns)) == cut + more && pre + Flattened(Cuts(accounts, ns)) == pre + cut + more
  {
    var cuts := Cuts(accounts, ns);
    assert cuts[0] == First(accounts[0], ns[0]) && cuts[1..] == Cuts(accounts[1..], ns[1..]);
    assert pre + (cuts[0] + Flattened(cuts[1..])) == pre + cuts[0] + Flattened(cuts[1..]);
  }

  lemma {:induction false} WindowsSuffice<T(!new)>(le: (T, T) -> bool, pre: seq<T>, accounts: seq<seq<T>>, ns: seq<nat>, w: nat)
    requires TotalPreorder(le) && |ns| == |accounts|
    requires forall i | 0 <= i < |accounts| :: Sorted(le, accounts[i]) && w <= ns[i]
    ensures First(StableSort(le, pre + Flattened(accounts)), w)
         == First(StableSort(le, pre + Flattened(Cuts(accounts, ns))), w)
    ensures |Flattened(Cuts(accounts, ns))| <= |Flattened(accounts)|
    decreases |accounts|
  {
    hide StableSort, Sorted, Cuts;
    if accounts == [] {
      assert Cuts(accounts, ns) == [] by { NoCuts(accounts, ns); }
    } else {
      var rest := accounts[1..];
      var cut := First(accounts[0], ns[0]);
      FlattenedCuts(accounts, ns, pre);
      AccountSuffices(le, pre, accounts[0], Flattened(rest), ns[0], w);
      WindowsSuffice(le, pre + cut, rest, ns[1..], w);
    }
  }

  lemma NoCuts<T>(accounts: seq<seq<T>>, ns: seq<nat>)
    requires |ns| == |accounts| == 0
    ensures Cuts(accounts, ns) == []
  {
  }

  /** The rows of the page, out of the rows a window holds and the count of all. */
  function CutPage<T>(rows: seq<T>, total: nat, page: Page): seq<T>
    requires page.size > 0
  {
    var (from, to) := Rows(Within(page, total), |rows|);
    rows[from..to]
  }

  /** What page `page.number` of a list is, by the list's own rows: the asked one where it has
      rows, the last that has any otherwise, and of it every row in its place. */
  ghost predicate IsPage<T>(shown: seq<T>, all: seq<T>, page: Page)
    requires page.size > 0
  {
    exists n: nat :: RowsOf(shown, all, n * page.size, page.size) && Shows(page, |all|, n)
  }

  ghost predicate Shows(page: Page, total: nat, n: nat) {
    if page.number * page.size < total then n == page.number
    else if total == 0 then n == 0
    else n * page.size < total <= n * page.size + page.size
  }

  ghost predicate RowsOf<T>(shown: seq<T>, all: seq<T>, from: nat, size: nat) {
    && |shown| == (if from + size <= |all| then size else if from <= |all| then |all| - from else 0)
    && forall k | 0 <= k < |shown| :: shown[k] == all[from + k]
  }

  lemma CutIsPage<T>(all: seq<T>, page: Page)
    requires page.size > 0
    ensures IsPage(CutPage(all, |all|, page), all, page)
  {
    hide Within;
    var p := Within(page, |all|);
    WithinIsNearest(page, |all|);
    assert (p.number + 1) * page.size == p.number * page.size + page.size;
    assert RowsOf(CutPage(all, |all|, page), all, p.number * page.size, page.size);
    assert Shows(page, |all|, p.number);
  }

  /** There is one such page. */
  lemma PageIsOne<T>(a: seq<T>, b: seq<T>, all: seq<T>, page: Page)
    requires page.size > 0 && IsPage(a, all, page) && IsPage(b, all, page)
    ensures a == b
  {
    hide RowsOf, Shows;
    var m: nat :| RowsOf(a, all, m * page.size, page.size) && Shows(page, |all|, m);
    var n: nat :| RowsOf(b, all, n * page.size, page.size) && Shows(page, |all|, n);
    ShowsOne(page, |all|, m, n);
    SameRows(a, b, all, m * page.size, page.size);
  }

  lemma ShowsOne(page: Page, total: nat, m: nat, n: nat)
    requires page.size > 0 && Shows(page, total, m) && Shows(page, total, n)
    ensures m == n
  {
    assert (m + 1) * page.size == m * page.size + page.size;
    assert (n + 1) * page.size == n * page.size + page.size;
    if m < n {
      ProductMonotone(m + 1, n, page.size);
    } else if n < m {
      ProductMonotone(n + 1, m, page.size);
    }
  }

  lemma SameRows<T>(a: seq<T>, b: seq<T>, all: seq<T>, from: nat, size: nat)
    requires RowsOf(a, all, from, size) && RowsOf(b, all, from, size)
    ensures a == b
  {
  }

  /** The pages one behind the other, up to one that reaches the end, are the list. */
  lemma {:induction false} PagesMakeAll<T>(pages: seq<seq<T>>, all: seq<T>, size: nat)
    requires size > 0
    requires forall i | 0 <= i < |pages| :: i * size < |all| && IsPage(pages[i], all, Page(i, size))
    ensures Flattened(pages) == if |pages| * size <= |all| then all[..|pages| * size] else all
    decreases |pages|
  {
    hide IsPage;
    if pages != [] {
      var n := |pages| - 1;
      var before := pages[..n];
      PagesMakeAll(before, all, size);
      assert pages == before + [pages[n]];
      FlattenedSnoc(before, pages[n]);
      assert (n + 1) * size == n * size + size;
      assert RowsOf(pages[n], all, n * size, size) by { PageRows(pages[n], all, Page(n, size)); }
      if n * size + size <= |all| {
        assert all[..n * size] + pages[n] == all[..n * size + size];
      } else {
        assert all[..n * size] + pages[n] == all;
      }
    }
  }

  lemma PageRows<T>(shown: seq<T>, all: seq<T>, page: Page)
    requires page.size > 0 && page.number * page.size < |all| && IsPage(shown, all, page)
    ensures RowsOf(shown, all, page.number * page.size, page.size)
  {
  }

  lemma PageEnds(page: Page, total: nat)
    requires page.size > 0
    ensures var p := Within(page, total); p.size == page.size && p.number * p.size + p.size <= Window(page)
  {
    hide Within;
    var p := Within(page, total);
    WithinIsNearest(page, total);
    ProductMonotone(p.number + 1, page.number + 1, page.size);
    assert (p.number + 1) * p.size == p.number * p.size + p.size;
  }

  lemma RowsInside(p: Page, total: nat)
    requires p.number * p.size + p.size <= total
    ensures Rows(p, total) == (p.number * p.size, p.number * p.size + p.size)
  {
  }

  lemma SameCut<T>(a: seq<T>, b: seq<T>, total: nat, page: Page, w: nat)
    requires page.size > 0 && w >= Window(page) && |b| <= |a| && First(a, w) == First(b, w)
    ensures CutPage(a, total, page) == CutPage(b, total, page)
  {
    hide Within, Window, Rows;
    if |b| < w {
      assert a == b;
    } else {
      var p := Within(page, total);
      PageEnds(page, total);
      RowsInside(p, |a|);
      RowsInside(p, |b|);
      SameSlice(a, b, Rows(p, |b|).0, Rows(p, |b|).1, w);
    }
  }

  lemma SameSlice<T>(a: seq<T>, b: seq<T>, from: nat, to: nat, w: nat)
    requires from <= to <= w <= |a| && w <= |b| && a[..w] == b[..w]
    ensures a[from..to] == b[from..to]
  {
    forall i | 0 <= i < to - from
      ensures a[from..to][i] == b[from..to][i]
    {
      assert a[..w][from + i] == b[..w][from + i];
    }
  }

  /** Merged page exactness: where each account gives at least the rows up to the page's end,
      or all it has, the page cut from the merged windows is that page of all rows sorted. */
  lemma PageIsExact<T(!new)>(le: (T, T) -> bool, accounts: seq<seq<T>>, ns: seq<nat>, page: Page)
    requires TotalPreorder(le) && |ns| == |accounts| && page.size > 0
    requires forall i | 0 <= i < |accounts| :: Sorted(le, accounts[i]) && (page.number + 1) * page.size <= ns[i]
    ensures IsPage(CutPage(StableSort(le, Flattened(Cuts(accounts, ns))), |Flattened(accounts)|, page),
                   StableSort(le, Flattened(accounts)), page)
  {
    hide StableSort, Sorted, Cuts, CutPage, IsPage, Flattened;
    var all, some := Flattened(accounts), Flattened(Cuts(accounts, ns));
    WindowsSuffice(le, [], accounts, ns, Window(page));
    assert [] + all == all && [] + some == some;
    SameCut(StableSort(le, all), StableSort(le, some), |all|, page, Window(page));
    CutIsPage(StableSort(le, all), page);
  }

  // ----- the window asked for

  function Pow2(n: nat): (r: nat)
    ensures r >= 1
  {
    if n == 0 then 1 else 2 * Pow2(n - 1)
  }

  /** The least power of two that holds `n` pages, in `doublings` doublings. */
  ghost predicate Rounds(pages: nat, doublings: nat, n: nat) {
    pages == Pow2(doublings) && n <= pages && (pages == 1 || pages < 2 * n)
  }

  /** The doublings that reach `n` pages. */
  function Doublings(n: nat): (d: nat)
    requires n >= 1
    ensures Rounds(Pow2(d), d, n)
  {
    if n == 1 then 0 else Doublings((n + 1) / 2) + 1
  }

  lemma {:induction false} Pow2Grows(a: nat, b: nat)
    requires a < b
    ensures 2 * Pow2(a) <= Pow2(b)
    decreases b
  {
    if a < b - 1 { Pow2Grows(a, b - 1); }
  }

  lemma RoundsOnce(a: nat, b: nat, n: nat)
    requires n >= 1 && Rounds(Pow2(a), a, n) && Rounds(Pow2(b), b, n)
    ensures a == b
  {
    if a < b { Pow2Grows(a, b); }
    if b < a { Pow2Grows(b, a); }
  }

  function HeldRows(page: Page, have: nat): nat {
    Max(Pow2(Doublings(page.number + 1)) * page.size, have)
  }

  lemma HeldReaches(page: Page, have: nat)
    ensures HeldRows(page, have) >= Window(page)
  {
    ProductMonotone(page.number + 1, Pow2(Doublings(page.number + 1)), page.size);
  }

  /** The window asked of an account: it reaches the page's end and what is already held, and
      is less than twice the need when nothing larger is held. */
  method Held(page: Page, have: nat) returns (rows: nat)
    requires page.size > 0
    ensures rows == HeldRows(page, have)
    ensures rows >= (page.number + 1) * page.size && rows >= have
    ensures rows == have || rows < 2 * ((page.number + 1) * page.size)
  {
    hide Doublings;
    var need, pages := page.number + 1, 1;
    ghost var doublings := 0;
    while pages < need
      invariant pages == Pow2(doublings) && (pages == 1 || pages < 2 * need)
      decreases need - pages
    {
      pages := pages * 2;
      doublings := doublings + 1;
    }
    RoundsOnce(doublings, Doublings(need), need);
    ProductMonotone(need, pages, page.size);
    ProductMonotone(pages, 2 * need - 1, page.size);
    assert (2 * need - 1) * page.size == 2 * Window(page) - page.size;
    rows := Max(pages * page.size, have);
  }

  /** A walk over the first `n` pages: how often it fetches, which is when a page's window is
      more than the walk holds, and what it then holds. */
  function Walk(n: nat, size: nat): (nat, nat) {
    if n == 0 then (0, 0) else
      var (fetches, have) := Walk(n - 1, size);
      var rows := HeldRows(Page(n - 1, size), have);
      (if rows > have then fetches + 1 else fetches, rows)
  }

  lemma DoublingsStep(n: nat)
    requires n >= 2
    ensures Doublings(n - 1) <= Doublings(n) <= Doublings(n - 1) + 1
  {
    var a, b := Doublings(n - 1), Doublings(n);
    if b < a { Pow2Grows(b, a); }
    if a + 1 < b { Pow2Grows(a + 1, b); }
  }

  lemma TwiceAsMany(pages: nat, size: nat)
    requires pages >= 1 && size >= 1
    ensures 0 < pages * size < (2 * pages) * size
  {
    ProductMonotone(1, pages, size);
    assert (2 * pages) * size == 2 * (pages * size);
  }

  lemma WalkStep(n: nat, size: nat, have: nat)
    requires n >= 2 && size >= 1 && have == Pow2(Doublings(n - 1)) * size
    ensures HeldRows(Page(n - 1, size), have) == Pow2(Doublings(n)) * size
    ensures Pow2(Doublings(n)) * size > have <==> Doublings(n) == Doublings(n - 1) + 1
  {
    hide Doublings;
    DoublingsStep(n);
    TwiceAsMany(Pow2(Doublings(n - 1)), size);
  }

  lemma {:induction false} WalkDoubles(n: nat, size: nat)
    requires n >= 1 && size >= 1
    ensures Walk(n, size) == (Doublings(n) + 1, Pow2(Doublings(n)) * size)
  {
    if n == 1 {
      assert Walk(0, size) == (0, 0);
    } else {
      hide Doublings, Pow2, HeldRows;
      WalkDoubles(n - 1, size);
      DoublingsStep(n);
      WalkStep(n, size, Walk(n - 1, size).1);
    }
  }

  /** A walk through `n` pages fetches a logarithmic number of times. */
  lemma WalkFetchesRarely(n: nat, size: nat)
    requires n >= 1 && size >= 1
    ensures var fetches := Walk(n, size).0;
      fetches >= 1 && n <= Pow2(fetches - 1) && (n == 1 || Pow2(fetches - 1) < 2 * n)
  {
    hide Doublings, Walk;
    WalkDoubles(n, size);
  }

  // ----- gathering the accounts

  /** What an account's read comes to: rows with the folder's count, no such folder, a server
      that does not answer, or another error. */
  datatype Answer<T> = Answered(rows: seq<T>, total: nat) | NoFolder | Silent | Broken

  datatype Gathered<T> = Merged(rows: seq<T>, total: nat, down: seq<nat>) | Failed(account: nat)

  function Given<T>(answer: Answer<T>): seq<T> {
    if answer.Answered? then answer.rows else []
  }

  function AllGiven<T>(answers: seq<Answer<T>>): seq<seq<T>> {
    seq(|answers|, i requires 0 <= i < |answers| => Given(answers[i]))
  }

  function Total<T>(answers: seq<Answer<T>>): nat {
    if answers == [] then 0
    else Total(answers[..|answers| - 1]) + (if answers[|answers| - 1].Answered? then answers[|answers| - 1].total else 0)
  }

  /** The accounts whose servers were silent, among the first `n`. */
  function Down<T>(answers: seq<Answer<T>>, n: nat): (down: seq<nat>)
    requires n <= |answers|
    ensures |down| <= n
    ensures forall i | 0 <= i < |answers| :: i in down <==> i < n && answers[i].Silent?
    ensures |down| == n <==> forall i | 0 <= i < n :: answers[i].Silent?
  {
    if n == 0 then [] else if answers[n - 1].Silent? then Down(answers, n - 1) + [n - 1] else Down(answers, n - 1)
  }

  lemma {:induction false} FlattenedSnoc<T>(ss: seq<seq<T>>, s: seq<T>)
    ensures Flattened(ss + [s]) == Flattened(ss) + s
  {
    if ss == [] {
      assert ss + [s] == [s] && [s][1..] == [] && Flattened([s]) == s + [];
    } else {
      assert (ss + [s])[1..] == ss[1..] + [s];
      FlattenedSnoc(ss[1..], s);
    }
  }

  lemma NothingGiven<T>(answers: seq<Answer<T>>)
    ensures Flattened(AllGiven(answers[..0])) == [] && Total(answers[..0]) == 0
  {
  }

  lemma {:induction false} GivenStep<T>(answers: seq<Answer<T>>, i: nat)
    requires i < |answers|
    ensures Flattened(AllGiven(answers[..i + 1])) == Flattened(AllGiven(answers[..i])) + Given(answers[i])
    ensures Total(answers[..i + 1]) == Total(answers[..i]) + (if answers[i].Answered? then answers[i].total else 0)
  {
    assert answers[..i + 1][..i] == answers[..i];
    assert AllGiven(answers[..i + 1]) == AllGiven(answers[..i]) + [Given(answers[i])];
    FlattenedSnoc(AllGiven(answers[..i]), Given(answers[i]));
  }

  /** The answers' rows in the accounts' order, and their counts. */
  method Absorb<T>(answers: seq<Answer<T>>) returns (rows: seq<T>, total: nat)
    ensures rows == Flattened(AllGiven(answers)) && total == Total(answers)
  {
    hide Flattened, Total, AllGiven;
    rows, total := [], 0;
    NothingGiven(answers);
    for i := 0 to |answers|
      invariant rows == Flattened(AllGiven(answers[..i]))
      invariant total == Total(answers[..i])
    {
      GivenStep(answers, i);
      if answers[i].Answered? {
        rows, total := rows + answers[i].rows, total + answers[i].total;
      }
    }
    assert answers[..|answers|] == answers;
  }

  /** Every account is asked; one that is silent costs its rows, unless all are, and any other
      error is the first of its kind. */
  method Gather<T>(le: (T, T) -> bool, answers: seq<Answer<T>>) returns (r: Gathered<T>)
    requires answers != []
    ensures r.Merged? <==> (forall i | 0 <= i < |answers| :: !answers[i].Broken?)
                           && exists i | 0 <= i < |answers| :: !answers[i].Silent?
    ensures r.Merged? ==> r == Merged(StableSort(le, Flattened(AllGiven(answers))), Total(answers), Down(answers, |answers|))
    ensures r.Failed? ==> r.account < |answers|
    ensures r.Failed? && answers[r.account].Broken? ==> forall i | 0 <= i < r.account :: !answers[i].Broken?
    ensures r.Failed? && !answers[r.account].Broken? ==> r.account == 0 && forall i | 0 <= i < |answers| :: answers[i].Silent?
  {
    hide StableSort, Flattened, Total, AllGiven;
    var rows, total := Absorb(answers);
    var down: seq<nat> := [];
    for i := 0 to |answers|
      invariant down == Down(answers, i)
      invariant forall k | 0 <= k < i :: !answers[k].Broken?
    {
      if answers[i].Silent? {
        down := down + [i];
      } else if answers[i].Broken? {
        return Failed(i);
      }
    }
    if |down| == |answers| {
      return Failed(0);
    }
    return Merged(StableSort(le, rows), total, down);
  }

  /** An account answered for: its first rows and its count, or nothing where it has no say. */
  ghost predicate Answers<T>(le: (T, T) -> bool, answer: Answer<T>, account: seq<T>, n: nat) {
    && Sorted(le, account)
    && if answer.Answered? then answer == Answered(First(account, n), |account|) else account == []
  }

  lemma {:induction false} TotalCounts<T>(le: (T, T) -> bool, answers: seq<Answer<T>>, accounts: seq<seq<T>>, ns: seq<nat>)
    requires |answers| == |accounts| == |ns|
    requires forall i | 0 <= i < |answers| :: Answers(le, answers[i], accounts[i], ns[i])
    ensures Total(answers) == |Flattened(accounts)|
    decreases |answers|
  {
    hide Sorted;
    if answers != [] {
      var k := |answers| - 1;
      TotalCounts(le, answers[..k], accounts[..k], ns[..k]);
      assert accounts == accounts[..k] + [accounts[k]];
      FlattenedSnoc(accounts[..k], accounts[k]);
      assert Answers(le, answers[k], accounts[k], ns[k]);
    }
  }

  /** The page shown is the page of all rows of the accounts that answered, ties included. */
  lemma GatheredPageIsExact<T(!new)>(le: (T, T) -> bool, answers: seq<Answer<T>>, accounts: seq<seq<T>>, ns: seq<nat>, page: Page)
    requires TotalPreorder(le) && page.size > 0 && |answers| == |accounts| == |ns|
    requires forall i | 0 <= i < |answers| :: Answers(le, answers[i], accounts[i], ns[i]) && (page.number + 1) * page.size <= ns[i]
    ensures IsPage(CutPage(StableSort(le, Flattened(AllGiven(answers))), Total(answers), page),
                   StableSort(le, Flattened(accounts)), page)
  {
    hide StableSort, Sorted, CutPage, IsPage, Flattened, Total;
    assert AllGiven(answers) == Cuts(accounts, ns) by {
      forall i | 0 <= i < |answers|
        ensures Given(answers[i]) == First(accounts[i], ns[i])
      {
        assert Answers(le, answers[i], accounts[i], ns[i]);
      }
    }
    TotalCounts(le, answers, accounts, ns);
    assert forall i | 0 <= i < |accounts| :: Answers(le, answers[i], accounts[i], ns[i]);
    PageIsExact(le, accounts, ns, page);
  }

  /** Whatever each account already holds, the windows asked for make the page exact. */
  lemma HeldPageIsExact<T(!new)>(le: (T, T) -> bool, answers: seq<Answer<T>>, accounts: seq<seq<T>>, haves: seq<nat>, page: Page)
    requires TotalPreorder(le) && page.size > 0 && |answers| == |accounts| == |haves|
    requires forall i | 0 <= i < |answers| :: Answers(le, answers[i], accounts[i], HeldRows(page, haves[i]))
    ensures IsPage(CutPage(StableSort(le, Flattened(AllGiven(answers))), Total(answers), page),
                   StableSort(le, Flattened(accounts)), page)
  {
    hide StableSort, Answers, CutPage, IsPage, Flattened, Total, AllGiven, HeldRows;
    var ns := seq(|haves|, i requires 0 <= i < |haves| => HeldRows(page, haves[i]));
    forall i | 0 <= i < |answers|
      ensures Answers(le, answers[i], accounts[i], ns[i]) && (page.number + 1) * page.size <= ns[i]
    {
      HeldReaches(page, haves[i]);
    }
    GatheredPageIsExact(le, answers, accounts, ns, page);
  }
}
