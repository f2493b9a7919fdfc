/** The names of views: what a change reaches, and which order a view's pages are cut from. */
module ListingViews {
  import opened Basics

  const SEP: string := "\0"

  /** What a change may touch: one folder, or all an account holds. */
  datatype Scope = Folder(name: string) | Everything

  /** A merged view's role hides which folders it maps to, so it shows them all. */
  predicate Shows(view: string, folder: string) {
    view == folder || folder + SEP <= view || "#" <= view
  }

  predicate Touches(s: Scope, view: string) {
    s.Everything? || Shows(view, s.name)
  }

  /** The separator cannot occur in a folder's name. */
  predicate FolderName(folder: string) {
    SEP[0] !in folder
  }

  function Joined(parts: seq<string>): string
    requires parts != []
  {
    if |parts| == 1 then parts[0] else parts[0] + SEP + Joined(parts[1..])
  }

  /** `days` is what relative dates in the query stand for today. */
  function ListingView(folder: string, query: string, view: string, sortKey: string, sortDir: string, days: string): string {
    if query == "" && view == "" && sortKey == "" && sortDir == "" then folder
    else Joined([folder, query, view, sortKey, sortDir, days])
  }

  function OrderView(folder: string, query: string, view: string, sortKey: string, reverse: bool, days: string): string {
    Joined([folder, query, view, if sortKey == "" then "date" else sortKey, if reverse then "desc" else "asc", days])
  }

  function ListingPage(view: string, number: string, size: string): string {
    if number == "0" then view else view + SEP + "page=" + number + "&size=" + size
  }

  /** Whatever is kept for a folder, under any query, order or page, a change of it reaches. */
  lemma ViewsShowTheirFolder(folder: string, query: string, view: string, sortKey: string, sortDir: string,
                             reverse: bool, days: string, number: string, size: string)
    ensures var l := ListingView(folder, query, view, sortKey, sortDir, days);
            Shows(l, folder) && Shows(ListingPage(l, number, size), folder)
    ensures Shows(OrderView(folder, query, view, sortKey, reverse, days), folder)
  {
    var l := ListingView(folder, query, view, sortKey, sortDir, days);
    var key := if sortKey == "" then "date" else sortKey;
    JoinedStarts(folder, [query, view, sortKey, sortDir, days]);
    JoinedStarts(folder, [query, view, key, if reverse then "desc" else "asc", days]);
    assert [folder] + [query, view, sortKey, sortDir, days] == [folder, query, view, sortKey, sortDir, days];
    assert [folder] + [query, view, key, if reverse then "desc" else "asc", days]
        == [folder, query, view, key, if reverse then "desc" else "asc", days];
    if number != "0" {
      assert ListingPage(l, number, size) == l + (SEP + "page=" + number + "&size=" + size);
      if l == folder {
        assert ListingPage(l, number, size) == (folder + SEP) + ("page=" + number + "&size=" + size);
      }
    }
  }

  lemma JoinedStarts(first: string, rest: seq<string>)
    requires rest != []
    ensures first + SEP <= Joined([first] + rest)
  {
    assert ([first] + rest)[1..] == rest;
  }

  // ----- what a view's name tells

  /** A name cut at its separators. */
  function Parts(s: string): (ps: seq<string>)
    ensures ps != []
  {
    if s == "" then [""]
    else if s[0] == SEP[0] then [""] + Parts(s[1..])
    else var ps := Parts(s[1..]); [[s[0]] + ps[0]] + ps[1..]
  }

  /** A merged view's name starts with a mark no account's folder need have. */
  predicate Merged(view: string) {
    "#" <= view
  }

  /** The folder a view's rows come from: the one it names, or for a merged view whichever its
      role stands for. */
  predicate Resolves(view: string, folder: string) {
    FolderName(folder) && (Merged(view) || Parts(view)[0] == folder)
  }

  /** What is asked of a folder: search, filter, sort key and direction, and the one conversation
      to show, if any. */
  datatype Spec = Spec(query: string, filter: string, sortKey: string, sortDir: string, thread: string)

  predicate Descends(sortKey: string) {
    sortKey in ["", "date", "starred", "size"]
  }

  function Reverse(sortKey: string, sortDir: string): bool {
    if sortDir != "" then sortDir == "desc" else Descends(sortKey)
  }

  const THREAD := "thread"
  const ACCOUNT := "account"

  predicate Ordered(query: string, filter: string, sortKey: string, sortDir: string) {
    query != "" || filter != "" || (sortKey != ACCOUNT && (sortKey != "" || sortDir != ""))
  }

  /** The order a page of the folder is cut from, by the branches of the fetch: none for one
      conversation and for the folder as it stands; `threads` says whether the server threads. */
  function FetchOrder(folder: string, s: Spec, threads: bool, days: string): Option<string> {
    if s.thread != "" && threads then None
    else if s.sortKey == THREAD && threads then Some(OrderView(folder, s.query, s.filter, THREAD, true, days))
    else if Ordered(s.query, s.filter, s.sortKey, s.sortDir) then
      var (key, reverse) := if s.sortKey == ACCOUNT then ("", true) else (s.sortKey, Reverse(s.sortKey, s.sortDir));
      Some(OrderView(folder, s.query, s.filter, key, reverse, days))
    else None
  }

  const THREAD_MARK := "thread="

  /** The name of a view: of a folder or a role, of a conversation in it, of a page of that. */
  function ViewName(base: string, s: Spec, days: string, number: string, size: string): string {
    var view := ListingView(base, s.query, s.filter, s.sortKey, s.sortDir, days);
    ListingPage(if s.thread == "" then view else view + SEP + (THREAD_MARK + s.thread), number, size)
  }

  /** What is asked, as the name tells it. */
  function SpecOf(view: string): Spec {
    var ps := Parts(view);
    var named := |ps| >= 6;
    var rest := if named then ps[6..] else ps[1..];
    var thread := if rest != [] && THREAD_MARK <= rest[0] then rest[0][|THREAD_MARK|..] else "";
    if named then Spec(ps[1], ps[2], ps[3], ps[4], thread) else Spec("", "", "", "", thread)
  }

  /** The order a page of the view is cut from. */
  function OrderOf(view: string, folder: string, threads: bool, days: string): Option<string> {
    FetchOrder(folder, SpecOf(view), threads, days)
  }

  /** Whether pages of the view may be cut from an order. */
  predicate OrderedView(view: string) {
    var s := SpecOf(view);
    Ordered(s.query, s.filter, s.sortKey, s.sortDir)
  }

  lemma OrderIsOfFolder(view: string, folder: string, threads: bool, days: string)
    ensures var o := OrderOf(view, folder, threads, days);
      && (o.Some? ==> OrderedView(view) && folder + SEP <= o.value)
      && (OrderedView(view) && (!threads || SpecOf(view).thread == "") ==> o.Some?)
  {
    hide SpecOf;
    var s := SpecOf(view);
    OrderStarts(folder, s.query, s.filter, THREAD, true, days);
    OrderStarts(folder, s.query, s.filter, "", true, days);
    OrderStarts(folder, s.query, s.filter, s.sortKey, Reverse(s.sortKey, s.sortDir), days);
  }

  lemma OrderStarts(folder: string, query: string, filter: string, sortKey: string, reverse: bool, days: string)
    ensures folder + SEP <= OrderView(folder, query, filter, sortKey, reverse, days)
  {
    var rest := [query, filter, if sortKey == "" then "date" else sortKey, if reverse then "desc" else "asc", days];
    JoinedStarts(folder, rest);
    assert [folder] + rest == [folder, rest[0], rest[1], rest[2], rest[3], rest[4]];
  }

  lemma {:induction false} PartsOne(p: string)
    requires FolderName(p)
    ensures Parts(p) == [p]
  {
    if p != "" {
      assert p[0] in p && forall c | c in p[1..] :: c in p;
      PartsOne(p[1..]);
      assert [p[0]] + p[1..] == p;
    }
  }

  /** A name is its first part, or starts with it. */
  lemma {:induction false} PartsStart(view: string)
    ensures var p := Parts(view)[0]; FolderName(p) && (view == p || p + SEP <= view)
  {
    if view != "" && view[0] == SEP[0] {
      assert "" + SEP <= view;
    } else if view != "" {
      PartsStart(view[1..]);
      var first, p := [view[0]], Parts(view[1..])[0];
      assert view == first + view[1..];
      assert first + p + SEP == first + (p + SEP);
    }
  }

  lemma {:induction false} PartsFirst(p: string, rest: string)
    requires FolderName(p)
    ensures Parts(p + SEP + rest) == [p] + Parts(rest)
  {
    if p == "" {
      assert p + SEP + rest == SEP + rest && (SEP + rest)[1..] == rest;
    } else {
      assert p[0] in p && forall c | c in p[1..] :: c in p;
      PartsFirst(p[1..], rest);
      assert (p + SEP + rest)[1..] == p[1..] + SEP + rest;
      assert [p[0]] + p[1..] == p;
    }
  }

  lemma {:induction false} PartsJoined(ps: seq<string>)
    requires ps != [] && forall i | 0 <= i < |ps| :: FolderName(ps[i])
    ensures Parts(Joined(ps)) == ps
  {
    hide FolderName, Parts;
    if |ps| == 1 {
      PartsOne(ps[0]);
    } else {
      PartsJoined(ps[1..]);
      PartsFirst(ps[0], Joined(ps[1..]));
    }
  }

  lemma {:induction false} JoinedMore(ps: seq<string>, p: string)
    requires ps != []
    ensures Joined(ps + [p]) == Joined(ps) + SEP + p
  {
    assert (ps + [p])[0] == ps[0] && (ps + [p])[1..] == ps[1..] + [p];
    if |ps| > 1 {
      JoinedMore(ps[1..], p);
    } else {
      assert ps[1..] + [p] == [p];
    }
  }

  /** The parts of a view's name before those of a conversation and a page. */
  function HeadParts(base: string, s: Spec, days: string): (ps: seq<string>)
    ensures ps != [] && ps[0] == base
  {
    if s.query == "" && s.filter == "" && s.sortKey == "" && s.sortDir == "" then [base]
    else [base, s.query, s.filter, s.sortKey, s.sortDir, days]
  }

  /** All parts of a view's name. */
  function NameParts(base: string, s: Spec, days: string, number: string, size: string): (ps: seq<string>)
    ensures ps != [] && ps[0] == base
  {
    HeadParts(base, s, days)
    + (if s.thread == "" then [] else [THREAD_MARK + s.thread])
    + (if number == "0" then [] else ["page=" + number + "&size=" + size])
  }

  lemma {:induction false} NameIsJoined(base: string, s: Spec, days: string, number: string, size: string)
    ensures ViewName(base, s, days, number, size) == Joined(NameParts(base, s, days, number, size))
  {
    var head, thread := HeadParts(base, s, days), THREAD_MARK + s.thread;
    var view := Joined(head);
    assert view == ListingView(base, s.query, s.filter, s.sortKey, s.sortDir, days);
    hide Joined, ListingView, HeadParts;
    JoinedMore(head, thread);
    assert head + [] == head;
    PageIsJoined(if s.thread == "" then head else head + [thread], number, size);
  }

  lemma {:induction false} PageIsJoined(ps: seq<string>, number: string, size: string)
    requires ps != []
    ensures ListingPage(Joined(ps), number, size) == Joined(ps + (if number == "0" then [] else ["page=" + number + "&size=" + size]))
  {
    hide Joined;
    var page := "page=" + number + "&size=" + size;
    JoinedMore(ps, page);
    assert Joined(ps) + SEP + "page=" + number + "&size=" + size == Joined(ps) + SEP + page;
    assert ps + [] == ps;
  }

  predicate Plain(s: Spec) {
    FolderName(s.query) && FolderName(s.filter) && FolderName(s.sortKey) && FolderName(s.sortDir) && FolderName(s.thread)
  }

  /** A view's name tells what is asked: the order its pages are cut from is the one the fetch
      takes, and its folder is the one it was named for. */
  lemma NameTells(base: string, s: Spec, days: string, number: string, size: string)
    requires FolderName(base) && Plain(s) && FolderName(days) && FolderName(number) && FolderName(size)
    ensures var view := ViewName(base, s, days, number, size);
      && Parts(view)[0] == base && SpecOf(view) == s
      && (OrderedView(view) <==>
            s.query != "" || s.filter != "" || (s.sortKey != "account" && (s.sortKey != "" || s.sortDir != "")))
  {
    hide Parts, Joined;
    var ps := NameParts(base, s, days, number, size);
    NameIsJoined(base, s, days, number, size);
    MarksArePlain();
    forall i | 0 <= i < |ps|
      ensures FolderName(ps[i])
    {
    }
    PartsJoined(ps);
    var thread, page := THREAD_MARK + s.thread, "page=" + number + "&size=" + size;
    assert thread[|THREAD_MARK|..] == s.thread;
    assert !(THREAD_MARK <= page) by { assert page[0] == 'p' && THREAD_MARK[0] == 't'; }
  }

  lemma MarksArePlain()
    ensures FolderName(THREAD_MARK) && FolderName("page=") && FolderName("&size=")
  {
  }
}
