/** Readers, single flights, refreshes and writers around the listing cache: what any reader
    is given was read from the server after every change told before it asked. */
module ListingRuns {
  import opened Basics
  import opened ListingViews
  import opened ListingCache

  /** A change told to the cache, with the server's state at that moment. A flag write leaves
      the folder's own pages in place, rewritten; it ends every order all the same. */
  datatype Change = Change(user: string, scope: Scope, flags: bool, version: nat)

  datatype Phase = Looking | Fetching | TakingOver | Storing | Closing | Done

  datatype Outcome = Error | Got(listing: Listing)

  /** An order taken from the cache to cut a page from: whose folder's, and how old it is. */
  datatype Taken = Taken(folder: string, readAt: nat, version: nat)

  /** One shared load. `born` counts the changes before it was made; `queued` says its
      speculative fetch may still be withdrawn; `started` and `took` say whether the fetch and
      the takeover put a command on the connection; `ran` that the takeover was called; `taken`
      is the held order its page may be cut from. */
  datatype Flight = Flight(
    user: string, view: string, perPage: nat, generation: nat, born: nat, phase: Phase,
    queued: bool, takeover: bool, started: bool, ran: bool, took: bool, cached: bool,
    taken: Option<Taken>, outcome: Outcome)

  datatype FlightKey = FlightKey(user: string, view: string, perPage: nat, generation: nat)

  /** A reader's call: what it asked for, when it came and the flight it waits for. */
  datatype Reader = Reader(user: string, view: string, perPage: nat, calledAt: nat, flight: nat)

  /** Work that noted the generation before asking the server: a refresh or an order. */
  datatype Epoch = Epoch(user: string, view: string, generation: nat, born: nat, taken: Option<Taken>)

  datatype World = World(
    c: Cache, server: nat, log: seq<Change>, flights: seq<Flight>, table: map<FlightKey, nat>,
    readers: seq<Reader>, refreshes: seq<Epoch>, asks: seq<Epoch>)

  datatype Event =
    | Write
    | StaleFolder(user: string, folder: string)
    | DropScope(user: string, scope: Scope)
    | FlagFolder(user: string, folder: string)
    | Load(user: string, view: string, perPage: nat, speculative: bool)
    | LookUp(f: nat, now: nat)
    | Start(f: nat)
    | FetchBack(f: nat, outcome: Outcome)
    | TakeOrder(f: nat, folder: string, threads: bool, days: string, now: nat)
    | TakeoverStart(f: nat)
    | TakeoverBack(f: nat, outcome: Outcome)
    | Store(f: nat, now: nat)
    | Close(f: nat)
    | UsePage(k: Key, now: nat)
    | UseOrder(k: Key, now: nat)
    | Reorder(user: string, folder: string)
    | Refreshed(k: Key, now: nat)
    | BeginRefresh(user: string, view: string)
    | RefreshTakes(i: nat, folder: string, threads: bool, days: string, now: nat)
    | EndRefresh(i: nat, listing: Listing, now: nat)
    | Warm(i: nat, r: nat, now: nat)
    | BeginOrder(user: string, view: string)
    | EndOrder(i: nat, order: Order, now: nat)

  const KEEP_FOR: nat := 86_400_000_000_000

  /** The view a folder's page is copied into when mail arrives, and that folder. */
  const WARMED := "#INBOX"
  const INBOX := "INBOX"

  const INITIAL := World(Cache(map[], map[], 0, map[]), 0, [], [], map[], [], [], [])

  // ----- what was read after what

  /** A folder's name is the view of its own first page. */
  predicate Concerns(ch: Change, user: string, view: string) {
    ch.user == user && Touches(ch.scope, view)
  }

  /** Read after each of the first `n` changes that concern the view, showing a state no older. */
  ghost predicate Current(readAt: nat, version: nat, log: seq<Change>, n: nat, user: string, view: string, flagsToo: bool) {
    forall i | 0 <= i < n <= |log| && Concerns(log[i], user, view) && (flagsToo || !log[i].flags) ::
      i < readAt && log[i].version <= version
  }

  /** An answer of the server asked for when `born` changes had been told. */
  ghost predicate ReadSince(readAt: nat, version: nat, log: seq<Change>, born: nat) {
    && born <= readAt <= |log|
    && forall i | 0 <= i < readAt :: log[i].version <= version
  }

  ghost predicate Quiet(log: seq<Change>, from: nat, to: nat, user: string) {
    forall i | from <= i < to <= |log| :: log[i].user != user
  }

  /** While the generation noted at `born` stands, its user saw no change since. */
  ghost predicate Since(c: Cache, log: seq<Change>, user: string, generation: nat, born: nat) {
    && born <= |log| && generation <= Generation(c, user)
    && (generation == Generation(c, user) ==> Quiet(log, born, |log|, user))
  }

  // ----- one step

  predicate KeyOf(f: Flight, k: FlightKey) {
    f.user == k.user && f.view == k.view && f.perPage == k.perPage && f.generation == k.generation
  }

  ghost predicate Joins(w: World, v: World, user: string, view: string, perPage: nat, speculative: bool) {
    var k := FlightKey(user, view, perPage, Generation(w.c, user));
    if k in w.table then
      && w.table[k] < |w.flights|
      && var i := w.table[k];
      var f := w.flights[i];
      v == w.(readers := w.readers + [Reader(user, view, perPage, |w.log|, i)],
              flights := if f.queued && !speculative then w.flights[i := f.(queued := false, takeover := true)] else w.flights)
    else
      var f := Flight(user, view, perPage, k.generation, |w.log|, Looking, speculative, false, false, false, false, false, None, Error);
      v == w.(readers := w.readers + [Reader(user, view, perPage, |w.log|, |w.flights|)], flights := w.flights + [f],
              table := w.table[k := |w.flights|])
  }

  predicate At(w: World, i: nat, p: Phase) {
    i < |w.flights| && w.flights[i].phase == p
  }

  /** A page of the folder a view's rows come from: read since the work was born, or cut from
      the order it took. */
  ghost predicate Readable(w: World, l: Listing, view: string, born: nat, taken: Option<Taken>) {
    && Resolves(view, l.folder)
    && match l.source
       case Direct => ReadSince(l.readAt, l.version, w.log, born)
       case FromOrder => taken == Some(Taken(l.folder, l.readAt, l.version))
       case Copied => false
  }

  ghost predicate Answered(w: World, o: Outcome, f: Flight) {
    o.Got? ==> Readable(w, o.listing, f.view, f.born, f.taken) && o.listing.perPage == f.perPage
  }

  /** The one order pages of the view are cut from, if they are, held and not too long unused. */
  predicate Takes(w: World, user: string, view: string, folder: string, threads: bool, days: string, now: nat) {
    && Resolves(view, folder)
    && var o := OrderOf(view, folder, threads, days);
    && o.Some? && Key(user, o.value) in w.c.orders && !Expired(w.c.orders[Key(user, o.value)].lastUse, now, KEEP_FOR)
  }

  /** The key of that order. */
  function TakenKey(user: string, view: string, folder: string, threads: bool, days: string): Key {
    var o := OrderOf(view, folder, threads, days);
    Key(user, if o.Some? then o.value else "")
  }

  function UsedOrder(c: Cache, k: Key, now: nat): Cache
    requires k in c.orders
  {
    c.(orders := c.orders[k := c.orders[k].(lastUse := now)])
  }

  function TakenFrom(c: Cache, k: Key, folder: string): Option<Taken>
    requires k in c.orders
  {
    Some(Taken(folder, c.orders[k].order.readAt, c.orders[k].order.version))
  }

  function Told(w: World, c: Cache, user: string, s: Scope, flags: bool): World {
    w.(c := c, log := w.log + [Change(user, s, flags, w.server)])
  }

  ghost predicate LooksUp(w: World, v: World, i: nat, now: nat)
    requires At(w, i, Looking)
  {
    var f := w.flights[i];
    var k := Key(f.user, f.view);
    if k in w.c.entries && w.c.entries[k].listing.perPage == f.perPage then
      var e := w.c.entries[k];
      var young := !e.changed && e.fetched.Some? && now <= e.fetched.value + FRESH_FOR;
      v == w.(c := w.c.(entries := w.c.entries[k := e.(lastUse := now)]),
              flights := w.flights[i := if young then f.(phase := Closing, cached := true, outcome := Got(e.listing))
                                        else f.(phase := Fetching)])
    else v == w.(flights := w.flights[i := f.(phase := Fetching)])
  }

  ghost predicate Next(w: World, e: Event, v: World) {
    match e
    case Write => v == w.(server := w.server + 1)
    case StaleFolder(user, folder) => v == Told(w, Staled(w.c, user, folder), user, Folder(folder), false)
    case DropScope(user, s) => v == Told(w, Dropped(w.c, user, s), user, s, false)
    case FlagFolder(user, folder) => v == Told(w, Flagged(w.c, user, folder), user, Folder(folder), true)
    case Load(user, view, perPage, speculative) => Joins(w, v, user, view, perPage, speculative)
    case LookUp(i, now) => At(w, i, Looking) && LooksUp(w, v, i, now)
    case Start(i) =>
      && At(w, i, Fetching)
      && var f := w.flights[i];
      v == w.(flights := w.flights[i := f.(queued := false, started := f.started || !f.takeover)])
    case FetchBack(i, o) =>
      && At(w, i, Fetching) && (o.Got? ==> w.flights[i].started) && Answered(w, o, w.flights[i])
      && var f := w.flights[i].(queued := false);
      v == w.(flights := w.flights[i := if f.takeover then f.(phase := TakingOver, ran := true)
                                        else f.(phase := Storing, outcome := o)])
    case TakeOrder(i, folder, threads, days, now) =>
      && ((At(w, i, Fetching) && w.flights[i].started) || (At(w, i, TakingOver) && w.flights[i].took))
      && Takes(w, w.flights[i].user, w.flights[i].view, folder, threads, days, now)
      && var k := TakenKey(w.flights[i].user, w.flights[i].view, folder, threads, days);
      v == w.(c := UsedOrder(w.c, k, now), flights := w.flights[i := w.flights[i].(taken := TakenFrom(w.c, k, folder))])
    case TakeoverStart(i) =>
      At(w, i, TakingOver) && v == w.(flights := w.flights[i := w.flights[i].(took := true)])
    case TakeoverBack(i, o) =>
      && At(w, i, TakingOver) && Answered(w, o, w.flights[i])
      && v == w.(flights := w.flights[i := w.flights[i].(phase := Storing, outcome := o)])
    case Store(i, now) =>
      && At(w, i, Storing)
      && var f := w.flights[i];
      && (if f.outcome.Got? then Stored(w.c, v.c, f.user, f.view, f.outcome.listing, f.generation, now, KEEP_FOR) else v.c == w.c)
      && v == w.(c := v.c, flights := w.flights[i := f.(phase := Closing)])
    case Close(i) =>
      && At(w, i, Closing)
      && var f := w.flights[i];
      v == w.(flights := w.flights[i := f.(phase := Done)],
              table := w.table - {FlightKey(f.user, f.view, f.perPage, f.generation)})
    case UsePage(k, now) =>
      k in w.c.entries && v == w.(c := w.c.(entries := w.c.entries[k := w.c.entries[k].(lastUse := now)]))
    case UseOrder(k, now) =>
      k in w.c.orders && v == w.(c := UsedOrder(w.c, k, now))
    case Reorder(user, folder) => v == w.(c := OrdersDropped(w.c, user, Folder(folder)))
    case Refreshed(k, now) =>
      k in w.c.entries && v == w.(c := w.c.(entries := w.c.entries[k := w.c.entries[k].(fetched := Some(now))]))
    case BeginRefresh(user, view) =>
      v == w.(refreshes := w.refreshes + [Epoch(user, view, Generation(w.c, user), |w.log|, None)])
    case RefreshTakes(i, folder, threads, days, now) =>
      && i < |w.refreshes| && Takes(w, w.refreshes[i].user, w.refreshes[i].view, folder, threads, days, now)
      && var k := TakenKey(w.refreshes[i].user, w.refreshes[i].view, folder, threads, days);
      v == w.(c := UsedOrder(w.c, k, now),
                 refreshes := w.refreshes[i := w.refreshes[i].(taken := TakenFrom(w.c, k, folder))])
    case EndRefresh(i, l, now) =>
      && i < |w.refreshes| && Readable(w, l, w.refreshes[i].view, w.refreshes[i].born, w.refreshes[i].taken)
      && Stored(w.c, v.c, w.refreshes[i].user, w.refreshes[i].view, l, w.refreshes[i].generation, now, KEEP_FOR)
      && v == w.(c := v.c)
    case Warm(i, r, now) =>
      && i < |w.refreshes| && w.refreshes[i].view == WARMED && r < |w.readers| && w.readers[r].flight < |w.flights|
      && w.readers[r].user == w.refreshes[i].user && w.readers[r].view == INBOX && w.refreshes[i].born <= w.readers[r].calledAt
      && var f := w.flights[w.readers[r].flight];
      && f.phase == Done && f.outcome.Got?
      && Stored(w.c, v.c, f.user, WARMED, f.outcome.listing.(source := Copied), w.refreshes[i].generation, now, KEEP_FOR)
      && v == w.(c := v.c)
    case BeginOrder(user, view) =>
      v == w.(asks := w.asks + [Epoch(user, view, Generation(w.c, user), |w.log|, None)])
    case EndOrder(i, o, now) =>
      && i < |w.asks| && ReadSince(o.readAt, o.version, w.log, w.asks[i].born)
      && OrderHeld(w.c, v.c, w.asks[i].user, w.asks[i].view, o, w.asks[i].generation, now)
      && v == w.(c := v.c)
  }

  ghost predicate Run(ws: seq<World>, es: seq<Event>) {
    |ws| == |es| + 1 && ws[0] == INITIAL && forall i | 0 <= i < |es| :: Next(ws[i], es[i], ws[i + 1])
  }

  // ----- coherence

  /** Which changes a page must have seen: read for its view, all that reach the view, and flag
      writes where they drop it; cut from an order, its folder's, and flag writes where they
      may move rows in or out of the view; copied, its folder's that are not flag writes. */
  predicate Reaches(ch: Change, l: Listing, view: string) {
    match l.source
    case Direct => Touches(ch.scope, view) && (!ch.flags || (ch.scope.Folder? && FlagFiltered(view, ch.scope.name)))
    case FromOrder => Touches(ch.scope, l.folder) && (!ch.flags || FlagFiltered(view, l.folder))
    case Copied => Touches(ch.scope, l.folder) && !ch.flags
  }

  /** Only views cut from an order have such pages, and only the warmed view has copies. */
  predicate Sourced(l: Listing, view: string) {
    match l.source
    case Direct => true
    case FromOrder => OrderedView(view)
    case Copied => view == WARMED && l.folder == INBOX
  }

  /** A page of the view was read after each of the first `n` changes that it must have seen. */
  ghost predicate PageCurrent(l: Listing, log: seq<Change>, n: nat, user: string, view: string) {
    && Resolves(view, l.folder) && Sourced(l, view)
    && forall i | 0 <= i < n <= |log| && log[i].user == user && Reaches(log[i], l, view) ::
         i < l.readAt && log[i].version <= l.version
  }

  /** Every page not known to be wrong, and every held order, is current. */
  ghost predicate Coherent(c: Cache, log: seq<Change>) {
    && (forall k | k in c.entries && !c.entries[k].changed :: PageCurrent(c.entries[k].listing, log, |log|, k.user, k.view))
    && (forall k | k in c.orders ::
          Current(c.orders[k].order.readAt, c.orders[k].order.version, log, |log|, k.user, k.view, true))
  }

  /** What was taken is current for every change before the work was born. */
  ghost predicate TakenCurrent(taken: Option<Taken>, log: seq<Change>, born: nat, user: string, view: string) {
    taken.Some? ==>
      && OrderedView(view)
      && Current(taken.value.readAt, taken.value.version, log, born, user, taken.value.folder, true)
  }

  ghost predicate Dated(w: World) {
    && (forall i | 0 <= i < |w.flights| :: Since(w.c, w.log, w.flights[i].user, w.flights[i].generation, w.flights[i].born))
    && (forall i | 0 <= i < |w.refreshes| :: Since(w.c, w.log, w.refreshes[i].user, w.refreshes[i].generation, w.refreshes[i].born))
    && (forall i | 0 <= i < |w.refreshes| :: TakenCurrent(w.refreshes[i].taken, w.log, w.refreshes[i].born, w.refreshes[i].user, w.refreshes[i].view))
    && (forall i | 0 <= i < |w.asks| :: Since(w.c, w.log, w.asks[i].user, w.asks[i].generation, w.asks[i].born))
  }

  /** What a flight holds is current for every change before its birth: the order it took, and
      the page it got, which has the size it was asked for. */
  ghost predicate Holds(f: Flight, log: seq<Change>) {
    && TakenCurrent(f.taken, log, f.born, f.user, f.view)
    && (f.outcome.Got? ==> PageCurrent(f.outcome.listing, log, f.born, f.user, f.view) && f.outcome.listing.perPage == f.perPage)
  }

  ghost predicate Listed(w: World) {
    forall k | k in w.table :: w.table[k] < |w.flights| && KeyOf(w.flights[w.table[k]], k)
  }

  /** A reader's flight was born when no change of its user separated it from the call. */
  ghost predicate Waits(w: World, r: Reader) {
    && r.flight < |w.flights| && r.calledAt <= |w.log|
    && r.user == w.flights[r.flight].user && r.view == w.flights[r.flight].view && r.perPage == w.flights[r.flight].perPage
    && Quiet(w.log, w.flights[r.flight].born, r.calledAt, r.user)
  }

  ghost predicate Safe(w: World) {
    && Coherent(w.c, w.log) && Dated(w) && Listed(w)
    && (forall i | 0 <= i < |w.flights| :: Holds(w.flights[i], w.log))
    && (forall i | 0 <= i < |w.readers| :: Waits(w, w.readers[i]))
  }

  lemma CurrentSince(c: Cache, log: seq<Change>, l: Listing, user: string, view: string, generation: nat, born: nat)
    requires Since(c, log, user, generation, born) && generation == Generation(c, user)
    requires PageCurrent(l, log, born, user, view)
    ensures PageCurrent(l, log, |log|, user, view)
  {
    hide Reaches, Sourced, Resolves;
  }

  /** Storing under a generation that still stands cannot bring back what a change has ended. */
  lemma StoreKeepsCoherent(c: Cache, v: Cache, log: seq<Change>, user: string, view: string, l: Listing, generation: nat,
                           born: nat, now: nat)
    requires Coherent(c, log) && Since(c, log, user, generation, born) && PageCurrent(l, log, born, user, view)
    requires Stored(c, v, user, view, l, generation, now, KEEP_FOR)
    ensures Coherent(v, log)
  {
    hide Since, Current, PageCurrent;
    if Generation(c, user) == generation {
      CurrentSince(c, log, l, user, view, generation, born);
    }
  }

  lemma HoldKeepsCoherent(c: Cache, v: Cache, log: seq<Change>, user: string, view: string, o: Order, generation: nat,
                          born: nat, now: nat)
    requires Coherent(c, log) && Since(c, log, user, generation, born) && ReadSince(o.readAt, o.version, log, born)
    requires OrderHeld(c, v, user, view, o, generation, now)
    ensures Coherent(v, log)
  {
    hide PageCurrent;
  }

  /** What touches a folder touches every view that shows it, and every order of it. */
  lemma TouchesViews(s: Scope, folder: string, view: string)
    requires Touches(s, folder)
    ensures Shows(view, folder) ==> Touches(s, view)
    ensures folder + SEP <= view ==> Touches(s, view)
    ensures s.Folder? && FolderName(folder) && FlagFiltered(view, folder) ==> FlagFiltered(view, s.name)
  {
    if s.Folder? && s.name + SEP <= folder {
      assert folder[|s.name|] == SEP[0];
    }
    if folder + SEP <= view { assert folder <= view; }
  }

  lemma ResolvesShows(view: string, folder: string)
    requires Resolves(view, folder)
    ensures Shows(view, folder) && FolderName(folder)
  {
    PartsStart(view);
  }

  /** An order taken from a coherent cache is current for its folder. */
  lemma TakenIsCurrent(w: World, user: string, view: string, folder: string, threads: bool, days: string, now: nat, born: nat)
    requires Coherent(w.c, w.log) && Takes(w, user, view, folder, threads, days, now) && born <= |w.log|
    ensures var k := TakenKey(user, view, folder, threads, days);
      k in w.c.orders && TakenCurrent(TakenFrom(w.c, k, folder), w.log, born, user, view)
  {
    hide Touches, OrderOf, OrderedView, PageCurrent, Resolves;
    var k := TakenKey(user, view, folder, threads, days);
    var o, log := w.c.orders[k].order, w.log;
    OrderIsOfFolder(view, folder, threads, days);
    forall i | 0 <= i < born <= |log| && Concerns(log[i], user, folder)
      ensures i < o.readAt && log[i].version <= o.version
    {
      TouchesViews(log[i].scope, folder, k.view);
      assert Concerns(log[i], user, k.view);
    }
  }

  /** What a fetch brings back is current for every change before its work was born. */
  lemma ReadableIsCurrent(w: World, l: Listing, user: string, view: string, born: nat, taken: Option<Taken>)
    requires Readable(w, l, view, born, taken) && TakenCurrent(taken, w.log, born, user, view) && born <= |w.log|
    ensures PageCurrent(l, w.log, born, user, view)
  {
    hide Resolves, OrderedView, Touches, FlagFiltered;
  }

  lemma SinceAfterChange(c: Cache, v: Cache, log: seq<Change>, ch: Change, user: string, generation: nat, born: nat)
    requires Since(c, log, user, generation, born)
    requires v.generation == Bumped(c, ch.user).generation
    ensures Since(v, log + [ch], user, generation, born)
  {
  }

  lemma CurrentGrows(readAt: nat, version: nat, log: seq<Change>, ch: Change, n: nat, user: string, view: string, flagsToo: bool)
    requires Current(readAt, version, log, n, user, view, flagsToo) && n <= |log|
    requires n == |log| ==> !(Concerns(ch, user, view) && (flagsToo || !ch.flags))
    ensures Current(readAt, version, log + [ch], n, user, view, flagsToo)
    ensures n == |log| ==> Current(readAt, version, log + [ch], n + 1, user, view, flagsToo)
  {
  }

  /** A page that a change left in place need not have seen it. */
  lemma LeftInPlace(ch: Change, l: Listing, view: string)
    requires Resolves(view, l.folder) && Sourced(l, view) && (ch.flags ==> ch.scope.Folder?)
    requires if ch.flags then !FlagFiltered(view, ch.scope.name) else !Touches(ch.scope, view)
    ensures !Reaches(ch, l, view)
  {
    hide Resolves, OrderedView;
    ResolvesShows(view, l.folder);
    if Touches(ch.scope, l.folder) { TouchesViews(ch.scope, l.folder, view); }
  }

  /** A change leaves coherent a cache that dropped or marked whatever it reaches. */
  lemma ChangeKeepsCoherent(c: Cache, v: Cache, log: seq<Change>, ch: Change)
    requires Coherent(c, log) && (ch.flags ==> ch.scope.Folder?)
    requires forall k | k in v.entries && !v.entries[k].changed ::
               k in c.entries && v.entries[k].listing == c.entries[k].listing && !c.entries[k].changed
               && !(k.user == ch.user && (if ch.flags then FlagFiltered(k.view, ch.scope.name) else Touches(ch.scope, k.view)))
    requires forall k | k in v.orders :: k in c.orders && v.orders[k] == c.orders[k] && !Concerns(ch, k.user, k.view)
    ensures Coherent(v, log + [ch])
  {
    hide Touches, Shows, FlagFiltered, Reaches, Resolves, Sourced;
    forall k | k in v.entries && !v.entries[k].changed
      ensures PageCurrent(v.entries[k].listing, log + [ch], |log| + 1, k.user, k.view)
    {
      var l := v.entries[k].listing;
      assert PageCurrent(l, log, |log|, k.user, k.view);
      if k.user == ch.user { LeftInPlace(ch, l, k.view); }
    }
    forall k | k in v.orders
      ensures Current(v.orders[k].order.readAt, v.orders[k].order.version, log + [ch], |log| + 1, k.user, k.view, true)
    {
      CurrentGrows(v.orders[k].order.readAt, v.orders[k].order.version, log, ch, |log|, k.user, k.view, true);
    }
  }

  lemma ChangeKeepsSafe(w: World, v: World, user: string, s: Scope, flags: bool)
    requires Safe(w) && v == Told(w, v.c, user, s, flags)
    requires Coherent(v.c, v.log) && v.c.generation == Bumped(w.c, user).generation
    ensures Safe(v)
  {
    var ch := Change(user, s, flags, w.server);
    forall i | 0 <= i < |w.flights|
      ensures Since(v.c, v.log, w.flights[i].user, w.flights[i].generation, w.flights[i].born)
      ensures Holds(w.flights[i], v.log)
    {
      var f := w.flights[i];
      SinceAfterChange(w.c, v.c, w.log, ch, f.user, f.generation, f.born);
      HoldsAfterChange(f, w.log, ch);
    }
    forall i | 0 <= i < |w.refreshes|
      ensures Since(v.c, v.log, w.refreshes[i].user, w.refreshes[i].generation, w.refreshes[i].born)
      ensures TakenCurrent(w.refreshes[i].taken, v.log, w.refreshes[i].born, w.refreshes[i].user, w.refreshes[i].view)
    {
      SinceAfterChange(w.c, v.c, w.log, ch, w.refreshes[i].user, w.refreshes[i].generation, w.refreshes[i].born);
      TakenAfterChange(w.refreshes[i].taken, w.log, ch, w.refreshes[i].born, w.refreshes[i].user, w.refreshes[i].view);
    }
    forall i | 0 <= i < |w.asks|
      ensures Since(v.c, v.log, w.asks[i].user, w.asks[i].generation, w.asks[i].born)
    {
      SinceAfterChange(w.c, v.c, w.log, ch, w.asks[i].user, w.asks[i].generation, w.asks[i].born);
    }
    forall i | 0 <= i < |w.readers|
      ensures Waits(v, w.readers[i])
    {
      assert Waits(w, w.readers[i]);
    }
  }

  lemma TakenAfterChange(taken: Option<Taken>, log: seq<Change>, ch: Change, born: nat, user: string, view: string)
    requires TakenCurrent(taken, log, born, user, view) && born <= |log|
    ensures TakenCurrent(taken, log + [ch], born, user, view)
  {
    hide OrderedView;
  }

  lemma HoldsAfterChange(f: Flight, log: seq<Change>, ch: Change)
    requires Holds(f, log) && f.born <= |log|
    ensures Holds(f, log + [ch])
  {
    hide Resolves, Sourced, Reaches, OrderedView;
  }

  lemma ToldKeepsSafe(w: World, e: Event, v: World)
    requires Safe(w) && Next(w, e, v) && (e.StaleFolder? || e.DropScope? || e.FlagFolder?)
    ensures Safe(v)
  {
    match e
    case StaleFolder(user, folder) =>
      ChangeKeepsCoherent(w.c, v.c, w.log, Change(user, Folder(folder), false, w.server));
      ChangeKeepsSafe(w, v, user, Folder(folder), false);
    case DropScope(user, s) =>
      ChangeKeepsCoherent(w.c, v.c, w.log, Change(user, s, false, w.server));
      ChangeKeepsSafe(w, v, user, s, false);
    case FlagFolder(user, folder) =>
      ChangeKeepsCoherent(w.c, v.c, w.log, Change(user, Folder(folder), true, w.server));
      ChangeKeepsSafe(w, v, user, Folder(folder), true);
  }

  /** What stays safe when one flight moves and the log and generations do not. */
  lemma FlightMoves(w: World, v: World, i: nat)
    requires Safe(w) && i < |w.flights| && |v.flights| == |w.flights|
    requires v == w.(c := v.c, flights := w.flights[i := v.flights[i]], table := v.table)
    requires v.c.generation == w.c.generation && Coherent(v.c, v.log)
    requires var f, g := w.flights[i], v.flights[i];
             g.user == f.user && g.view == f.view && g.perPage == f.perPage && g.generation == f.generation && g.born == f.born
    requires Holds(v.flights[i], v.log)
    requires forall k | k in v.table :: k in w.table && v.table[k] == w.table[k]
    ensures Safe(v)
  {
    forall j | 0 <= j < |v.flights|
      ensures Since(v.c, v.log, v.flights[j].user, v.flights[j].generation, v.flights[j].born)
      ensures Holds(v.flights[j], v.log)
    {
      assert Since(w.c, w.log, w.flights[j].user, w.flights[j].generation, w.flights[j].born);
    }
    forall j | 0 <= j < |v.readers|
      ensures Waits(v, v.readers[j])
    {
      assert Waits(w, w.readers[j]);
    }
    forall j | 0 <= j < |w.refreshes|
      ensures Since(v.c, v.log, v.refreshes[j].user, v.refreshes[j].generation, v.refreshes[j].born)
    {
      assert Since(w.c, w.log, w.refreshes[j].user, w.refreshes[j].generation, w.refreshes[j].born);
    }
    forall j | 0 <= j < |w.asks|
      ensures Since(v.c, v.log, v.asks[j].user, v.asks[j].generation, v.asks[j].born)
    {
      assert Since(w.c, w.log, w.asks[j].user, w.asks[j].generation, w.asks[j].born);
    }
  }

  lemma LookUpKeepsSafe(w: World, v: World, i: nat, now: nat)
    requires Safe(w) && At(w, i, Looking) && LooksUp(w, v, i, now)
    ensures Safe(v)
  {
    hide PageCurrent, TakenCurrent, Current, Dated, Waits;
    var f := w.flights[i];
    assert Holds(f, w.log);
    assert f.born <= |w.log| by { BornBefore(w, i); }
    var k := Key(f.user, f.view);
    if v.flights[i].cached && v.flights[i].phase == Closing {
      EarlierIsCurrent(w.c.entries[k].listing, w.log, f.born, |w.log|, f.user, f.view);
    }
    assert Coherent(v.c, v.log);
    FlightMoves(w, v, i);
  }

  lemma BornBefore(w: World, i: nat)
    requires Dated(w) && i < |w.flights|
    ensures w.flights[i].born <= |w.log|
  {
    assert Since(w.c, w.log, w.flights[i].user, w.flights[i].generation, w.flights[i].born);
  }

  lemma AnswerHolds(w: World, i: nat, o: Outcome)
    requires Safe(w) && i < |w.flights| && Answered(w, o, w.flights[i])
    ensures Holds(w.flights[i], w.log) && Holds(w.flights[i].(outcome := o), w.log)
  {
    hide Readable, PageCurrent;
    var f := w.flights[i];
    assert Holds(f, w.log) && Since(w.c, w.log, f.user, f.generation, f.born);
    if o.Got? { ReadableIsCurrent(w, o.listing, f.user, f.view, f.born, f.taken); }
  }

  lemma UsedKeepsCoherent(c: Cache, k: Key, now: nat, log: seq<Change>)
    requires Coherent(c, log) && k in c.orders
    ensures Coherent(UsedOrder(c, k, now), log)
  {
    hide PageCurrent, Current;
  }

  lemma TakeKeepsSafe(w: World, v: World, e: Event)
    requires Safe(w) && e.TakeOrder? && Next(w, e, v)
    ensures Safe(v)
  {
    hide PageCurrent, Current, Takes, OrderOf, TakenKey;
    var f := w.flights[e.f];
    assert Holds(f, w.log) && Since(w.c, w.log, f.user, f.generation, f.born);
    TakenIsCurrent(w, f.user, f.view, e.folder, e.threads, e.days, e.now, f.born);
    UsedKeepsCoherent(w.c, TakenKey(f.user, f.view, e.folder, e.threads, e.days), e.now, w.log);
    FlightMoves(w, v, e.f);
  }

  lemma MoveKeepsSafe(w: World, e: Event, v: World)
    requires Safe(w) && Next(w, e, v)
    requires e.LookUp? || e.Start? || e.FetchBack? || e.TakeOrder? || e.TakeoverStart? || e.TakeoverBack? || e.Store? || e.Close?
    ensures Safe(v)
  {
    match e
    case LookUp(i, now) => LookUpKeepsSafe(w, v, i, now);
    case Start(i) => assert Holds(w.flights[i], w.log); FlightMoves(w, v, i);
    case FetchBack(i, o) =>
      AnswerHolds(w, i, o);
      FlightMoves(w, v, i);
    case TakeOrder(_, _, _, _, _) => TakeKeepsSafe(w, v, e);
    case TakeoverStart(i) => assert Holds(w.flights[i], w.log); FlightMoves(w, v, i);
    case TakeoverBack(i, o) =>
      AnswerHolds(w, i, o);
      FlightMoves(w, v, i);
    case Store(i, now) =>
      var f := w.flights[i];
      assert Holds(f, w.log) && Since(w.c, w.log, f.user, f.generation, f.born);
      if f.outcome.Got? {
        StoreKeepsCoherent(w.c, v.c, w.log, f.user, f.view, f.outcome.listing, f.generation, f.born, now);
      }
      FlightMoves(w, v, i);
    case Close(i) => assert Holds(w.flights[i], w.log); FlightMoves(w, v, i);
  }

  lemma LoadKeepsSafe(w: World, e: Event, v: World)
    requires Safe(w) && e.Load? && Next(w, e, v)
    ensures Safe(v)
  {
    hide PageCurrent, Coherent;
    var k := FlightKey(e.user, e.view, e.perPage, Generation(w.c, e.user));
    if k in w.table {
      var i := w.table[k];
      var f := w.flights[i];
      assert Since(w.c, w.log, f.user, f.generation, f.born) && Holds(f, w.log);
      var u := w.(flights := v.flights);
      FlightMoves(w, u, i);
      assert forall j | 0 <= j < |w.readers| :: Waits(u, w.readers[j]);
    } else {
      forall j | 0 <= j < |w.readers|
        ensures Waits(v, w.readers[j])
      {
        assert Waits(w, w.readers[j]);
      }
    }
  }

  lemma StepKeepsSafe(w: World, e: Event, v: World)
    requires Safe(w) && Next(w, e, v)
    ensures Safe(v)
  {
    hide Safe, Next;
    if e.StaleFolder? || e.DropScope? || e.FlagFolder? {
      ToldKeepsSafe(w, e, v);
    } else if e.Load? {
      LoadKeepsSafe(w, e, v);
    } else if e.Write? || e.BeginRefresh? || e.BeginOrder? {
      QuietKeepsSafe(w, e, v);
    } else if e.UsePage? || e.UseOrder? || e.Reorder? || e.Refreshed? {
      UseKeepsSafe(w, e, v);
    } else if e.EndRefresh? {
      RefreshKeepsSafe(w, v, e.i, e.listing, e.now);
    } else if e.RefreshTakes? {
      RefreshTakesKeepsSafe(w, v, e);
    } else if e.Warm? {
      WarmKeepsSafe(w, v, e);
    } else if e.EndOrder? {
      AskKeepsSafe(w, v, e.i, e.order, e.now);
    } else {
      MoveKeepsSafe(w, e, v);
    }
  }

  lemma QuietKeepsSafe(w: World, e: Event, v: World)
    requires Safe(w) && Next(w, e, v) && (e.Write? || e.BeginRefresh? || e.BeginOrder?)
    ensures Safe(v)
  {
    hide Coherent, PageCurrent, OrderedView, Current;
    assert forall j | 0 <= j < |w.readers| :: Waits(w, w.readers[j]) ==> Waits(v, w.readers[j]);
  }

  lemma UseKeepsSafe(w: World, e: Event, v: World)
    requires Safe(w) && Next(w, e, v) && (e.UsePage? || e.UseOrder? || e.Reorder? || e.Refreshed?)
    ensures Safe(v)
  {
    CacheKeepsSafe(w, v);
  }

  lemma RefreshKeepsSafe(w: World, v: World, i: nat, l: Listing, now: nat)
    requires Safe(w) && Next(w, EndRefresh(i, l, now), v)
    ensures Safe(v)
  {
    var r := w.refreshes[i];
    assert Since(w.c, w.log, r.user, r.generation, r.born);
    ReadableIsCurrent(w, l, r.user, r.view, r.born, r.taken);
    StoreKeepsCoherent(w.c, v.c, w.log, r.user, r.view, l, r.generation, r.born, now);
    CacheKeepsSafe(w, v);
  }

  lemma RefreshTakesKeepsSafe(w: World, v: World, e: Event)
    requires Safe(w) && e.RefreshTakes? && Next(w, e, v)
    ensures Safe(v)
  {
    hide PageCurrent, Current, Takes, OrderOf, TakenKey;
    var r := w.refreshes[e.i];
    assert Since(w.c, w.log, r.user, r.generation, r.born);
    TakenIsCurrent(w, r.user, r.view, e.folder, e.threads, e.days, e.now, r.born);
    UsedKeepsCoherent(w.c, TakenKey(r.user, r.view, e.folder, e.threads, e.days), e.now, w.log);
    var u := w.(c := v.c);
    CacheKeepsSafe(w, u);
    assert forall j | 0 <= j < |w.readers| :: Waits(u, w.readers[j]) ==> Waits(v, w.readers[j]);
  }

  /** A page of the folder that a reader was given is, copied, current for the folder's changes
      up to the call. */
  lemma CopyIsCurrent(w: World, q: Reader, f: Flight)
    requires Safe(w) && Waits(w, q) && f == w.flights[q.flight] && Holds(f, w.log) && f.outcome.Got? && q.view == INBOX
    ensures f.user == q.user && PageCurrent(f.outcome.listing.(source := Copied), w.log, q.calledAt, q.user, WARMED)
  {
    hide Coherent, Shows, Touches, FlagFiltered, OrderedView;
    var l := f.outcome.listing;
    InboxIsItself(l.folder);
    ResolvesShows(INBOX, l.folder);
    forall i | 0 <= i < q.calledAt <= |w.log| && w.log[i].user == q.user && Touches(w.log[i].scope, l.folder) && !w.log[i].flags
      ensures i < l.readAt && w.log[i].version <= l.version
    {
      TouchesViews(w.log[i].scope, l.folder, INBOX);
      assert Reaches(w.log[i], l, INBOX);
      assert Since(w.c, w.log, f.user, f.generation, f.born);
    }
  }

  lemma InboxIsItself(folder: string)
    ensures Resolves(INBOX, folder) ==> folder == INBOX
    ensures FolderName(INBOX) && Resolves(WARMED, INBOX) && Resolves(INBOX, INBOX)
    ensures !OrderedView(INBOX) && !OrderedView(WARMED)
  {
    assert INBOX[0] == 'I';
    PartsOne(INBOX);
    PartsOne(WARMED);
  }

  lemma WarmKeepsSafe(w: World, v: World, e: Event)
    requires Safe(w) && e.Warm? && Next(w, e, v)
    ensures Safe(v)
  {
    hide PageCurrent, Stored;
    var p, q := w.refreshes[e.i], w.readers[e.r];
    var f := w.flights[q.flight];
    assert Since(w.c, w.log, p.user, p.generation, p.born) && Waits(w, q) && Holds(f, w.log);
    CopyIsCurrent(w, q, f);
    var l := f.outcome.listing.(source := Copied);
    EarlierIsCurrent(l, w.log, p.born, q.calledAt, q.user, WARMED);
    StoreKeepsCoherent(w.c, v.c, w.log, p.user, WARMED, l, p.generation, p.born, e.now);
    StoredGenerations(w.c, v.c, p.user, WARMED, l, p.generation, e.now);
    CacheKeepsSafe(w, v);
  }

  lemma StoredGenerations(c: Cache, v: Cache, user: string, view: string, l: Listing, generation: nat, now: nat)
    requires Stored(c, v, user, view, l, generation, now, KEEP_FOR)
    ensures v.generation == c.generation
  {
  }

  lemma EarlierIsCurrent(l: Listing, log: seq<Change>, m: nat, n: nat, user: string, view: string)
    requires PageCurrent(l, log, n, user, view) && m <= n <= |log|
    ensures PageCurrent(l, log, m, user, view)
  {
    hide Resolves, Sourced, Reaches;
  }

  lemma AskKeepsSafe(w: World, v: World, i: nat, o: Order, now: nat)
    requires Safe(w) && Next(w, EndOrder(i, o, now), v)
    ensures Safe(v)
  {
    var r := w.asks[i];
    assert Since(w.c, w.log, r.user, r.generation, r.born);
    HoldKeepsCoherent(w.c, v.c, w.log, r.user, r.view, o, r.generation, r.born, now);
    CacheKeepsSafe(w, v);
  }

  lemma CacheKeepsSafe(w: World, v: World)
    requires Safe(w) && v == w.(c := v.c) && v.c.generation == w.c.generation && Coherent(v.c, v.log)
    ensures Safe(v)
  {
    forall i | 0 <= i < |w.flights|
      ensures Since(v.c, v.log, v.flights[i].user, v.flights[i].generation, v.flights[i].born)
    {
      assert Since(w.c, w.log, w.flights[i].user, w.flights[i].generation, w.flights[i].born);
    }
    forall j | 0 <= j < |v.readers|
      ensures Waits(v, v.readers[j])
    {
      assert Waits(w, w.readers[j]);
    }
  }

  lemma {:induction false} RunsAreSafe(ws: seq<World>, es: seq<Event>, n: nat)
    requires Run(ws, es) && n < |ws|
    ensures Safe(ws[n])
  {
    hide Next, Safe;
    if n == 0 {
      InitialIsSafe();
    } else {
      RunsAreSafe(ws, es, n - 1);
      assert Next(ws[n - 1], es[n - 1], ws[n - 1 + 1]);
      StepKeepsSafe(ws[n - 1], es[n - 1], ws[n]);
    }
  }

  lemma InitialIsSafe()
    ensures Safe(INITIAL)
  {
  }

  /** Read your writes: whatever load gives a reader, in any interleaving, also from another
      reader's flight, was read after every change told before the call that its page must have
      seen, and shows a state of the server no older: a page read for the view every change that
      reaches the view, one cut from an order held before, or copied, every change of its folder. */
  lemma ReadYourWrites(ws: seq<World>, es: seq<Event>, n: nat, r: nat, i: nat)
    requires Run(ws, es) && n < |ws| && r < |ws[n].readers| && i < |ws[n].log|
    requires ws[n].readers[r].flight < |ws[n].flights|
    ensures var w, q := ws[n], ws[n].readers[r];
      w.flights[q.flight].outcome.Got? ==>
        var l := w.flights[q.flight].outcome.listing;
        && Resolves(q.view, l.folder) && Sourced(l, q.view) && l.perPage == q.perPage
        && (i < q.calledAt && w.log[i].user == q.user && Reaches(w.log[i], l, q.view) ==>
              i < l.readAt && w.log[i].version <= l.version)
  {
    hide Run, Resolves, Sourced, Reaches, Coherent;
    RunsAreSafe(ws, es, n);
    var w, q := ws[n], ws[n].readers[r];
    assert Waits(w, q);
    assert Holds(w.flights[q.flight], w.log);
    assert Since(w.c, w.log, w.flights[q.flight].user, w.flights[q.flight].generation, w.flights[q.flight].born);
  }

  /** A view that is not merged shows one folder, so any change that reaches it is its folder's. */
  lemma OneFolder(view: string, folder: string, s: Scope)
    requires Resolves(view, folder) && (s.Folder? ==> FolderName(s.name)) && !Merged(view)
    ensures Touches(s, view) ==> Touches(s, folder)
  {
    PartsStart(view);
    if s.Folder? && Touches(s, view) { SameStart(view, folder, s.name); }
  }

  lemma SameStart(view: string, a: string, b: string)
    requires FolderName(a) && FolderName(b)
    requires (view == a || a + SEP <= view) && (view == b || b + SEP <= view)
    ensures a == b
  {
    assert forall i | 0 <= i < |a| :: view[i] == a[i] && a[i] in a;
    assert forall i | 0 <= i < |b| :: view[i] == b[i] && b[i] in b;
    assert |a| < |view| ==> view[|a|] == SEP[0];
    assert |b| < |view| ==> view[|b|] == SEP[0];
    assert |a| == |b|;
  }

  /** Whether a page of the folder has seen every change of that scope told before it was asked
      for: the folder's own changes, and in a merged view every folder's, unless the view's pages
      are cut from orders or it is the one that copies are put under. */
  predicate AlwaysSeen(view: string, folder: string, s: Scope) {
    Touches(s, folder) || (Merged(view) && !OrderedView(view) && !(view == WARMED && folder == INBOX))
  }

  lemma SeenIsReached(l: Listing, view: string, ch: Change)
    requires Resolves(view, l.folder) && Sourced(l, view) && AlwaysSeen(view, l.folder, ch.scope) && !ch.flags
    ensures Reaches(ch, l, view)
  {
    hide Resolves, OrderedView;
    ResolvesShows(view, l.folder);
    if Touches(ch.scope, l.folder) { TouchesViews(ch.scope, l.folder, view); }
  }

  /** So in a view of a folder, and in a merged view that is read for itself, every change that
      reaches the view before the call was seen. */
  lemma ReadYourWritesOfView(ws: seq<World>, es: seq<Event>, n: nat, r: nat, i: nat)
    requires Run(ws, es) && n < |ws| && r < |ws[n].readers| && i < |ws[n].log|
    requires ws[n].readers[r].flight < |ws[n].flights| && ws[n].flights[ws[n].readers[r].flight].outcome.Got?
    requires var q, ch := ws[n].readers[r], ws[n].log[i];
      && (Merged(q.view) ==> !OrderedView(q.view) && q.view != WARMED)
      && (ch.scope.Folder? ==> FolderName(ch.scope.name))
      && i < q.calledAt && !ch.flags && Concerns(ch, q.user, q.view)
    ensures var l := ws[n].flights[ws[n].readers[r].flight].outcome.listing;
      i < l.readAt && ws[n].log[i].version <= l.version
  {
    hide Run, Resolves, Sourced, Reaches, Touches, OrderedView, Merged;
    ReadYourWrites(ws, es, n, r, i);
    var q, l := ws[n].readers[r], ws[n].flights[ws[n].readers[r].flight].outcome.listing;
    if !Merged(q.view) { OneFolder(q.view, l.folder, ws[n].log[i].scope); }
    SeenIsReached(l, q.view, ws[n].log[i]);
  }

  /** A page that lookup gives in any state but changed is current for every change told so far
      that it must have seen, and an order that is held for every change that reaches it. */
  lemma CachedIsCurrent(ws: seq<World>, es: seq<Event>, n: nat, k: Key, i: nat)
    requires Run(ws, es) && n < |ws| && i < |ws[n].log|
    ensures k in ws[n].c.entries && !ws[n].c.entries[k].changed ==>
              var l := ws[n].c.entries[k].listing;
              && Resolves(k.view, l.folder) && Sourced(l, k.view)
              && (ws[n].log[i].user == k.user && Reaches(ws[n].log[i], l, k.view) ==>
                    i < l.readAt && ws[n].log[i].version <= l.version)
    ensures k in ws[n].c.orders && Concerns(ws[n].log[i], k.user, k.view) ==>
              i < ws[n].c.orders[k].order.readAt && ws[n].log[i].version <= ws[n].c.orders[k].order.version
  {
    hide Run, Resolves, Sourced, Reaches, Touches, Dated;
    RunsAreSafe(ws, es, n);
  }

  // ----- exactly which changes a page has seen

  /** A reader of the view has a page of the folder, and the change was told before it called. */
  ghost predicate Given(ws: seq<World>, es: seq<Event>, n: nat, r: nat, i: nat, user: string, view: string, folder: string, s: Scope) {
    && Run(ws, es) && n < |ws| && r < |ws[n].readers| && i < |ws[n].log|
    && var q, ch := ws[n].readers[r], ws[n].log[i];
    && q.user == user && q.view == view && q.flight < |ws[n].flights| && ws[n].flights[q.flight].outcome.Got?
    && ws[n].flights[q.flight].outcome.listing.folder == folder
    && i < q.calledAt && ch.user == user && ch.scope == s && !ch.flags
  }

  /** In every run such a page was read after the change. */
  ghost predicate Sees(user: string, view: string, folder: string, s: Scope) {
    forall ws: seq<World>, es: seq<Event>, n: nat, r: nat, i: nat | Given(ws, es, n, r, i, user, view, folder, s) ::
      i < ws[n].flights[ws[n].readers[r].flight].outcome.listing.readAt
  }

  lemma Extended(ws: seq<World>, es: seq<Event>, e: Event, w: World)
    requires Run(ws, es) && Next(ws[|es|], e, w)
    ensures Run(ws + [w], es + [e])
  {
    hide Next;
    forall i | 0 <= i < |es| + 1
      ensures Next((ws + [w])[i], (es + [e])[i], (ws + [w])[i + 1])
    {
      if i < |es| { assert Next(ws[i], es[i], ws[i + 1]); }
    }
  }

  lemma RefreshBegins(w: World, user: string, view: string)
    ensures Next(w, BeginRefresh(user, view), w.(refreshes := w.refreshes + [Epoch(user, view, Generation(w.c, user), |w.log|, None)]))
  {
  }

  lemma FlightStores(w: World, i: nat, c: Cache)
    requires At(w, i, Storing) && w.flights[i].outcome.Got?
    requires var f := w.flights[i]; Stored(w.c, c, f.user, f.view, f.outcome.listing, f.generation, 0, KEEP_FOR)
    ensures Next(w, Store(i, 0), w.(c := c, flights := w.flights[i := w.flights[i].(phase := Closing)]))
  {
    hide Stored;
  }

  lemma FlightCloses(w: World, i: nat)
    requires At(w, i, Closing)
    ensures var f := w.flights[i];
      Next(w, Close(i), w.(flights := w.flights[i := f.(phase := Done)],
                           table := w.table - {FlightKey(f.user, f.view, f.perPage, f.generation)}))
  {
  }

  const EMPTY_ORDER := Order(0, 0, [], [], [])

  /** The cache with one order held. */
  function OneOrder(k: Key): Cache {
    Cache(map[], map[k := Held(EMPTY_ORDER, 0)], 0, map[])
  }

  lemma InitialRuns()
    ensures Run([INITIAL], [])
  {
  }

  lemma OrderIsHeld(user: string, view: string) returns (ws: seq<World>, es: seq<Event>)
    ensures Run(ws, es) && |ws| == |es| + 1 && ws[|es|] == INITIAL.(c := OneOrder(Key(user, view)), asks := ws[|es|].asks)
  {
    hide Run, OrderHeld;
    InitialRuns();
    var w := INITIAL.(asks := [Epoch(user, view, 0, 0, None)]);
    Extended([INITIAL], [], BeginOrder(user, view), w);
    ws, es := [INITIAL] + [w], [] + [BeginOrder(user, view)];
    var v := w.(c := OneOrder(Key(user, view)));
    EmptyOrderHeld(user, view);
    Extended(ws, es, EndOrder(0, EMPTY_ORDER, 0), v);
    ws, es := ws + [v], es + [EndOrder(0, EMPTY_ORDER, 0)];
  }

  lemma EmptyOrderHeld(user: string, view: string)
    ensures OrderHeld(INITIAL.c, OneOrder(Key(user, view)), user, view, EMPTY_ORDER, 0, 0)
  {
    var k := Key(user, view);
    WordsWithout(OneOrder(k).orders, k);
    assert OneOrder(k).orders - {k} == map[];
  }

  /** A change of another folder leaves the order where it is. */
  lemma OrderStays(user: string, view: string, folder: string, other: string)
    requires FolderName(folder) && FolderName(other) && folder + SEP <= view && !Touches(Folder(other), folder)
    ensures Staled(OneOrder(Key(user, view)), user, other) == OneOrder(Key(user, view)).(generation := map[user := 1])
  {
    var k := Key(user, view);
    assert !Shows(view, other) by {
      assert view[|folder|] == SEP[0];
      if view == other || other + SEP <= view { SameStart(view, folder, other); }
    }
    assert Without(OneOrder(k).orders, user, Folder(other)) == OneOrder(k).orders;
  }

  /** The cache with one page just stored. */
  function OneEntry(k: Key, l: Listing): Cache {
    Cache(map[k := Entry(l, Some(0), 0, false)], map[], 0, map[])
  }

  function FirstFlight(user: string, view: string, perPage: nat, generation: nat, born: nat): Flight {
    Flight(user, view, perPage, generation, born, Looking, false, false, false, false, false, false, None, Error)
  }

  lemma OnlyEntryStored(user: string, view: string, l: Listing)
    ensures Stored(Cache(map[], map[], 0, map[]), OneEntry(Key(user, view), l), user, view, l, 0, 0, KEEP_FOR)
  {
    var k, v := Key(user, view), OneEntry(Key(user, view), l);
    assert v.entries.Keys == {k} && |v.entries| == |v.entries.Keys|;
  }

  /** A first load of a view: nothing is held, so its page is read and stored. */
  lemma PageIsStored(user: string, view: string, folder: string, perPage: nat) returns (ws: seq<World>, es: seq<Event>)
    requires Resolves(view, folder)
    ensures Run(ws, es) && |ws| == |es| + 1
    ensures var w, l := ws[|es|], Listing(folder, Direct, 0, 0, perPage);
      && w == INITIAL.(c := OneEntry(Key(user, view), l), flights := w.flights, readers := w.readers)
      && |w.flights| == 1 && |w.readers| == 1
  {
    hide Run, Resolves, Stored;
    var l, f := Listing(folder, Direct, 0, 0, perPage), FirstFlight(user, view, perPage, 0, 0);
    InitialRuns();
    var w1 := INITIAL.(readers := [Reader(user, view, perPage, 0, 0)], flights := [f], table := map[FlightKey(user, view, perPage, 0) := 0]);
    Extended([INITIAL], [], Load(user, view, perPage, false), w1);
    ws, es := [INITIAL] + [w1], [] + [Load(user, view, perPage, false)];
    f := f.(phase := Fetching);
    var w2 := w1.(flights := [f]);
    Extended(ws, es, LookUp(0, 0), w2);
    ws, es := ws + [w2], es + [LookUp(0, 0)];
    f := f.(started := true);
    var w3 := w2.(flights := [f]);
    Extended(ws, es, Start(0), w3);
    ws, es := ws + [w3], es + [Start(0)];
    f := f.(phase := Storing, outcome := Got(l));
    var w4 := w3.(flights := [f]);
    Extended(ws, es, FetchBack(0, Got(l)), w4);
    ws, es := ws + [w4], es + [FetchBack(0, Got(l))];
    ws, es := StoredAndClosed(ws, es, f, l);
  }

  lemma StoredAndClosed(ws: seq<World>, es: seq<Event>, f: Flight, l: Listing) returns (ws': seq<World>, es': seq<Event>)
    requires Run(ws, es) && |ws| == |es| + 1
    requires var w := ws[|es|];
      && w == INITIAL.(flights := [f], readers := w.readers, table := map[FlightKey(f.user, f.view, f.perPage, 0) := 0])
      && f.phase == Storing && f.outcome == Got(l) && f.generation == 0
    ensures Run(ws', es') && |ws'| == |es'| + 1
    ensures ws'[|es'|] == INITIAL.(c := OneEntry(Key(f.user, f.view), l), flights := [f.(phase := Done)], readers := ws[|es|].readers)
  {
    hide Run, Stored, Next;
    OnlyEntryStored(f.user, f.view, l);
    FlightStores(ws[|es|], 0, OneEntry(Key(f.user, f.view), l));
    assert [f][0 := f.(phase := Closing)] == [f.(phase := Closing)];
    var w1 := ws[|es|].(c := OneEntry(Key(f.user, f.view), l), flights := [f.(phase := Closing)]);
    Extended(ws, es, Store(0, 0), w1);
    ws', es' := ws + [w1], es + [Store(0, 0)];
    var w2 := w1.(flights := [f.(phase := Done)], table := map[]);
    FlightCloses(w1, 0);
    assert w1.flights[0 := f.(phase := Done)] == w2.flights;
    assert w1.table - {FlightKey(f.user, f.view, f.perPage, 0)} == map[];
    Extended(ws', es', Close(0), w2);
    ws', es' := ws' + [w2], es' + [Close(0)];
  }

  /** A change of another folder leaves the page of a view that does not show it. */
  lemma EntryStays(user: string, view: string, l: Listing, other: string)
    requires !Shows(view, other)
    ensures Staled(OneEntry(Key(user, view), l), user, other) == OneEntry(Key(user, view), l).(generation := map[user := 1])
  {
    hide Shows;
    var c := OneEntry(Key(user, view), l);
    assert Without(c.orders, user, Folder(other)) == map[];
  }

  /** A load that finds a fresh page is given it. */
  lemma CachedIsGiven(ws: seq<World>, es: seq<Event>, user: string, view: string, perPage: nat) returns (ws': seq<World>, es': seq<Event>)
    requires Run(ws, es) && |ws| == |es| + 1
    requires var w := ws[|es|];
      && FlightKey(user, view, perPage, Generation(w.c, user)) !in w.table
      && Key(user, view) in w.c.entries && w.c.entries[Key(user, view)].listing.perPage == perPage
      && var e := w.c.entries[Key(user, view)]; !e.changed && e.fetched == Some(0) && e.lastUse == 0
    ensures Run(ws', es') && |ws'| == |es'| + 1
    ensures var w, v := ws[|es|], ws'[|es'|];
      && v.c == w.c && v.log == w.log && v.refreshes == w.refreshes
      && |v.flights| == |w.flights| + 1 && v.flights[..|w.flights|] == w.flights
      && v.flights[|w.flights|].outcome == Got(w.c.entries[Key(user, view)].listing)
      && v.flights[|w.flights|] == FirstFlight(user, view, perPage, Generation(w.c, user), |w.log|).(
           phase := Closing, cached := true, outcome := v.flights[|w.flights|].outcome)
      && v.readers == w.readers + [Reader(user, view, perPage, |w.log|, |w.flights|)]
      && v.table == w.table[FlightKey(user, view, perPage, Generation(w.c, user)) := |w.flights|]
  {
    hide Run;
    var w := ws[|es|];
    var n, g := |w.flights|, Generation(w.c, user);
    var f := FirstFlight(user, view, perPage, g, |w.log|);
    var w1 := w.(readers := w.readers + [Reader(user, view, perPage, |w.log|, n)], flights := w.flights + [f],
                 table := w.table[FlightKey(user, view, perPage, g) := n]);
    Extended(ws, es, Load(user, view, perPage, false), w1);
    ws', es' := ws + [w1], es + [Load(user, view, perPage, false)];
    var l := w.c.entries[Key(user, view)].listing;
    var given := f.(phase := Closing, cached := true, outcome := Got(l));
    var w2 := w1.(flights := w1.flights[n := given]);
    assert w.c.entries[Key(user, view) := w.c.entries[Key(user, view)].(lastUse := 0)] == w.c.entries;
    Extended(ws', es', LookUp(n, 0), w2);
    ws', es' := ws' + [w2], es' + [LookUp(n, 0)];
  }

  /** A page stored, and then a change of another folder told. */
  lemma OtherFolderChanges(user: string, view: string, folder: string, perPage: nat, other: string)
      returns (ws: seq<World>, es: seq<Event>)
    requires Resolves(view, folder) && !Shows(view, other)
    ensures Run(ws, es) && |ws| == |es| + 1
    ensures var w, l := ws[|es|], Listing(folder, Direct, 0, 0, perPage);
      && w.c == OneEntry(Key(user, view), l).(generation := map[user := 1])
      && w.log == [Change(user, Folder(other), false, 0)] && w.table == map[] && w.refreshes == []
      && |w.flights| == 1 && |w.readers| == 1
  {
    hide Run, Resolves, Shows, Staled;
    ws, es := PageIsStored(user, view, folder, perPage);
    var w := ws[|es|];
    EntryStays(user, view, Listing(folder, Direct, 0, 0, perPage), other);
    var v := Told(w, Staled(w.c, user, other), user, Folder(other), false);
    Extended(ws, es, StaleFolder(user, other), v);
    ws, es := ws + [v], es + [StaleFolder(user, other)];
  }

  /** A view of one folder: its page stays fresh over another folder's change. */
  lemma StoredPageIsGiven(user: string, view: string, folder: string, other: string) returns (ws: seq<World>, es: seq<Event>)
    requires Resolves(view, folder) && !Shows(view, other)
    ensures Given(ws, es, |es|, 1, 0, user, view, folder, Folder(other))
    ensures ws[|es|].flights[ws[|es|].readers[1].flight].outcome.listing.readAt == 0
  {
    hide Run, Resolves, Shows;
    ws, es := OtherFolderChanges(user, view, folder, 0, other);
    ws, es := CachedIsGiven(ws, es, user, view, 0);
  }

  /** A merged view cut from an order: its own order of the folder is held over another folder's
      change, and the page loaded after that is cut from it. */
  lemma OlderPageIsGiven(user: string, view: string, folder: string, other: string) returns (ws: seq<World>, es: seq<Event>)
    requires Resolves(view, folder) && OrderedView(view) && FolderName(other) && !Touches(Folder(other), folder)
    ensures Given(ws, es, |es|, 0, 0, user, view, folder, Folder(other))
    ensures ws[|es|].flights[ws[|es|].readers[0].flight].outcome.listing.readAt == 0
  {
    hide Run, Resolves, Shows, Touches, FolderName, Staled, OrderedView, OrderOf, SpecOf;
    var threads := SpecOf(view).thread == "";
    OrderIsOfFolder(view, folder, threads, "");
    ResolvesShows(view, folder);
    var order := OrderOf(view, folder, threads, "").value;
    ws, es := OrderIsHeld(user, order);
    var w := ws[|es|];
    OrderStays(user, order, folder, other);
    var w1 := Told(w, Staled(w.c, user, other), user, Folder(other), false);
    Extended(ws, es, StaleFolder(user, other), w1);
    ws, es := ws + [w1], es + [StaleFolder(user, other)];
    var f := FirstFlight(user, view, 0, 1, 1);
    assert w1.flights + [f] == [f] && w1.log == [Change(user, Folder(other), false, 0)];
    var w2 := w1.(readers := [Reader(user, view, 0, 1, 0)], flights := [f], table := map[FlightKey(user, view, 0, 1) := 0]);
    Extended(ws, es, Load(user, view, 0, false), w2);
    ws, es := ws + [w2], es + [Load(user, view, 0, false)];
    ws, es := FlightCuts(ws, es, folder, threads);
  }

  /** A flight that finds no page, takes the view's order and comes back with the page cut from it. */
  lemma FlightCuts(ws: seq<World>, es: seq<Event>, folder: string, threads: bool) returns (ws': seq<World>, es': seq<Event>)
    requires Run(ws, es) && |ws| == |es| + 1
    requires var w := ws[|es|];
      && |w.flights| == 1 && w.flights[0].phase == Looking && !w.flights[0].takeover && Key(w.flights[0].user, w.flights[0].view) !in w.c.entries
      && Resolves(w.flights[0].view, folder) && OrderOf(w.flights[0].view, folder, threads, "").Some?
      && var k := TakenKey(w.flights[0].user, w.flights[0].view, folder, threads, "");
      k in w.c.orders && w.c.orders[k] == Held(EMPTY_ORDER, 0)
    ensures Run(ws', es') && |ws'| == |es'| + 1
    ensures var w, v := ws[|es|], ws'[|es'|];
      && |v.flights| == 1 && v.readers == w.readers && v.log == w.log
      && v.flights[0].outcome == Got(Listing(folder, FromOrder, 0, 0, w.flights[0].perPage))
  {
    hide Run, Resolves, OrderOf;
    var w := ws[|es|];
    var f := w.flights[0].(phase := Fetching);
    var k := TakenKey(f.user, f.view, folder, threads, "");
    var w1 := w.(flights := [f]);
    assert w.flights[0 := f] == [f];
    Extended(ws, es, LookUp(0, 0), w1);
    ws', es' := ws + [w1], es + [LookUp(0, 0)];
    f := f.(queued := false, started := true);
    var w2 := w1.(flights := [f]);
    Extended(ws', es', Start(0), w2);
    ws', es' := ws' + [w2], es' + [Start(0)];
    f := f.(taken := Some(Taken(folder, 0, 0)));
    var w3 := w2.(c := UsedOrder(w2.c, k, 0), flights := [f]);
    Extended(ws', es', TakeOrder(0, folder, threads, "", 0), w3);
    ws', es' := ws' + [w3], es' + [TakeOrder(0, folder, threads, "", 0)];
    var o := Got(Listing(folder, FromOrder, 0, 0, w.flights[0].perPage));
    f := f.(phase := Storing, outcome := o);
    var w4 := w3.(flights := [f]);
    Extended(ws', es', FetchBack(0, o), w4);
    ws', es' := ws' + [w4], es' + [FetchBack(0, o)];
  }

  function Warmed(user: string, perPage: nat): Cache {
    var l := Listing(INBOX, Direct, 0, 0, perPage);
    Cache(map[Key(user, INBOX) := Entry(l, Some(0), 0, false), Key(user, WARMED) := Entry(l.(source := Copied), Some(0), 0, false)],
          map[], 0, map[user := 1])
  }

  lemma CopyIsStored(user: string, perPage: nat)
    ensures var l := Listing(INBOX, Direct, 0, 0, perPage);
      Stored(OneEntry(Key(user, INBOX), l).(generation := map[user := 1]), Warmed(user, perPage), user, WARMED,
             l.(source := Copied), 1, 0, KEEP_FOR)
  {
    var l, v := Listing(INBOX, Direct, 0, 0, perPage), Warmed(user, perPage);
    assert v.entries.Keys == {Key(user, INBOX), Key(user, WARMED)} && |v.entries| == |v.entries.Keys|;
    assert v.entries == OneEntry(Key(user, INBOX), l).entries[Key(user, WARMED) := Entry(l.(source := Copied), Some(0), 0, false)];
  }

  /** Mail arrives: the generation is noted and the inbox's page, still fresh, is given again. */
  lemma InboxIsGiven(user: string, other: string) returns (ws: seq<World>, es: seq<Event>)
    requires !Shows(INBOX, other)
    ensures Run(ws, es) && |ws| == |es| + 1
    ensures var w, l := ws[|es|], Listing(INBOX, Direct, 0, 0, 0);
      && w.c == OneEntry(Key(user, INBOX), l).(generation := map[user := 1])
      && w.log == [Change(user, Folder(other), false, 0)] && w.refreshes == [Epoch(user, WARMED, 1, 1, None)]
      && |w.flights| == 2 && |w.readers| == 2 && w.readers[1] == Reader(user, INBOX, 0, 1, 1)
      && w.flights[1] == FirstFlight(user, INBOX, 0, 1, 1).(phase := Closing, cached := true, outcome := Got(l))
      && w.table == map[FlightKey(user, INBOX, 0, 1) := 1]
  {
    hide Run, Resolves, Shows, Stored, Next, OrderedView;
    InboxIsItself(INBOX);
    ws, es := OtherFolderChanges(user, INBOX, INBOX, 0, other);
    var w := ws[|es|].(refreshes := [Epoch(user, WARMED, 1, 1, None)]);
    RefreshBegins(ws[|es|], user, WARMED);
    assert ws[|es|].refreshes + w.refreshes == w.refreshes;
    Extended(ws, es, BeginRefresh(user, WARMED), w);
    ws, es := ws + [w], es + [BeginRefresh(user, WARMED)];
    ws, es := CachedIsGiven(ws, es, user, INBOX, 0);
  }

  /** The warmed view: a folder's page stays fresh over another folder's change, is copied when
      mail arrives, and the copy is given. */
  lemma CopiedPageIsGiven(user: string, other: string) returns (ws: seq<World>, es: seq<Event>)
    requires !Shows(INBOX, other)
    ensures Given(ws, es, |es|, 2, 0, user, WARMED, INBOX, Folder(other))
    ensures ws[|es|].flights[ws[|es|].readers[2].flight].outcome.listing.readAt == 0
  {
    hide Run, Resolves, Shows, Stored;
    ws, es := InboxIsGiven(user, other);
    var w := ws[|es|];
    var v := w.(flights := w.flights[1 := w.flights[1].(phase := Done)], table := map[]);
    FlightCloses(w, 1);
    assert w.table - {FlightKey(user, INBOX, 0, 1)} == map[];
    Extended(ws, es, Close(1), v);
    ws, es := ws + [v], es + [Close(1)];
    CopyIsStored(user, 0);
    var u := v.(c := Warmed(user, 0));
    Extended(ws, es, Warm(0, 1, 0), u);
    ws, es := ws + [u], es + [Warm(0, 1, 0)];
    ws, es := CachedIsGiven(ws, es, user, WARMED, 0);
  }

  /** Exactly which changes are seen: the folder's own, and in a merged view every folder's,
      unless its pages are cut from orders, which another folder's change leaves in place, or
      copied, as the inbox's are. */
  lemma SeesExactly(user: string, view: string, folder: string, s: Scope)
    requires Resolves(view, folder) && (s.Folder? ==> FolderName(s.name))
    ensures Sees(user, view, folder, s) <==> AlwaysSeen(view, folder, s)
  {
    hide Run, Resolves, Shows, OrderedView, Touches, FolderName, Reaches, Sourced;
    if AlwaysSeen(view, folder, s) {
      forall ws: seq<World>, es: seq<Event>, n: nat, r: nat, i: nat | Given(ws, es, n, r, i, user, view, folder, s)
        ensures i < ws[n].flights[ws[n].readers[r].flight].outcome.listing.readAt
      {
        ReadYourWrites(ws, es, n, r, i);
        SeenIsReached(ws[n].flights[ws[n].readers[r].flight].outcome.listing, view, ws[n].log[i]);
      }
    } else {
      EverythingTouches(s, folder);
      var ws, es, r := NotSeen(user, view, folder, s.name);
      assert Given(ws, es, |es|, r, 0, user, view, folder, s);
    }
  }

  lemma NotSeen(user: string, view: string, folder: string, other: string) returns (ws: seq<World>, es: seq<Event>, r: nat)
    requires Resolves(view, folder) && FolderName(other) && !AlwaysSeen(view, folder, Folder(other))
    ensures Given(ws, es, |es|, r, 0, user, view, folder, Folder(other))
    ensures ws[|es|].flights[ws[|es|].readers[r].flight].outcome.listing.readAt == 0
  {
    hide Run, Resolves, OrderedView, FolderName, Given, Shows;
    if !Merged(view) {
      OneFolder(view, folder, Folder(other));
      ws, es := StoredPageIsGiven(user, view, folder, other);
      r := 1;
    } else if OrderedView(view) {
      ws, es := OlderPageIsGiven(user, view, folder, other);
      r := 0;
    } else {
      ws, es := CopiedPageIsGiven(user, other);
      r := 2;
    }
  }

  lemma EverythingTouches(s: Scope, folder: string)
    ensures s.Everything? ==> Touches(s, folder)
  {
  }

  // ----- accounting

  lemma {:induction false} FewerWords(a: map<Key, Held>, b: map<Key, Held>)
    requires forall k | k in a :: k in b && a[k].order.Words() == b[k].order.Words()
    ensures TotalWords(a) <= TotalWords(b) && |a| <= |b|
    ensures a.Keys == b.Keys ==> TotalWords(a) == TotalWords(b)
    decreases |b|
  {
    SubsetSize(a.Keys, b.Keys);
    if b == map[] {
      assert a == map[];
    } else {
      var k :| k in b;
      WordsWithout(b, k);
      if k in a {
        WordsWithout(a, k);
        FewerWords(a - {k}, b - {k});
      } else {
        assert a.Keys != b.Keys;
        FewerWords(a, b - {k});
      }
    }
  }

  ghost predicate Counted(c: Cache) {
    Accounted(c) && Bounded(c)
  }

  lemma ChangeKeepsCounted(c: Cache, v: Cache, user: string, s: Scope)
    requires Counted(c) && v.entries.Keys <= c.entries.Keys
    requires v.orders == Without(c.orders, user, s)
    requires v.heldWords == c.heldWords - TotalWords(c.orders) + TotalWords(v.orders)
    ensures Counted(v)
  {
    SubsetSize(v.entries.Keys, c.entries.Keys);
    FewerWords(v.orders, c.orders);
  }

  lemma HoldKeepsCounted(c: Cache, v: Cache, user: string, view: string, o: Order, generation: nat, now: nat)
    requires Counted(c) && OrderHeld(c, v, user, view, o, generation, now)
    ensures Counted(v)
  {
    if v != c {
      var full := c.orders[Key(user, view) := Held(o, now)];
      SubsetSize(v.orders.Keys, full.Keys);
    }
  }

  lemma UseKeepsCounted(c: Cache, v: Cache)
    requires Counted(c) && v.entries.Keys == c.entries.Keys && v.heldWords == c.heldWords
    requires v.orders.Keys == c.orders.Keys && forall k | k in c.orders :: v.orders[k].order == c.orders[k].order
    ensures Counted(v)
  {
    FewerWords(v.orders, c.orders);
    FewerWords(c.orders, v.orders);
    SubsetSize(v.entries.Keys, c.entries.Keys);
  }

  lemma {:induction false} StepKeepsCounted(w: World, e: Event, v: World)
    requires Counted(w.c) && Next(w, e, v)
    ensures Counted(v.c)
  {
    hide Counted, Next;
    if e.StaleFolder? || e.DropScope? || e.FlagFolder? || e.Reorder? {
      ToldKeepsCounted(w, e, v);
    } else if e.UseOrder? || e.TakeOrder? || e.RefreshTakes? {
      UsedOrderKeepsCounted(w, e, v);
    } else if e.EndOrder? {
      AskKeepsCounted(w, e, v);
    } else {
      PagesKeepCounted(w, e, v);
    }
  }

  lemma ToldKeepsCounted(w: World, e: Event, v: World)
    requires Counted(w.c) && Next(w, e, v) && (e.StaleFolder? || e.DropScope? || e.FlagFolder? || e.Reorder?)
    ensures Counted(v.c)
  {
    hide Counted;
    ChangeKeepsCounted(w.c, v.c, e.user, if e.DropScope? then e.scope else Folder(e.folder));
  }

  lemma UsedOrderKeepsCounted(w: World, e: Event, v: World)
    requires Counted(w.c) && Next(w, e, v) && (e.UseOrder? || e.TakeOrder? || e.RefreshTakes?)
    ensures Counted(v.c)
  {
    hide Counted;
    assert exists k :: k in w.c.orders && v.c == UsedOrder(w.c, k, e.now);
    assert v.c.orders.Keys == w.c.orders.Keys;
    UseKeepsCounted(w.c, v.c);
  }

  lemma AskKeepsCounted(w: World, e: Event, v: World)
    requires Counted(w.c) && Next(w, e, v) && e.EndOrder?
    ensures Counted(v.c)
  {
    hide Counted, OrderHeld;
    HoldKeepsCounted(w.c, v.c, w.asks[e.i].user, w.asks[e.i].view, e.order, w.asks[e.i].generation, e.now);
  }

  lemma PagesKeepCounted(w: World, e: Event, v: World)
    requires Counted(w.c) && Next(w, e, v)
    requires !(e.StaleFolder? || e.DropScope? || e.FlagFolder? || e.Reorder? || e.UseOrder? || e.TakeOrder? || e.RefreshTakes? || e.EndOrder?)
    ensures Counted(v.c)
  {
    hide TotalWords, Readable, Answered;
    assert v.c.orders == w.c.orders && v.c.heldWords == w.c.heldWords;
    assert v.c.entries.Keys == w.c.entries.Keys || |v.c.entries| <= MAX_ENTRIES;
    if v.c.entries.Keys == w.c.entries.Keys { SubsetSize(v.c.entries.Keys, w.c.entries.Keys); }
  }

  /** In every reachable state the words counted are the words held, and pages, orders and
      words are within their bounds. */
  lemma {:induction false} RunsAreCounted(ws: seq<World>, es: seq<Event>, n: nat)
    requires Run(ws, es) && n < |ws|
    ensures Accounted(ws[n].c) && Bounded(ws[n].c)
    ensures |ws[n].c.entries| <= 512 && |ws[n].c.orders| <= 16_384 && TotalWords(ws[n].c.orders) <= 4_194_304
  {
    if n > 0 {
      RunsAreCounted(ws, es, n - 1);
      StepKeepsCounted(ws[n - 1], es[n - 1], ws[n]);
    }
  }

  // ----- the takeover handshake

  ghost predicate Handshake(f: Flight) {
    && (f.queued ==> !f.started && !f.takeover && (f.phase == Looking || f.phase == Fetching || f.cached))
    && (f.phase == Looking ==> !f.started)
    && (f.takeover ==> !f.started)
    && (f.took ==> f.ran) && (f.ran ==> f.takeover)
    && (f.phase == TakingOver ==> f.ran)
    && (f.takeover && (f.phase == Storing || f.phase == Closing || f.phase == Done) ==> f.ran || f.cached)
  }

  /** How a flight can change in one step, the rest of the world left aside. */
  predicate FlightStep(f: Flight, g: Flight, moves: bool) {
    if moves then
      || (f.phase == Looking && g == f.(phase := Closing, cached := true, outcome := g.outcome))
      || (f.phase == Looking && g == f.(phase := Fetching))
      || (f.phase == Fetching && f.takeover && g == f.(queued := false, phase := TakingOver, ran := true))
      || (f.phase == Fetching && !f.takeover && g == f.(queued := false, phase := Storing, outcome := g.outcome))
      || (f.phase == TakingOver && g == f.(phase := Storing, outcome := g.outcome))
      || (f.phase == Storing && g == f.(phase := Closing))
      || (f.phase == Closing && g == f.(phase := Done))
    else
      || g == f
      || (f.queued && g == f.(queued := false, takeover := true))
      || (f.phase == Fetching && g == f.(queued := false, started := f.started || !f.takeover))
      || (f.phase == TakingOver && g == f.(took := true))
      || (f.phase != Looking && g == f.(taken := g.taken))
  }

  lemma StepOfFlight(w: World, e: Event, v: World, i: nat)
    requires Next(w, e, v) && i < |w.flights|
    ensures i < |v.flights| && FlightStep(w.flights[i], v.flights[i], Moves(e, i))
  {
    hide Staled, Dropped, Flagged, Stored, OrderHeld, OrdersDropped, Readable, Takes, UsedOrder, TakenFrom;
    match e
    case Load(_, _, _, _) =>
    case LookUp(j, now) => if i == j { LookUpOfFlight(w, v, i, now); }
    case Start(_) =>
    case FetchBack(_, _) =>
    case TakeOrder(_, _, _, _, _) =>
    case TakeoverStart(_) =>
    case TakeoverBack(_, _) =>
    case Store(_, _) =>
    case Close(_) =>
    case _ =>
  }

  lemma LookUpOfFlight(w: World, v: World, i: nat, now: nat)
    requires At(w, i, Looking) && LooksUp(w, v, i, now)
    ensures i < |v.flights| && FlightStep(w.flights[i], v.flights[i], true)
  {
  }

  lemma NewFlight(w: World, e: Event, v: World, i: nat)
    requires Next(w, e, v) && |w.flights| <= i < |v.flights|
    ensures Handshake(v.flights[i])
  {
  }

  lemma FlightKeepsHandshake(f: Flight, g: Flight, moves: bool)
    requires Handshake(f) && FlightStep(f, g, moves)
    ensures Handshake(g)
  {
  }

  lemma {:induction false} RunsShakeHands(ws: seq<World>, es: seq<Event>, n: nat, i: nat)
    requires Run(ws, es) && n < |ws| && i < |ws[n].flights|
    ensures Handshake(ws[n].flights[i])
  {
    if n > 0 {
      var w, e, v := ws[n - 1], es[n - 1], ws[n];
      if i < |w.flights| {
        RunsShakeHands(ws, es, n - 1, i);
        StepOfFlight(w, e, v, i);
        FlightKeepsHandshake(w.flights[i], v.flights[i], Moves(e, i));
      } else {
        NewFlight(w, e, v, i);
      }
    }
  }

  /** The speculative fetch and the takeover never both reach the connection, and a takeover
      that was set has been called once its flight is over, unless the cache answered. */
  lemma TakeoverHandshake(ws: seq<World>, es: seq<Event>, n: nat, i: nat)
    requires Run(ws, es) && n < |ws| && i < |ws[n].flights|
    ensures !(ws[n].flights[i].started && ws[n].flights[i].took)
    ensures ws[n].flights[i].phase == Done && ws[n].flights[i].takeover ==> ws[n].flights[i].ran || ws[n].flights[i].cached
  {
    RunsShakeHands(ws, es, n, i);
  }

  function Rank(p: Phase): nat {
    match p
    case Looking => 5
    case Fetching => 4
    case TakingOver => 3
    case Storing => 2
    case Closing => 1
    case Done => 0
  }

  /** The steps that carry flight `i` on. */
  predicate Moves(e: Event, i: nat) {
    match e
    case LookUp(j, _) => i == j
    case FetchBack(j, _) => i == j
    case TakeoverBack(j, _) => i == j
    case Store(j, _) => i == j
    case Close(j) => i == j
    case _ => false
  }

  function MovesOf(es: seq<Event>, i: nat): nat {
    if es == [] then 0 else (if Moves(es[0], i) then 1 else 0) + MovesOf(es[1..], i)
  }

  ghost predicate Chain(ws: seq<World>, es: seq<Event>) {
    |ws| == |es| + 1 && forall i | 0 <= i < |es| :: Next(ws[i], es[i], ws[i + 1])
  }

  lemma FlightCarriesOn(f: Flight, g: Flight, moves: bool)
    requires FlightStep(f, g, moves)
    ensures Rank(g.phase) <= Rank(f.phase) - (if moves then 1 else 0)
    ensures f.phase == Done ==> g.phase == Done && g.outcome == f.outcome
  {
    hide FlightStep;
    if moves { FlightGoesOn(f, g); } else { FlightStays(f, g); }
  }

  lemma FlightGoesOn(f: Flight, g: Flight)
    requires FlightStep(f, g, true)
    ensures Rank(g.phase) < Rank(f.phase)
  {
  }

  lemma FlightStays(f: Flight, g: Flight)
    requires FlightStep(f, g, false)
    ensures g.phase == f.phase && g.outcome == f.outcome
  {
  }

  /** Every joined reader is released: a flight is over after at most five steps of its own,
      whatever the others do, and its one result never changes after that. */
  lemma {:induction false} FlightEnds(ws: seq<World>, es: seq<Event>, i: nat)
    requires Chain(ws, es) && i < |ws[0].flights|
    ensures i < |ws[|es|].flights|
    ensures MovesOf(es, i) >= Rank(ws[0].flights[i].phase) ==> ws[|es|].flights[i].phase == Done
    ensures ws[0].flights[i].phase == Done ==> ws[|es|].flights[i].outcome == ws[0].flights[i].outcome
    decreases |es|
  {
    if es != [] {
      StepOfFlight(ws[0], es[0], ws[1], i);
      FlightCarriesOn(ws[0].flights[i], ws[1].flights[i], Moves(es[0], i));
      assert Chain(ws[1..], es[1..]) by {
        forall j | 0 <= j < |es| - 1
          ensures Next(ws[1..][j], es[1..][j], ws[1..][j + 1])
        {
          assert Next(ws[j + 1], es[j + 1], ws[j + 2]);
        }
      }
      FlightEnds(ws[1..], es[1..], i);
    }
  }

  // ----- what the cache answers

  /** A page held for the view that may be given: of that size, not known to be wrong, and
      fetched no more than thirty seconds ago. */
  predicate Young(c: Cache, f: Flight, now: nat) {
    var k := Key(f.user, f.view);
    && k in c.entries && c.entries[k].listing.perPage == f.perPage
    && !c.entries[k].changed
    && c.entries[k].fetched.Some? && now <= c.entries[k].fetched.value + 30_000_000_000
  }

  /** The cache answers exactly when it can. */
  lemma LookUpAnswers(w: World, v: World, i: nat, now: nat)
    requires Next(w, LookUp(i, now), v) && !w.flights[i].cached
    ensures i < |v.flights| && (v.flights[i].cached <==> Young(w.c, w.flights[i], now))
    ensures v.flights[i].cached ==> v.flights[i].outcome == Got(w.c.entries[Key(w.flights[i].user, w.flights[i].view)].listing)
    ensures !v.flights[i].cached ==> v.flights[i].phase == Fetching
  {
  }

  lemma CachedStays(f: Flight, g: Flight, moves: bool)
    requires FlightStep(f, g, moves) && f.cached && (f.phase == Closing || f.phase == Done)
    ensures g.cached && (g.phase == Closing || g.phase == Done)
    ensures g.outcome == f.outcome && g.user == f.user && g.view == f.view && g.perPage == f.perPage
  {
  }

  lemma BecomesCached(f: Flight, g: Flight, moves: bool)
    requires FlightStep(f, g, moves) && !f.cached && g.cached
    ensures moves && f.phase == Looking && g.phase == Closing && g.user == f.user && g.view == f.view && g.perPage == f.perPage
  {
  }

  lemma LookedUp(w: World, e: Event, v: World, i: nat)
    requires Next(w, e, v) && Moves(e, i) && At(w, i, Looking)
    ensures e.LookUp? && e.f == i
  {
    hide Stored, LooksUp, Answered;
  }

  lemma NewIsNotCached(w: World, e: Event, v: World, i: nat)
    requires Next(w, e, v) && |w.flights| <= i < |v.flights|
    ensures !v.flights[i].cached
  {
    hide Staled, Dropped, Flagged, Stored, OrderHeld, OrdersDropped, Readable, Takes, UsedOrder, TakenFrom;
  }

  /** Whatever a flight gives from the cache, it found there at its look-up: a page of the size
      asked for, not known to be wrong, no more than thirty seconds old. */
  lemma {:induction false} CachedIsYoung(ws: seq<World>, es: seq<Event>, n: nat, i: nat) returns (m: nat, now: nat)
    requires Run(ws, es) && n < |ws| && i < |ws[n].flights| && ws[n].flights[i].cached
    ensures m < n && es[m] == LookUp(i, now) && Young(ws[m].c, ws[n].flights[i], now)
    ensures var f := ws[n].flights[i]; f.outcome == Got(ws[m].c.entries[Key(f.user, f.view)].listing)
    ensures ws[n].flights[i].phase == Closing || ws[n].flights[i].phase == Done
  {
    hide FlightStep, Next;
    var w, e, v := ws[n - 1], es[n - 1], ws[n];
    assert Next(w, e, v);
    if i >= |w.flights| { NewIsNotCached(w, e, v, i); }
    StepOfFlight(w, e, v, i);
    if w.flights[i].cached {
      m, now := CachedIsYoung(ws, es, n - 1, i);
      CachedStays(w.flights[i], v.flights[i], Moves(e, i));
    } else {
      BecomesCached(w.flights[i], v.flights[i], Moves(e, i));
      LookedUp(w, e, v, i);
      m, now := n - 1, e.now;
      LookUpAnswers(w, v, i, now);
    }
  }
}
