/** The cache of listed pages and of held orders, guarded by one mutex. */
module ListingCache {
  import opened Basics
  import opened ListingViews

  const FRESH_FOR: nat := 30_000_000_000
  const MAX_ENTRIES: nat := 512
  const MAX_WORDS: nat := 4_194_304
  const MAX_ORDERS: nat := 16_384

  datatype Key = Key(user: string, view: string)

  /** How a page came: read, cut from an order held before, or copied from a folder's page. */
  datatype Source = Direct | FromOrder | Copied

  /** A page as the server gave it: the folder its rows are from, which a merged view's name
      hides; `readAt` counts the changes told to the cache before it was read, or before the
      order it was cut from was; `version` is the server's state it shows. */
  datatype Listing = Listing(folder: string, source: Source, readAt: nat, version: nat, perPage: nat)

  /** `fetched` is None once a change made the age unknown. */
  datatype Entry = Entry(listing: Listing, fetched: Option<nat>, lastUse: nat, changed: bool)

  datatype Order = Order(readAt: nat, version: nat, uids: seq<nat>, depths: seq<int>, starts: seq<int>) {
    function Words(): nat { |uids| + |depths| + |starts| }
  }

  datatype Held = Held(order: Order, lastUse: nat)

  datatype Cache = Cache(
    entries: map<Key, Entry>, orders: map<Key, Held>, heldWords: int, generation: map<string, nat>)

  datatype Freshness = Miss | Changed | Stale | Fresh

  // ----- what the cache holds, as functions and relations of its state

  function Generation(c: Cache, user: string): nat {
    if user in c.generation then c.generation[user] else 0
  }

  ghost function TotalWords(orders: map<Key, Held>): nat {
    if orders == map[] then 0
    else
      var k :| k in orders;
      orders[k].order.Words() + TotalWords(orders - {k})
  }

  /** The sum does not depend on the order in which it is taken. */
  lemma {:induction false} WordsWithout(orders: map<Key, Held>, k: Key)
    requires k in orders
    ensures TotalWords(orders) == orders[k].order.Words() + TotalWords(orders - {k})
    decreases |orders|
  {
    var first :| first in orders && TotalWords(orders) == orders[first].order.Words() + TotalWords(orders - {first});
    if first != k {
      WordsWithout(orders - {first}, k);
      WordsWithout(orders - {k}, first);
      assert orders - {first} - {k} == orders - {k} - {first};
    }
  }

  ghost predicate Accounted(c: Cache) {
    c.heldWords == TotalWords(c.orders)
  }

  ghost predicate Bounded(c: Cache) {
    && |c.entries| <= MAX_ENTRIES
    && c.heldWords <= MAX_WORDS && |c.orders| <= MAX_ORDERS
  }

  ghost function Without(orders: map<Key, Held>, user: string, s: Scope): map<Key, Held> {
    map k | k in orders && !(k.user == user && Touches(s, k.view)) :: orders[k]
  }

  ghost function OrdersDropped(c: Cache, user: string, s: Scope): Cache {
    var kept := Without(c.orders, user, s);
    c.(orders := kept, heldWords := c.heldWords - TotalWords(c.orders) + TotalWords(kept))
  }

  ghost function Bumped(c: Cache, user: string): Cache {
    c.(generation := c.generation[user := Generation(c, user) + 1])
  }

  function Marked(e: Entry): Entry {
    e.(fetched := None, changed := true)
  }

  ghost function Staled(c: Cache, user: string, folder: string): Cache {
    OrdersDropped(Bumped(c, user), user, Folder(folder)).(
      entries := map k | k in c.entries ::
        if k.user == user && Shows(k.view, folder) then Marked(c.entries[k]) else c.entries[k])
  }

  ghost function Dropped(c: Cache, user: string, s: Scope): Cache {
    OrdersDropped(Bumped(c, user), user, s).(
      entries := map k | k in c.entries && !(k.user == user && Touches(s, k.view)) :: c.entries[k])
  }

  predicate PageOf(view: string, folder: string) {
    view == folder || folder + SEP + "page=" <= view
  }

  /** A view whose membership a flag may move: filtered, sorted, searched or merged. */
  predicate FlagFiltered(view: string, folder: string) {
    "#" <= view || (folder + SEP <= view && !(folder + SEP + "page=" <= view))
  }

  /** A flag write: filtered views go, the folder's own pages are rewritten and age at once. */
  ghost function Flagged(c: Cache, user: string, folder: string): Cache {
    OrdersDropped(Bumped(c, user), user, Folder(folder)).(
      entries := map k | k in c.entries && !(k.user == user && FlagFiltered(k.view, folder)) ::
        if k.user == user && PageOf(k.view, folder) then c.entries[k].(fetched := None) else c.entries[k])
  }

  predicate Expired(lastUse: nat, now: nat, keepFor: nat) {
    lastUse + keepFor < now
  }

  /** Storing a page: refused after any change since `generation`; else held, with pages out of
      use past the keeping time and then the least recently used ones beyond the bound let go. */
  ghost predicate Stored(c: Cache, v: Cache, user: string, view: string, l: Listing, generation: nat, now: nat, keepFor: nat) {
    if Generation(c, user) != generation then v == c
    else
      var full := c.entries[Key(user, view) := Entry(l, Some(now), now, false)];
      && v == c.(entries := v.entries)
      && (forall k | k in v.entries :: k in full && v.entries[k] == full[k] && now <= full[k].lastUse + keepFor)
      && |v.entries| <= 512
      && (forall gone, k | gone in full && gone !in v.entries && k in v.entries && now <= full[gone].lastUse + keepFor ::
            full[gone].lastUse <= full[k].lastUse)
      && ((exists gone :: gone in full && gone !in v.entries && now <= full[gone].lastUse + keepFor) ==>
            |v.entries| == 512)
  }

  predicate Roomy(words: int, count: nat) {
    words <= 3_145_728 && count <= 12_288
  }

  /** Some order that went could not have stayed: nothing goes without need. */
  ghost predicate NeededRoom(was: map<Key, Held>, orders: map<Key, Held>, words: int) {
    exists last :: last in was && last !in orders && !Roomy(words + was[last].order.Words(), |orders| + 1)
  }

  /** Holding an order: refused after any change since `generation` or when it alone is too
      long; over the bounds, the least recently used go until three quarters are left. */
  ghost predicate OrderHeld(c: Cache, v: Cache, user: string, view: string, o: Order, generation: nat, now: nat) {
    if Generation(c, user) != generation || o.Words() > 4_194_304 then v == c
    else
      var full := c.orders[Key(user, view) := Held(o, now)];
      var words := c.heldWords - TotalWords(c.orders) + TotalWords(full);
      && v == c.(orders := v.orders, heldWords := v.heldWords)
      && (forall k | k in v.orders :: k in full && v.orders[k] == full[k])
      && v.heldWords == c.heldWords - TotalWords(c.orders) + TotalWords(v.orders)
      && (words <= 4_194_304 && |full| <= 16_384 ==> v.orders == full)
      && (!(words <= 4_194_304 && |full| <= 16_384) ==>
            && (Roomy(v.heldWords, |v.orders|) || v.orders == map[])
            && NeededRoom(full, v.orders, v.heldWords)
            && (forall gone, k | gone in full && gone !in v.orders && k in v.orders :: full[gone].lastUse <= full[k].lastUse))
  }

  // ----- the cache as it is written

  class ListingCache {
    const keepFor: nat
    var entries: map<Key, Entry>
    var orders: map<Key, Held>
    var heldWords: int
    var generation: map<string, nat>

    constructor (keepFor: nat)
      ensures this.keepFor == keepFor && State() == Cache(map[], map[], 0, map[])
    {
      this.keepFor := keepFor;
      entries, orders, heldWords, generation := map[], map[], 0, map[];
    }

    function State(): Cache
      reads this
    {
      Cache(entries, orders, heldWords, generation)
    }

    method Epoch(user: string) returns (g: nat)
      ensures g == Generation(State(), user)
    {
      g := if user in generation then generation[user] else 0;
    }

    method Bump(user: string)
      modifies this`generation
      ensures State() == Bumped(old(State()), user)
    {
      generation := generation[user := (if user in generation then generation[user] else 0) + 1];
    }

    method Lookup(user: string, view: string, perPage: nat, now: nat) returns (l: Option<Listing>, f: Freshness)
      modifies this`entries
      ensures var k := Key(user, view);
              if k !in old(entries) || old(entries)[k].listing.perPage != perPage
              then l == None && f == Miss && entries == old(entries)
              else
                var e := old(entries)[k];
                && entries == old(entries)[k := e.(lastUse := now)] && l == Some(e.listing)
                && (f == Changed <==> e.changed)
                && (f == Fresh <==> !e.changed && e.fetched.Some? && now <= e.fetched.value + 30_000_000_000)
                && f != Miss
    {
      var k := Key(user, view);
      if k !in entries || entries[k].listing.perPage != perPage { return None, Miss; }
      var e := entries[k];
      entries := entries[k := e.(lastUse := now)];
      l := Some(e.listing);
      if e.changed { return l, Changed; }
      if e.fetched.None? || now > e.fetched.value + FRESH_FOR { return l, Stale; }
      return l, Fresh;
    }

    method HeldOrder(user: string, view: string, now: nat) returns (o: Option<Order>)
      modifies this`orders
      ensures var k := Key(user, view);
              if k !in old(orders) || old(orders)[k].lastUse + keepFor < now then o == None && orders == old(orders)
              else o == Some(old(orders)[k].order) && orders == old(orders)[k := old(orders)[k].(lastUse := now)]
    {
      var k := Key(user, view);
      if k !in orders || orders[k].lastUse + keepFor < now { return None; }
      orders := orders[k := orders[k].(lastUse := now)];
      return Some(orders[k].order);
    }

    method DropOrders(user: string, s: Scope)
      modifies this`orders, this`heldWords
      ensures State() == OrdersDropped(old(State()), user, s)
    {
      var was, todo := orders, orders.Keys;
      while todo != {}
        invariant todo <= was.Keys && orders.Keys <= was.Keys
        invariant forall k | k in orders :: orders[k] == was[k]
        invariant forall k | k in was :: k in orders <==> k in todo || !(k.user == user && Touches(s, k.view))
        invariant heldWords == old(heldWords) - TotalWords(was) + TotalWords(orders)
        decreases todo
      {
        var k :| k in todo;
        todo := todo - {k};
        if k.user == user && Touches(s, k.view) {
          WordsWithout(orders, k);
          heldWords := heldWords - orders[k].order.Words();
          orders := orders - {k};
        }
      }
      assert orders == Without(was, user, s);
    }

    method StaleFolder(user: string, folder: string)
      modifies this
      ensures State() == Staled(old(State()), user, folder)
      ensures generation == old(generation)[user := if user in old(generation) then old(generation)[user] + 1 else 1]
      ensures entries == map k | k in old(entries) ::
                if k.user == user && (k.view == folder || folder + "\0" <= k.view || "#" <= k.view)
                then old(entries)[k].(fetched := None, changed := true) else old(entries)[k]
      ensures orders == map k | k in old(orders) &&
                !(k.user == user && (k.view == folder || folder + "\0" <= k.view || "#" <= k.view)) :: old(orders)[k]
    {
      Bump(user);
      DropOrders(user, Folder(folder));
      MarkChanged(user, folder);
    }

    method MarkChanged(user: string, folder: string)
      modifies this`entries
      ensures entries == map k | k in old(entries) ::
                if k.user == user && Shows(k.view, folder) then Marked(old(entries)[k]) else old(entries)[k]
    {
      var was, todo := entries, entries.Keys;
      while todo != {}
        invariant todo <= was.Keys && entries.Keys == was.Keys
        invariant forall k | k in was ::
          entries[k] == if k !in todo && k.user == user && Shows(k.view, folder) then Marked(was[k]) else was[k]
        decreases todo
      {
        var k :| k in todo;
        todo := todo - {k};
        if k.user == user && Shows(k.view, folder) {
          entries := entries[k := entries[k].(fetched := None, changed := true)];
        }
      }
    }

    method Drop(user: string, s: Scope)
      modifies this
      ensures State() == Dropped(old(State()), user, s)
      ensures generation == old(generation)[user := if user in old(generation) then old(generation)[user] + 1 else 1]
      ensures entries == map k | k in old(entries) && !(k.user == user && Touches(s, k.view)) :: old(entries)[k]
      ensures orders == map k | k in old(orders) && !(k.user == user && Touches(s, k.view)) :: old(orders)[k]
    {
      Bump(user);
      entries := map k | k in entries && !(k.user == user && Touches(s, k.view)) :: entries[k];
      DropOrders(user, s);
    }

    /** The unseen counts and the rewritten flags of the rows are not part of the state here. */
    method FlagFolder(user: string, folder: string)
      modifies this
      ensures State() == Flagged(old(State()), user, folder)
      ensures generation == old(generation)[user := if user in old(generation) then old(generation)[user] + 1 else 1]
      ensures orders == map k | k in old(orders) &&
                !(k.user == user && (k.view == folder || folder + "\0" <= k.view || "#" <= k.view)) :: old(orders)[k]
      ensures forall k | k in old(entries) && k.user != user :: k in entries && entries[k] == old(entries)[k]
      ensures forall k | k in old(entries) && k.user == user ::
                if "#" <= k.view || (folder + "\0" <= k.view && !(folder + "\0page=" <= k.view)) then k !in entries
                else k in entries && entries[k] == if k.view == folder || folder + "\0" <= k.view
                                                   then old(entries)[k].(fetched := None) else old(entries)[k]
      ensures forall k | k in entries :: k in old(entries)
    {
      Bump(user);
      DropOrders(user, Folder(folder));
      AgeFlagged(user, folder);
    }

    method AgeFlagged(user: string, folder: string)
      modifies this`entries
      ensures entries == map k | k in old(entries) && !(k.user == user && FlagFiltered(k.view, folder)) ::
                if k.user == user && PageOf(k.view, folder) then old(entries)[k].(fetched := None) else old(entries)[k]
    {
      var was, todo := entries, entries.Keys;
      while todo != {}
        invariant todo <= was.Keys && entries.Keys <= was.Keys
        invariant forall k | k in was :: k in entries <==> k in todo || !(k.user == user && FlagFiltered(k.view, folder))
        invariant forall k | k in entries ::
          entries[k] == if k !in todo && k.user == user && PageOf(k.view, folder) then was[k].(fetched := None) else was[k]
        decreases todo
      {
        var k :| k in todo;
        todo := todo - {k};
        if k.user == user {
          if FlagFiltered(k.view, folder) {
            entries := entries - {k};
          } else if PageOf(k.view, folder) {
            entries := entries[k := entries[k].(fetched := None)];
          }
        }
      }
    }

    method StoreAt(user: string, view: string, l: Listing, gen: nat, now: nat)
      modifies this`entries
      ensures Stored(old(State()), State(), user, view, l, gen, now, keepFor)
    {
      var g := Epoch(user);
      if g != gen { return; }
      entries := entries[Key(user, view) := Entry(l, Some(now), now, false)];
      ghost var full := entries;
      entries := map k | k in entries && !(entries[k].lastUse + keepFor < now) :: entries[k];
      TrimEntries();
      forall gone, k | gone in full && gone !in entries && k in entries && !Expired(full[gone].lastUse, now, keepFor)
        ensures full[gone].lastUse <= full[k].lastUse
      {
      }
    }

    method TrimEntries()
      modifies this`entries
      ensures forall k | k in entries :: k in old(entries) && entries[k] == old(entries)[k]
      ensures forall gone, k | gone in old(entries) && gone !in entries && k in entries ::
                old(entries)[gone].lastUse <= old(entries)[k].lastUse
      ensures |entries| <= MAX_ENTRIES && (entries == old(entries) || |entries| == MAX_ENTRIES)
    {
      while |entries| > MAX_ENTRIES
        invariant forall k | k in entries :: k in old(entries) && entries[k] == old(entries)[k]
        invariant forall gone, k | gone in old(entries) && gone !in entries && k in entries ::
          old(entries)[gone].lastUse <= old(entries)[k].lastUse
        invariant entries == old(entries) || |entries| >= MAX_ENTRIES
        decreases |entries|
      {
        var uses := map k | k in entries :: entries[k].lastUse;
        assert uses.Keys == entries.Keys;
        var oldest := LeastRecent(uses);
        assert forall k | k in entries :: entries[oldest].lastUse <= entries[k].lastUse by { assert forall k | k in entries :: k in uses; }
        entries := entries - {oldest};
      }
    }

    /** The second half of `order`: what the server answered, once the lock is held again. */
    method HoldOrder(user: string, view: string, o: Order, gen: nat, now: nat)
      modifies this`orders, this`heldWords
      ensures OrderHeld(old(State()), State(), user, view, o, gen, now)
    {
      var g := Epoch(user);
      if g != gen || o.Words() > MAX_WORDS { return; }
      var k := Key(user, view);
      ghost var was := orders;
      if k in orders {
        WordsWithout(orders, k);
        heldWords := heldWords - orders[k].order.Words();
      }
      orders := orders[k := Held(o, now)];
      heldWords := heldWords + o.Words();
      WordsWithout(orders, k);
      assert orders - {k} == was - {k};
      if k !in was { assert was - {k} == was; }
      if heldWords > MAX_WORDS || |orders| > MAX_ORDERS {
        EvictOrders();
      }
    }

    method EvictOrders()
      requires orders != map[] && !Roomy(heldWords, |orders|)
      modifies this`orders, this`heldWords
      ensures heldWords == old(heldWords) - TotalWords(old(orders)) + TotalWords(orders)
      ensures forall k | k in orders :: k in old(orders) && orders[k] == old(orders)[k]
      ensures Roomy(heldWords, |orders|) || orders == map[]
      ensures NeededRoom(old(orders), orders, heldWords)
      ensures forall gone, k | gone in old(orders) && gone !in orders && k in orders ::
                old(orders)[gone].lastUse <= old(orders)[k].lastUse
    {
      // Sorted by use, the orders go from the least recently used on.
      while orders != map[] && !(heldWords <= MAX_WORDS * 3 / 4 && |orders| <= MAX_ORDERS * 3 / 4)
        invariant forall k | k in orders :: k in old(orders) && orders[k] == old(orders)[k]
        invariant heldWords == old(heldWords) - TotalWords(old(orders)) + TotalWords(orders)
        invariant orders == old(orders) || NeededRoom(old(orders), orders, heldWords)
        invariant orders == old(orders) ==> !Roomy(heldWords, |orders|)
        invariant forall gone, k | gone in old(orders) && gone !in orders && k in orders ::
          old(orders)[gone].lastUse <= old(orders)[k].lastUse
        decreases |orders|
      {
        var oldest := EvictOldest();
        assert !Roomy(heldWords + old(orders)[oldest].order.Words(), |orders| + 1);
      }
    }

    method EvictOldest() returns (oldest: Key)
      requires orders != map[]
      modifies this`orders, this`heldWords
      ensures oldest in old(orders) && orders == old(orders) - {oldest}
      ensures forall k | k in old(orders) :: old(orders)[oldest].lastUse <= old(orders)[k].lastUse
      ensures heldWords == old(heldWords) - old(orders)[oldest].order.Words()
      ensures TotalWords(old(orders)) == old(orders)[oldest].order.Words() + TotalWords(orders)
    {
      var uses := map k | k in orders :: orders[k].lastUse;
      assert uses.Keys == orders.Keys;
      oldest := LeastRecent(uses);
      assert forall k | k in orders :: orders[oldest].lastUse <= orders[k].lastUse by { assert forall k | k in orders :: k in uses; }
      WordsWithout(orders, oldest);
      heldWords := heldWords - orders[oldest].order.Words();
      orders := orders - {oldest};
    }
  }

  method LeastRecent(uses: map<Key, nat>) returns (oldest: Key)
    requires uses != map[]
    ensures oldest in uses && forall k | k in uses :: uses[oldest] <= uses[k]
  {
    oldest :| oldest in uses;
    var todo := uses.Keys;
    while todo != {}
      invariant todo <= uses.Keys && oldest in uses
      invariant forall k | k in uses.Keys - todo :: uses[oldest] <= uses[k]
      decreases todo
    {
      var k :| k in todo;
      todo := todo - {k};
      if uses[k] < uses[oldest] { oldest := k; }
    }
  }
}
