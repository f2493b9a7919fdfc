/** Bodies fetched ahead of the click: what is held, for which mailbox, and how much of it. */
module BodyCache {
  import opened Basics

  const KEEP_PER_USER: nat := 100
  const MAX_BYTES: nat := 64 * 1024 * 1024

  datatype Key = Key(user: string, mbox: string, validity: nat, uid: nat)
  datatype Mailbox = Mailbox(user: string, mbox: string)
  datatype Body = Body(part: seq<nat>, flags: seq<string>, size: nat, lastUse: int)

  /** A zero UIDVALIDITY stands for one never observed, a zero token for none. */
  datatype Cache = Cache(
    entries: map<Key, Body>, fetching: map<Key, nat>, next: nat, validity: map<Mailbox, nat>, seen: map<Key, nat>)

  function Get<K>(m: map<K, nat>, k: K): nat {
    if k in m then m[k] else 0
  }

  function Home(k: Key): Mailbox {
    Mailbox(k.user, k.mbox)
  }

  // ----- flags

  datatype StoreOp = Set | Del | Add

  function WithoutFlags(current: seq<string>, flags: seq<string>): (r: seq<string>)
    ensures forall f :: f in r <==> f in current && f !in flags
  {
    if current == [] then [] else
      (if current[0] in flags then [] else [current[0]]) + WithoutFlags(current[1..], flags)
  }

  function WithFlags(current: seq<string>, flags: seq<string>): (r: seq<string>)
    ensures current <= r && forall f :: f in r <==> f in current || f in flags
    decreases |flags|
  {
    if flags == [] then current
    else WithFlags(if flags[0] in current then current else current + [flags[0]], flags[1..])
  }

  function ChangedFlags(current: seq<string>, op: StoreOp, flags: seq<string>): (r: seq<string>)
    ensures forall f :: f in r <==> match op
                          case Set => f in flags
                          case Del => f in current && f !in flags
                          case Add => f in current || f in flags
  {
    match op
    case Set => flags
    case Del => WithoutFlags(current, flags)
    case Add => WithFlags(current, flags)
  }

  // ----- the sections under the lock, on values

  /** What a section drops: some UIDs of a mailbox or all of it, a user, or what a mailbox held
      under another UIDVALIDITY. */
  datatype Scope =
    | Uids(user: string, mbox: string, uids: set<nat>)
    | Whole(user: string, mbox: string)
    | User(user: string)
    | Superseded(user: string, mbox: string, validity: nat)

  predicate Hit(s: Scope, k: Key) {
    match s
    case Uids(user, mbox, uids) => k.user == user && k.mbox == mbox && k.uid in uids
    case Whole(user, mbox) => k.user == user && k.mbox == mbox
    case User(user) => k.user == user
    case Superseded(user, mbox, validity) => k.user == user && k.mbox == mbox && k.validity != validity
  }

  function Missed<V>(m: map<Key, V>, s: Scope): map<Key, V> {
    map k | k in m && !Hit(s, k) :: m[k]
  }

  function Dropped(c: Cache, s: Scope): Cache {
    c.(entries := Missed(c.entries, s), fetching := Missed(c.fetching, s), seen := Missed(c.seen, s))
  }

  function Forgotten(c: Cache, user: string): Cache {
    Dropped(c.(validity := map b | b in c.validity && b.user != user :: c.validity[b]), User(user))
  }

  function Observed(c: Cache, user: string, mbox: string, validity: nat): Cache {
    var b := Mailbox(user, mbox);
    if validity == 0 || Get(c.validity, b) == validity then c
    else Dropped(c.(validity := c.validity[b := validity]), Superseded(user, mbox, validity))
  }

  function FlaggedBody(s: Scope, k: Key, b: Body, op: StoreOp, flags: seq<string>): Body {
    if Hit(s, k) then b.(flags := ChangedFlags(b.flags, op, flags)) else b
  }

  function FlaggedBodies(entries: map<Key, Body>, s: Scope, op: StoreOp, flags: seq<string>): map<Key, Body> {
    map k | k in entries :: FlaggedBody(s, k, entries[k], op, flags)
  }

  function Flagged(c: Cache, s: Scope, op: StoreOp, flags: seq<string>): Cache {
    c.(fetching := Missed(c.fetching, s), entries := FlaggedBodies(c.entries, s, op, flags))
  }

  function Claimed(c: Cache, keepFor: nat, k: Key, part: seq<nat>): (r: (Cache, nat)) {
    if keepFor == 0 || (k in c.entries && c.entries[k].part == part) || Get(c.fetching, k) != 0 then (c, 0)
    else (c.(next := c.next + 1, fetching := c.fetching[k := c.next + 1]), c.next + 1)
  }

  /** A prefetch ends: the claims it still has are given up. */
  function Finished(c: Cache, claims: map<Key, nat>): Cache {
    c.(fetching := map k | k in c.fetching && Get(claims, k) != c.fetching[k] :: c.fetching[k])
  }

  function Current(c: Cache, keepFor: nat, b: Mailbox, uid: nat, part: seq<nat>, now: int): (Cache, Option<Body>) {
    var k := Key(b.user, b.mbox, Get(c.validity, b), uid);
    if k !in c.entries then (c, None)
    else if now - c.entries[k].lastUse > keepFor then (c.(entries := c.entries - {k}), None)
    else if part != [] && c.entries[k].part != part then (c, None)
    else
      var e := c.entries[k].(lastUse := now);
      (c.(entries := c.entries[k := e]), Some(e))
  }

  function SeenClaimed(c: Cache, k: Key): Cache {
    if Get(c.seen, k) != 0 then c else c.(next := c.next + 1, seen := c.seen[k := c.next + 1])
  }

  // ----- sizes

  ghost function Bytes(entries: map<Key, Body>): nat {
    if entries == map[] then 0
    else
      var k :| k in entries;
      entries[k].size + Bytes(entries - {k})
  }

  lemma {:induction false} BytesWithout(entries: map<Key, Body>, k: Key)
    requires k in entries
    ensures Bytes(entries) == entries[k].size + Bytes(entries - {k})
    decreases |entries|
  {
    var first :| first in entries && Bytes(entries) == entries[first].size + Bytes(entries - {first});
    if first != k {
      BytesWithout(entries - {first}, k);
      BytesWithout(entries - {k}, first);
      assert entries - {first} - {k} == entries - {k} - {first};
    }
  }

  ghost predicate NoLarger(a: map<Key, Body>, b: map<Key, Body>) {
    forall k | k in a :: k in b && a[k].size <= b[k].size
  }

  lemma {:induction false} BytesMonotone(a: map<Key, Body>, b: map<Key, Body>)
    requires NoLarger(a, b)
    ensures Bytes(a) <= Bytes(b)
    decreases |a|
  {
    if a != map[] {
      var k :| k in a;
      BytesWithout(a, k);
      BytesWithout(b, k);
      BytesMonotone(a - {k}, b - {k});
    }
  }

  function OfUser(entries: map<Key, Body>, user: string): set<Key> {
    set k | k in entries && k.user == user
  }

  lemma OfUserIs(entries: map<Key, Body>, user: string)
    ensures OfUser(entries, user) == set k | k in entries && k.user == user
  {
  }

  lemma OfUserMonotone(a: map<Key, Body>, b: map<Key, Body>, user: string)
    requires a.Keys <= b.Keys
    ensures |OfUser(a, user)| <= |OfUser(b, user)|
  {
    SubsetSize(OfUser(a, user), OfUser(b, user));
  }

  // ----- putting a body

  function Live(entries: map<Key, Body>, keepFor: nat, now: int): map<Key, Body> {
    map k | k in entries && now - entries[k].lastUse <= keepFor :: entries[k]
  }

  ghost predicate Over(entries: map<Key, Body>, user: string) {
    |OfUser(entries, user)| > 100 || Bytes(entries) > 67_108_864
  }

  /** Whether a body arrives for a claim that still stands, under the UIDVALIDITY in force. */
  predicate Installs(c: Cache, k: Key, token: nat) {
    token != 0 && Get(c.fetching, k) == token && Get(c.validity, Home(k)) == k.validity
  }

  /** `kept` is `live` less what had to go, oldest first: within the user while the user holds
      too many, then among all while the bytes are too many. */
  ghost predicate Thinned(live: map<Key, Body>, kept: map<Key, Body>, user: string) {
    && (forall k | k in kept :: k in live && kept[k] == live[k])
    && (kept != live ==> exists last :: last in live && last !in kept && Over(kept[last := live[last]], user))
    && (forall gone, k | gone in live && gone !in kept && k in kept && (k.user == user || gone.user != user) ::
          live[gone].lastUse <= live[k].lastUse)
  }

  ghost predicate Evicted(live: map<Key, Body>, kept: map<Key, Body>, user: string) {
    Thinned(live, kept, user) && !Over(kept, user)
  }

  ghost predicate PutInto(c: Cache, c': Cache, keepFor: nat, k: Key, token: nat, body: Body, now: int) {
    if Installs(c, k, token) then
      && c' == c.(entries := c'.entries)
      && Evicted(Live(c.entries[k := body.(lastUse := now)], keepFor, now), c'.entries, k.user)
    else c' == c
  }

  // ----- runs

  datatype Event =
    | Claim(k: Key, part: seq<nat>)
    | Put(k: Key, token: nat, body: Body, now: int)
    | Finish(claims: map<Key, nat>)
    | Discard(scope: Scope)
    | Forget(user: string)
    | Flags(user: string, mbox: string, uids: set<nat>, op: StoreOp, flags: seq<string>)
    | Observe(user: string, mbox: string, validity: nat)
    | Look(mailbox: Mailbox, uid: nat, part: seq<nat>, now: int)
    | Seen(k: Key)
    | SeenOver(seen: map<Key, nat>)

  ghost predicate Step(c: Cache, c': Cache, keepFor: nat, e: Event) {
    match e
    case Claim(k, part) => c' == Claimed(c, keepFor, k, part).0
    case Put(k, token, body, now) => PutInto(c, c', keepFor, k, token, body, now)
    case Finish(claims) => c' == Finished(c, claims)
    case Discard(scope) => (scope.Uids? || scope.Whole?) && c' == Dropped(c, scope)
    case Forget(user) => c' == Forgotten(c, user)
    case Flags(user, mbox, uids, op, flags) => c' == Flagged(c, Uids(user, mbox, uids), op, flags)
    case Observe(user, mbox, validity) => c' == Observed(c, user, mbox, validity)
    case Look(mailbox, uid, part, now) => c' == Current(c, keepFor, mailbox, uid, part, now).0
    case Seen(k) => c' == SeenClaimed(c, k)
    case SeenOver(seen) => c' == c.(seen := seen)
  }

  const EMPTY := Cache(map[], map[], 0, map[], map[])

  ghost predicate Runs(cs: seq<Cache>, es: seq<Event>, keepFor: nat) {
    && |cs| == |es| + 1 && cs[0] == EMPTY
    && forall i | 0 <= i < |es| :: Step(cs[i], cs[i + 1], keepFor, es[i])
  }

  /** Every body is held under the UIDVALIDITY last observed for its mailbox. */
  ghost predicate Identified(c: Cache) {
    forall k | k in c.entries :: k.validity == Get(c.validity, Home(k))
  }

  ghost predicate Bounded(c: Cache) {
    && (forall user :: |OfUser(c.entries, user)| <= KEEP_PER_USER)
    && Bytes(c.entries) <= MAX_BYTES
  }

  lemma FewerAreBounded(c: Cache, c': Cache)
    requires Bounded(c) && NoLarger(c'.entries, c.entries)
    ensures Bounded(c')
  {
    BytesMonotone(c'.entries, c.entries);
    forall user
      ensures |OfUser(c'.entries, user)| <= KEEP_PER_USER
    {
      OfUserMonotone(c'.entries, c.entries, user);
    }
  }

  lemma PutKeepsBounded(c: Cache, c': Cache, keepFor: nat, k: Key, token: nat, body: Body, now: int)
    requires Bounded(c) && PutInto(c, c', keepFor, k, token, body, now)
    ensures Bounded(c')
  {
    hide Bytes;
    if Installs(c, k, token) {
      forall user
        ensures |OfUser(c'.entries, user)| <= KEEP_PER_USER
      {
        if user != k.user { SubsetSize(OfUser(c'.entries, user), OfUser(c.entries, user)); }
      }
    }
  }

  lemma StepKeepsBounded(c: Cache, c': Cache, keepFor: nat, e: Event)
    requires Bounded(c) && Step(c, c', keepFor, e)
    ensures Bounded(c')
  {
    hide Bounded, PutInto, Hit, ChangedFlags;
    if e.Put? {
      PutKeepsBounded(c, c', keepFor, e.k, e.token, e.body, e.now);
    } else {
      FewerAreBounded(c, c');
    }
  }

  lemma StepKeepsIdentified(c: Cache, c': Cache, keepFor: nat, e: Event)
    requires Identified(c) && Step(c, c', keepFor, e)
    ensures Identified(c')
  {
    hide Over, ChangedFlags;
  }

  /** The UIDVALIDITY last observed for a mailbox since its user was last forgotten. */
  function LastObserved(es: seq<Event>, b: Mailbox): nat {
    if es == [] then 0 else
      var e, before := es[|es| - 1], LastObserved(es[..|es| - 1], b);
      match e
      case Observe(user, mbox, validity) => if Mailbox(user, mbox) == b && validity != 0 then validity else before
      case Forget(user) => if user == b.user then 0 else before
      case _ => before
  }

  lemma StepObserves(c: Cache, c': Cache, keepFor: nat, e: Event, b: Mailbox)
    requires Step(c, c', keepFor, e)
    ensures Get(c'.validity, b) == match e
      case Observe(user, mbox, validity) => if Mailbox(user, mbox) == b && validity != 0 then validity else Get(c.validity, b)
      case Forget(user) => if user == b.user then 0 else Get(c.validity, b)
      case _ => Get(c.validity, b)
  {
    hide Evicted, Live, ChangedFlags, FlaggedBodies, Missed;
  }

  lemma {:induction false} ValidityIsLastObserved(cs: seq<Cache>, es: seq<Event>, keepFor: nat, i: nat, b: Mailbox)
    requires Runs(cs, es, keepFor) && i < |cs|
    ensures Get(cs[i].validity, b) == LastObserved(es[..i], b)
  {
    hide Step;
    if i > 0 {
      ValidityIsLastObserved(cs, es, keepFor, i - 1, b);
      assert es[..i][..i - 1] == es[..i - 1];
      assert Step(cs[i - 1], cs[i - 1 + 1], keepFor, es[i - 1]);
      StepObserves(cs[i - 1], cs[i], keepFor, es[i - 1], b);
    }
  }

  lemma {:induction false} RunsKeepInvariant(cs: seq<Cache>, es: seq<Event>, keepFor: nat, i: nat)
    requires Runs(cs, es, keepFor) && i < |cs|
    ensures Identified(cs[i]) && Bounded(cs[i])
  {
    hide Step, Identified, Bounded;
    if i == 0 {
      EmptyIsBounded();
    } else {
      RunsKeepInvariant(cs, es, keepFor, i - 1);
      assert Step(cs[i - 1], cs[i - 1 + 1], keepFor, es[i - 1]);
      StepKeepsBounded(cs[i - 1], cs[i], keepFor, es[i - 1]);
      StepKeepsIdentified(cs[i - 1], cs[i], keepFor, es[i - 1]);
    }
  }

  /** Body cache identity and bounds, in every reachable state: each body under the validity
      last observed for its mailbox, at most 100 to a user and 64 MiB in all. */
  lemma RunsAreBounded(cs: seq<Cache>, es: seq<Event>, keepFor: nat, i: nat, user: string)
    requires Runs(cs, es, keepFor) && i < |cs|
    ensures forall k | k in cs[i].entries :: k.validity == LastObserved(es[..i], Home(k))
    ensures |set k | k in cs[i].entries && k.user == user| <= 100
    ensures Bytes(cs[i].entries) <= 67_108_864
  {
    hide LastObserved, OfUser;
    OfUserIs(cs[i].entries, user);
    RunsKeepInvariant(cs, es, keepFor, i);
    forall k | k in cs[i].entries
      ensures k.validity == LastObserved(es[..i], Home(k))
    {
      ValidityIsLastObserved(cs, es, keepFor, i, Home(k));
    }
  }

  lemma EmptyIsBounded()
    ensures Identified(EMPTY) && Bounded(EMPTY)
  {
    assert forall user :: OfUser(EMPTY.entries, user) == {};
  }

  // ----- tokens

  /** The token was handed out, and claims at most the one key. */
  ghost predicate ClaimsOnly(c: Cache, token: nat, k: Key) {
    0 < token <= c.next && forall j | j in c.fetching && c.fetching[j] == token :: j == k
  }

  ghost predicate Spent(c: Cache, token: nat) {
    0 < token <= c.next && forall j | j in c.fetching :: c.fetching[j] != token
  }

  /** What takes a claim away: a flag write, a discard or a forget that touches the UID. */
  predicate Withdraws(e: Event, k: Key) {
    match e
    case Flags(user, mbox, uids, _, _) => Hit(Uids(user, mbox, uids), k)
    case Discard(scope) => Hit(scope, k)
    case Forget(user) => k.user == user
    case _ => false
  }

  lemma StepKeepsToken(c: Cache, c': Cache, keepFor: nat, e: Event, token: nat, k: Key)
    requires Step(c, c', keepFor, e)
    ensures ClaimsOnly(c, token, k) ==> ClaimsOnly(c', token, k)
    ensures Spent(c, token) ==> Spent(c', token)
    ensures ClaimsOnly(c, token, k) && Withdraws(e, k) ==> Spent(c', token)
  {
    hide Evicted, Live, ChangedFlags;
  }

  lemma {:induction false} TokenKept(cs: seq<Cache>, es: seq<Event>, keepFor: nat, token: nat, k: Key, i: nat, j: nat)
    requires Runs(cs, es, keepFor) && i <= j < |cs|
    ensures ClaimsOnly(cs[i], token, k) ==> ClaimsOnly(cs[j], token, k)
    ensures Spent(cs[i], token) ==> Spent(cs[j], token)
    decreases j
  {
    hide Step, ClaimsOnly, Spent;
    if i < j {
      TokenKept(cs, es, keepFor, token, k, i, j - 1);
      assert Step(cs[j - 1], cs[j - 1 + 1], keepFor, es[j - 1]);
      StepKeepsToken(cs[j - 1], cs[j], keepFor, es[j - 1], token, k);
    }
  }

  lemma ClaimHandsOut(c: Cache, keepFor: nat, k: Key, part: seq<nat>)
    requires BelowNext(c)
    ensures var (c', token) := Claimed(c, keepFor, k, part); token != 0 ==> token == c'.next && ClaimsOnly(c', token, k)
  {
  }

  ghost predicate BelowNext(c: Cache) {
    forall k | k in c.fetching :: c.fetching[k] <= c.next
  }

  lemma StepKeepsBelowNext(c: Cache, c': Cache, keepFor: nat, e: Event)
    requires BelowNext(c) && Step(c, c', keepFor, e)
    ensures BelowNext(c')
  {
    hide Evicted, Live, ChangedFlags, FlaggedBodies;
  }

  lemma {:induction false} TokensBelowNext(cs: seq<Cache>, es: seq<Event>, keepFor: nat, i: nat)
    requires Runs(cs, es, keepFor) && i < |cs|
    ensures BelowNext(cs[i])
  {
    hide Step;
    if i > 0 {
      TokensBelowNext(cs, es, keepFor, i - 1);
      assert Step(cs[i - 1], cs[i - 1 + 1], keepFor, es[i - 1]);
      StepKeepsBelowNext(cs[i - 1], cs[i], keepFor, es[i - 1]);
    }
  }

  /** A prefetch that ends gives up the claims it still has and no other's. */
  lemma FinishGivesUp(cs: seq<Cache>, es: seq<Event>, keepFor: nat, i: nat, k: Key)
    requires Runs(cs, es, keepFor) && i < |es| && es[i].Finish? && k in cs[i].fetching && cs[i].fetching[k] != 0
    ensures k in cs[i + 1].fetching <==> !(k in es[i].claims && es[i].claims[k] == cs[i].fetching[k])
    ensures k in cs[i + 1].fetching ==> cs[i + 1].fetching[k] == cs[i].fetching[k]
    ensures cs[i + 1].entries == cs[i].entries && cs[i + 1].validity == cs[i].validity
  {
    assert Step(cs[i], cs[i + 1], keepFor, es[i]);
  }

  /** A prefetch claimed before a flag write, discard or forget of its UID installs nothing
      afterwards, whatever key it is put under and whatever happened in between. */
  lemma WithdrawnNeverInstalls(cs: seq<Cache>, es: seq<Event>, keepFor: nat, i: nat, j: nat, l: nat)
    requires Runs(cs, es, keepFor) && i < j < l < |es|
    requires es[i].Claim? && es[l].Put? && Withdraws(es[j], es[i].k)
    requires var token := Claimed(cs[i], keepFor, es[i].k, es[i].part).1; token != 0 && es[l].token == token
    ensures cs[l + 1] == cs[l]
  {
    hide Evicted, Live, Claimed, Withdraws;
    var k, token := es[i].k, es[l].token;
    assert Step(cs[i], cs[i + 1], keepFor, es[i]);
    TokensBelowNext(cs, es, keepFor, i);
    ClaimHandsOut(cs[i], keepFor, k, es[i].part);
    TokenKept(cs, es, keepFor, token, k, i + 1, j);
    assert Step(cs[j], cs[j + 1], keepFor, es[j]);
    StepKeepsToken(cs[j], cs[j + 1], keepFor, es[j], token, k);
    TokenKept(cs, es, keepFor, token, k, j + 1, l);
    assert Step(cs[l], cs[l + 1], keepFor, es[l]);
  }

  // ----- what is held

  /** The flags a body was put with, and every write of them since, in order. */
  function FlagsSince(flags: seq<string>, es: seq<Event>, k: Key): seq<string> {
    if es == [] then flags else
      var e, before := es[|es| - 1], FlagsSince(flags, es[..|es| - 1], k);
      if e.Flags? && k.user == e.user && k.mbox == e.mbox && k.uid in e.uids then ChangedFlags(before, e.op, e.flags) else before
  }

  /** What ends a body: a discard or a forget of it, or another UIDVALIDITY of its mailbox. */
  predicate Ends(e: Event, k: Key) {
    match e
    case Discard(scope) => Hit(scope, k)
    case Forget(user) => k.user == user
    case Observe(user, mbox, validity) => validity != 0 && k.user == user && k.mbox == mbox && k.validity != validity
    case _ => false
  }

  /** A body held is the one put last for its key, with every flag write since. */
  ghost predicate PutAs(c: Cache, k: Key, body: Body, es: seq<Event>) {
    && k in c.entries && c.entries[k].part == body.part && c.entries[k].size == body.size
    && c.entries[k].flags == FlagsSince(body.flags, es, k)
  }

  lemma StepOfHeld(c: Cache, c': Cache, keepFor: nat, e: Event, k: Key)
    requires Step(c, c', keepFor, e) && k in c'.entries && !(e.Put? && e.k == k && Installs(c, k, e.token))
    ensures k in c.entries && (Identified(c) ==> !Ends(e, k))
    ensures c'.entries[k].part == c.entries[k].part && c'.entries[k].size == c.entries[k].size
    ensures c'.entries[k].flags ==
      if e.Flags? && k.user == e.user && k.mbox == e.mbox && k.uid in e.uids then ChangedFlags(c.entries[k].flags, e.op, e.flags)
      else c.entries[k].flags
  {
    hide Over, ChangedFlags, Identified;
    if e.Observe? { SupersededGoes(c, c', keepFor, e, k); }
  }

  lemma SupersededGoes(c: Cache, c': Cache, keepFor: nat, e: Event, k: Key)
    requires Step(c, c', keepFor, e) && e.Observe? && k in c'.entries
    ensures Identified(c) ==> !Ends(e, k)
  {
  }

  lemma InstalledIs(c: Cache, c': Cache, keepFor: nat, e: Event, k: Key)
    requires Step(c, c', keepFor, e) && e.Put? && e.k == k && Installs(c, k, e.token) && k in c'.entries
    ensures c'.entries[k] == e.body.(lastUse := e.now)
  {
    hide Over;
  }

  /** In every reachable state, a body held was put for its key by a claim that then stood;
      nothing has ended it since, and its flags are those it came with as every later write of
      them left them. */
  lemma {:induction false} HeldIsAsPut(cs: seq<Cache>, es: seq<Event>, keepFor: nat, i: nat, k: Key) returns (j: nat)
    requires Runs(cs, es, keepFor) && i < |cs| && k in cs[i].entries
    ensures j < i && es[j].Put? && es[j].k == k && Installs(cs[j], k, es[j].token)
    ensures PutAs(cs[i], k, es[j].body, es[j + 1..i])
    ensures forall l | j < l < i :: !Ends(es[l], k)
  {
    hide Step, Ends, Installs, ChangedFlags, Identified, Bounded;
    var c, e := cs[i - 1], es[i - 1];
    assert Step(c, cs[i - 1 + 1], keepFor, e);
    if e.Put? && e.k == k && Installs(c, k, e.token) {
      j := i - 1;
      InstalledIs(c, cs[i], keepFor, e, k);
      assert es[j + 1..i] == [];
    } else {
      StepOfHeld(c, cs[i], keepFor, e, k);
      j := HeldIsAsPut(cs, es, keepFor, i - 1, k);
      RunsKeepInvariant(cs, es, keepFor, i - 1);
      assert es[j + 1..i][..i - 1 - (j + 1)] == es[j + 1..i - 1];
    }
  }

  // ----- the cache as it is written

  lemma BytesWith(entries: map<Key, Body>, k: Key, body: Body)
    requires k !in entries
    ensures Bytes(entries[k := body]) == Bytes(entries) + body.size
  {
    hide Bytes;
    BytesWithout(entries[k := body], k);
    assert entries[k := body] - {k} == entries;
  }

  lemma OfUserWith(entries: map<Key, Body>, k: Key, body: Body, user: string)
    requires k !in entries
    ensures |OfUser(entries[k := body], user)| == |OfUser(entries, user)| + (if k.user == user then 1 else 0)
  {
    assert OfUser(entries[k := body], user) == OfUser(entries, user) + (if k.user == user then {k} else {});
  }

  class BodyCache {
    const keepFor: nat
    var entries: map<Key, Body>
    var fetching: map<Key, nat>
    var next: nat
    var validity: map<Mailbox, nat>
    var seen: map<Key, nat>

    constructor (keepFor: nat)
      ensures this.keepFor == keepFor && State() == EMPTY
    {
      this.keepFor := keepFor;
      entries, fetching, next, validity, seen := map[], map[], 0, map[], map[];
    }

    ghost function State(): Cache
      reads this
    {
      Cache(entries, fetching, next, validity, seen)
    }

    method Claim(k: Key, part: seq<nat>) returns (token: nat)
      modifies this`next, this`fetching
      ensures (State(), token) == Claimed(old(State()), keepFor, k, part)
      ensures token != 0 <==> keepFor > 0 && !(k in entries && entries[k].part == part) && (k in old(fetching) ==> old(fetching)[k] == 0)
      ensures if token != 0 then token == next == old(next) + 1 && fetching == old(fetching)[k := token]
              else next == old(next) && fetching == old(fetching)
    {
      if keepFor == 0 { return 0; }
      if (k in entries && entries[k].part == part) || Get(fetching, k) != 0 { return 0; }
      next := next + 1;
      fetching := fetching[k := next];
      return next;
    }

    /** A body arrives; afterwards its user and the whole are within their bounds. */
    method Put(k: Key, token: nat, body: Body, now: int)
      modifies this`entries
      ensures PutInto(old(State()), State(), keepFor, k, token, body, now)
      ensures token == 0 || k !in fetching || fetching[k] != token || Get(validity, Mailbox(k.user, k.mbox)) != k.validity ==>
                entries == old(entries)
    {
      hide Evicted, Live;
      if token == 0 || Get(fetching, k) != token || Get(validity, Home(k)) != k.validity { return; }
      entries := entries[k := body.(lastUse := now)];
      var held, bytes := Expire(k.user, now);
      Evict(k.user, held, bytes);
    }

    /** What was not used for too long goes; the rest is counted. */
    method Expire(user: string, now: int) returns (held: nat, bytes: nat)
      modifies this`entries
      ensures entries == Live(old(entries), keepFor, now)
      ensures held == |OfUser(entries, user)| && bytes == Bytes(entries)
    {
      hide Bytes, OfUser;
      var todo := entries.Keys;
      ghost var counted: map<Key, Body> := map[];
      held, bytes := 0, 0;
      NothingCounted(user);
      while todo != {}
        invariant todo <= old(entries).Keys
        invariant counted == map k | k in old(entries) && k !in todo && now - old(entries)[k].lastUse <= keepFor :: old(entries)[k]
        invariant entries == map k | k in old(entries) && (k in todo || now - old(entries)[k].lastUse <= keepFor) :: old(entries)[k]
        invariant held == |OfUser(counted, user)| && bytes == Bytes(counted)
        decreases |todo|
      {
        var k :| k in todo;
        todo := todo - {k};
        if now - entries[k].lastUse > keepFor {
          entries := entries - {k};
        } else {
          BytesWith(counted, k, entries[k]);
          OfUserWith(counted, k, entries[k], user);
          counted := counted[k := entries[k]];
          if k.user == user { held := held + 1; }
          bytes := bytes + entries[k].size;
        }
      }
      assert entries == counted;
    }

    /** The oldest go until the user and the whole are within their bounds. */
    method Evict(user: string, held: nat, bytes: nat)
      requires held == |OfUser(entries, user)| && bytes == Bytes(entries)
      modifies this`entries
      ensures Evicted(old(entries), entries, user)
    {
      hide Bytes, OfUser;
      var held, bytes := held, bytes;
      assert Thinned(entries, entries, user);
      while held > KEEP_PER_USER || bytes > MAX_BYTES
        invariant held == |OfUser(entries, user)| && bytes == Bytes(entries)
        invariant Thinned(old(entries), entries, user)
        decreases |entries|
      {
        held, bytes := EvictOldest(old(entries), user, held, bytes);
      }
    }

    method EvictOldest(ghost live: map<Key, Body>, user: string, held: nat, bytes: nat) returns (held': nat, bytes': nat)
      requires held == |OfUser(entries, user)| && bytes == Bytes(entries)
      requires Thinned(live, entries, user) && Over(entries, user)
      modifies this`entries
      ensures held' == |OfUser(entries, user)| && bytes' == Bytes(entries)
      ensures Thinned(live, entries, user) && |entries| < |old(entries)|
    {
      hide Thinned, Bytes, OfUser;
      NothingCounted(user);
      var oldest := Oldest(user, held > KEEP_PER_USER);
      ThinnedOnce(live, entries, user, oldest);
      BytesWithout(entries, oldest);
      var rest := entries - {oldest};
      OfUserWith(rest, oldest, entries[oldest], user);
      assert rest[oldest := entries[oldest]] == entries;
      bytes' := bytes - entries[oldest].size;
      held' := if oldest.user == user then held - 1 else held;
      entries := rest;
    }

    method Oldest(user: string, crowded: bool) returns (oldest: Key)
      requires if crowded then OfUser(entries, user) != {} else entries != map[]
      ensures oldest in entries && (crowded ==> oldest.user == user)
      ensures forall k | k in entries && (!crowded || k.user == user) :: entries[oldest].lastUse <= entries[k].lastUse
    {
      var todo := entries.Keys;
      var found: Option<Key> := None;
      while todo != {}
        invariant todo <= entries.Keys
        invariant found.None? ==> forall k | k in entries && k !in todo :: crowded && k.user != user
        invariant found.Some? ==> found.value in entries && (crowded ==> found.value.user == user)
        invariant found.Some? ==> forall k | k in entries && k !in todo && (!crowded || k.user == user) ::
          entries[found.value].lastUse <= entries[k].lastUse
        decreases |todo|
      {
        var k :| k in todo;
        todo := todo - {k};
        assert k in entries;
        if (!crowded || k.user == user) && (found.None? || entries[k].lastUse < entries[found.value].lastUse) {
          found := Some(k);
        }
      }
      assert crowded ==> exists k :: k in OfUser(entries, user) && k in entries;
      oldest := found.value;
    }

    method Drop(s: Scope)
      modifies this`entries, this`fetching, this`seen
      ensures State() == Dropped(old(State()), s)
    {
      entries, fetching, seen := Missed(entries, s), Missed(fetching, s), Missed(seen, s);
    }

    method Discard(user: string, mbox: string, uids: Option<set<nat>>)
      modifies this`entries, this`fetching, this`seen
      ensures State() == Dropped(old(State()), if uids.None? then Whole(user, mbox) else Uids(user, mbox, uids.value))
      ensures entries == map k | k in old(entries) &&
                !(k.user == user && k.mbox == mbox && (uids.None? || k.uid in uids.value)) :: old(entries)[k]
      ensures fetching == map k | k in old(fetching) &&
                !(k.user == user && k.mbox == mbox && (uids.None? || k.uid in uids.value)) :: old(fetching)[k]
      ensures seen == map k | k in old(seen) &&
                !(k.user == user && k.mbox == mbox && (uids.None? || k.uid in uids.value)) :: old(seen)[k]
    {
      Drop(if uids.None? then Whole(user, mbox) else Uids(user, mbox, uids.value));
    }

    method Forget(user: string)
      modifies this
      ensures State() == Forgotten(old(State()), user)
      ensures entries == map k | k in old(entries) && k.user != user :: old(entries)[k]
      ensures fetching == map k | k in old(fetching) && k.user != user :: old(fetching)[k]
      ensures seen == map k | k in old(seen) && k.user != user :: old(seen)[k]
      ensures validity == map b | b in old(validity) && b.user != user :: old(validity)[b]
    {
      validity := map b | b in validity && b.user != user :: validity[b];
      Drop(User(user));
    }

    method Flags(user: string, mbox: string, uids: set<nat>, op: StoreOp, flags: seq<string>)
      modifies this`fetching, this`entries
      ensures State() == Flagged(old(State()), Uids(user, mbox, uids), op, flags)
      ensures fetching == map k | k in old(fetching) && !(k.user == user && k.mbox == mbox && k.uid in uids) :: old(fetching)[k]
      ensures entries.Keys == old(entries).Keys
      ensures forall k | k in entries :: entries[k] ==
                if k.user == user && k.mbox == mbox && k.uid in uids
                then old(entries)[k].(flags := ChangedFlags(old(entries)[k].flags, op, flags)) else old(entries)[k]
    {
      var s := Uids(user, mbox, uids);
      fetching := Missed(fetching, s);
      FlagEntries(user, mbox, uids, op, flags);
    }

    method FlagEntries(user: string, mbox: string, uids: set<nat>, op: StoreOp, flags: seq<string>)
      modifies this`entries
      ensures entries == FlaggedBodies(old(entries), Uids(user, mbox, uids), op, flags)
    {
      hide ChangedFlags;
      var todo := entries.Keys;
      while todo != {}
        invariant todo <= entries.Keys && entries.Keys == old(entries).Keys
        invariant forall k | k in todo :: entries[k] == old(entries)[k]
        invariant forall k | k in old(entries) && k !in todo ::
          entries[k] == FlaggedBody(Uids(user, mbox, uids), k, old(entries)[k], op, flags)
        decreases |todo|
      {
        var k :| k in todo;
        todo := todo - {k};
        if k.user == user && k.mbox == mbox && k.uid in uids {
          var b := entries[k];
          entries := entries[k := b.(flags := ChangedFlags(b.flags, op, flags))];
        }
      }
    }

    method Observe(user: string, mbox: string, v: nat)
      modifies this
      ensures State() == Observed(old(State()), user, mbox, v)
      ensures v == 0 || Get(old(validity), Mailbox(user, mbox)) == v ==> State() == old(State())
      ensures v != 0 && Get(old(validity), Mailbox(user, mbox)) != v ==>
                && validity == old(validity)[Mailbox(user, mbox) := v]
                && entries == (map k | k in old(entries) && !(k.user == user && k.mbox == mbox && k.validity != v) :: old(entries)[k])
                && fetching == (map k | k in old(fetching) && !(k.user == user && k.mbox == mbox && k.validity != v) :: old(fetching)[k])
    {
      if v == 0 { return; }
      var b := Mailbox(user, mbox);
      if Get(validity, b) == v { return; }
      validity := validity[b := v];
      Drop(Superseded(user, mbox, v));
    }

    /** The body to show: one held under the validity in force, and not too long ago. */
    method Lookup(b: Mailbox, uid: nat, part: seq<nat>, now: int) returns (r: Option<Body>)
      modifies this`entries
      ensures (State(), r) == Current(old(State()), keepFor, b, uid, part, now)
      ensures var k := Key(b.user, b.mbox, if b in validity then validity[b] else 0, uid);
        && (r.Some? <==> k in old(entries) && now - old(entries)[k].lastUse <= keepFor && (part == [] || old(entries)[k].part == part))
        && (r.Some? ==> r.value == old(entries)[k].(lastUse := now) && entries == old(entries)[k := r.value])
        && (r.None? ==> entries == if k in old(entries) && now - old(entries)[k].lastUse > keepFor then old(entries) - {k} else old(entries))
    {
      var k := Key(b.user, b.mbox, Get(validity, b), uid);
      if k in entries && now - entries[k].lastUse > keepFor {
        entries := entries - {k};
        return None;
      }
      if k !in entries || (part != [] && entries[k].part != part) { return None; }
      entries := entries[k := entries[k].(lastUse := now)];
      return Some(entries[k]);
    }
  }

  lemma NothingCounted(user: string)
    ensures OfUser(map[], user) == {} && Bytes(map[]) == 0
  {
  }

  lemma ThinnedOnce(live: map<Key, Body>, kept: map<Key, Body>, user: string, oldest: Key)
    requires Thinned(live, kept, user) && Over(kept, user) && oldest in kept
    requires forall k | k in kept && (k.user == user || |OfUser(kept, user)| <= KEEP_PER_USER) :: kept[oldest].lastUse <= kept[k].lastUse
    requires |OfUser(kept, user)| > KEEP_PER_USER ==> oldest.user == user
    ensures Thinned(live, kept - {oldest}, user)
  {
    hide Over;
    assert (kept - {oldest})[oldest := live[oldest]] == kept;
  }
}
