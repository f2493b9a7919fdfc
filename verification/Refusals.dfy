/** The limiter of refused sign-ins: at most so many tries of a key in a window of time. */
module Refusals {
  import opened Basics

  const REFUSALS_HELD: nat := 4096

  /** `sweepAt` is when something can next be dropped from a full map, where known. */
  datatype State = State(at: map<string, seq<int>>, sweepAt: Option<int>)

  function Stamps(at: map<string, seq<int>>, key: string): seq<int> {
    if key in at then at[key] else []
  }

  /** The stamps after `lo`, in their order. */
  function After(s: seq<int>, lo: int): (r: seq<int>)
    ensures |r| <= |s|
    ensures forall x | x in r :: x in s && x > lo
  {
    if s == [] then [] else (if s[0] > lo then [s[0]] else []) + After(s[1..], lo)
  }

  function Recent(st: State, window: nat, key: string, now: int): seq<int> {
    After(Stamps(st.at, key), now - window)
  }

  function RemoveFirst(s: seq<int>, x: int): (r: seq<int>)
    ensures x in s ==> |r| == |s| - 1
    ensures x !in s ==> r == s
  {
    if s == [] then []
    else if s[0] == x then s[1..]
    else
      assert s == [s[0]] + s[1..];
      [s[0]] + RemoveFirst(s[1..], x)
  }

  function Released(st: State, key: string, stamp: int): State {
    var kept := RemoveFirst(Stamps(st.at, key), stamp);
    if stamp !in Stamps(st.at, key) then st
    else if kept == [] then st.(at := st.at - {key})
    else st.(at := st.at[key := kept])
  }

  /** The sweep drops the keys without a recent stamp and notes when the next can go. */
  ghost predicate Swept(st: State, st': State, window: nat, now: int) {
    && st'.at == (map k | k in st.at && Recent(st, window, k, now) != [] :: st.at[k])
    && (st'.sweepAt.None? <==> st'.at == map[])
    && (st'.sweepAt.Some? ==>
          && (exists k :: k in st'.at && st'.sweepAt.value == Recent(st, window, k, now)[0] + window)
          && (forall k | k in st'.at :: st'.sweepAt.value <= Recent(st, window, k, now)[0] + window))
  }

  predicate Full(st: State, key: string) {
    key !in st.at && |st.at| >= REFUSALS_HELD
  }

  function Added(st: State, key: string, stamps: seq<int>): State {
    st.(at := st.at[key := stamps])
  }

  /** A try is noted, or refused until a time: by its own count, or because the map is full. */
  ghost predicate Reserved(st: State, st': State, tries: nat, window: nat, key: string, now: int, until: Option<int>)
    requires tries >= 1
  {
    var recent := Recent(st, window, key, now);
    if |recent| >= tries then
      st' == st && until == Some(recent[|recent| - tries] + window)
    else if !Full(st, key) then
      st' == Added(st, key, recent + [now]) && until == None
    else if st.sweepAt.Some? && now < st.sweepAt.value then
      st' == st && until == st.sweepAt
    else exists swept ::
      && Swept(st, swept, window, now)
      && if Full(swept, key) then st' == swept && until == swept.sweepAt
         else st' == Added(swept, key, recent + [now]) && until == None
  }

  // ----- stamps

  lemma {:induction false} AfterConcat(a: seq<int>, b: seq<int>, lo: int)
    ensures After(a + b, lo) == After(a, lo) + After(b, lo)
  {
    if a == [] {
      assert a + b == b;
    } else {
      assert (a + b)[1..] == a[1..] + b;
      AfterConcat(a[1..], b, lo);
    }
  }

  lemma {:induction false} AfterAfter(s: seq<int>, lo: int, hi: int)
    requires lo <= hi
    ensures After(After(s, lo), hi) == After(s, hi)
  {
    if s != [] {
      var rest := After(s[1..], lo);
      AfterAfter(s[1..], lo, hi);
      if s[0] > lo {
        assert ([s[0]] + rest)[1..] == rest;
      } else {
        assert [] + rest == rest;
      }
    }
  }

  lemma {:induction false} AfterShrinks(s: seq<int>, lo: int, hi: int)
    requires lo <= hi
    ensures |After(s, hi)| <= |After(s, lo)|
  {
    AfterAfter(s, lo, hi);
  }

  lemma {:induction false} AfterRemoved(s: seq<int>, x: int, lo: int)
    ensures After(RemoveFirst(s, x), lo) == if x > lo then RemoveFirst(After(s, lo), x) else After(s, lo)
  {
    if s != [] {
      var rest := RemoveFirst(s[1..], x);
      AfterRemoved(s[1..], x, lo);
      if s[0] != x {
        assert ([s[0]] + rest)[1..] == rest;
        var later := After(s[1..], lo);
        if s[0] > lo { assert ([s[0]] + later)[1..] == later; } else { assert [] + later == later; }
      } else {
        var later := After(s[1..], lo);
        if x > lo { assert ([x] + later)[1..] == later; } else { assert [] + later == later; }
      }
    }
  }

  /** How many stamps lie in the half-open interval of that length. */
  function CountIn(s: seq<int>, from: int, length: int): nat {
    if s == [] then 0 else (if from <= s[0] < from + length then 1 else 0) + CountIn(s[1..], from, length)
  }

  lemma {:induction false} CountSnoc(s: seq<int>, x: int, from: int, length: int)
    ensures CountIn(s + [x], from, length) == CountIn(s, from, length) + (if from <= x < from + length then 1 else 0)
  {
    if s == [] {
      assert s + [x] == [x] && [x][1..] == [];
    } else {
      assert (s + [x])[1..] == s[1..] + [x];
      CountSnoc(s[1..], x, from, length);
    }
  }

  lemma {:induction false} CountRemoved(s: seq<int>, x: int, from: int, length: int)
    ensures CountIn(RemoveFirst(s, x), from, length) <= CountIn(s, from, length)
  {
    if s != [] && s[0] != x {
      CountRemoved(s[1..], x, from, length);
      var rest := RemoveFirst(s[1..], x);
      assert ([s[0]] + rest)[1..] == rest;
    }
  }

  lemma {:induction false} CountIsAfter(s: seq<int>, from: int, length: int, lo: int)
    requires lo < from
    ensures CountIn(s, from, length) <= |After(s, lo)|
  {
    if s != [] { CountIsAfter(s[1..], from, length, lo); }
  }

  // ----- runs

  /** The limiter, every reservation not released, and the latest time seen. */
  datatype World = World(st: State, log: map<string, seq<int>>, latest: int)

  datatype Event =
    | Reserve(key: string, now: int, until: Option<int>)
    | Release(key: string, stamp: int)

  /** A clock reading may come to the lock up to `skew` behind one that came before it; a
      release gives back a reservation that was made. */
  ghost predicate Step(w: World, w': World, e: Event, tries: nat, window: nat, skew: nat)
    requires tries >= 1
  {
    match e
    case Reserve(key, now, until) =>
      && w.latest - skew <= now
      && Reserved(w.st, w'.st, tries, window, key, now, until)
      && w'.log == (if until.None? then w.log[key := Stamps(w.log, key) + [now]] else w.log)
      && w'.latest == Max(w.latest, now)
    case Release(key, stamp) =>
      && stamp in Stamps(w.log, key)
      && w' == World(Released(w.st, key, stamp), w.log[key := RemoveFirst(Stamps(w.log, key), stamp)], w.latest)
  }

  ghost predicate Runs(ws: seq<World>, es: seq<Event>, tries: nat, window: nat, skew: nat)
    requires tries >= 1
  {
    && |ws| == |es| + 1
    && ws[0].st == State(map[], None) && ws[0].log == map[]
    && forall i | 0 <= i < |es| :: Step(ws[i], ws[i + 1], es[i], tries, window, skew)
  }

  /** What the map holds of a key is what the log holds, as far as it is recent. */
  ghost predicate Remembers(w: World, window: nat) {
    forall key :: After(Stamps(w.st.at, key), w.latest - window) == After(Stamps(w.log, key), w.latest - window)
  }

  ghost predicate Limited(w: World, tries: nat, span: int) {
    forall key, from :: CountIn(Stamps(w.log, key), from, span) <= tries
  }

  /** One key's part of a step. */
  lemma RecentKept(at: seq<int>, log: seq<int>, latest: int, next: int, window: nat)
    requires After(at, latest - window) == After(log, latest - window) && latest <= next
    ensures After(at, next - window) == After(log, next - window)
  {
    hide After;
    AfterAfter(at, latest - window, next - window);
    AfterAfter(log, latest - window, next - window);
  }

  lemma NotedKept(at: seq<int>, log: seq<int>, now: int, latest: int, window: nat)
    requires After(at, latest - window) == After(log, latest - window) && now <= latest
    ensures After(After(at, now - window) + [now], latest - window) == After(log + [now], latest - window)
  {
    hide After;
    AfterConcat(After(at, now - window), [now], latest - window);
    AfterConcat(log, [now], latest - window);
    AfterAfter(at, now - window, latest - window);
  }

  /** What a reservation does to one key's stamps: they are recent ones with the new one, as
      before, or gone when none was recent. */
  lemma ReservedKey(st: State, st': State, tries: nat, window: nat, key: string, now: int, until: Option<int>, k: string)
    requires tries >= 1 && Reserved(st, st', tries, window, key, now, until)
    ensures if k == key && until.None? then Stamps(st'.at, k) == Recent(st, window, key, now) + [now]
            else Stamps(st'.at, k) == Stamps(st.at, k) || (Stamps(st'.at, k) == [] && Recent(st, window, k, now) == [])
  {
    hide After;
  }

  lemma {:induction false} ReserveRemembers(w: World, w': World, e: Event, tries: nat, window: nat, skew: nat)
    requires tries >= 1 && e.Reserve? && Remembers(w, window) && Step(w, w', e, tries, window, skew)
    ensures Remembers(w', window)
  {
    hide After, Reserved;
    forall k
      ensures After(Stamps(w'.st.at, k), w'.latest - window) == After(Stamps(w'.log, k), w'.latest - window)
    {
      var at, log := Stamps(w.st.at, k), Stamps(w.log, k);
      ReservedKey(w.st, w'.st, tries, window, e.key, e.now, e.until, k);
      RecentKept(at, log, w.latest, w'.latest, window);
      if k == e.key && e.until.None? {
        NotedKept(at, log, e.now, w'.latest, window);
      } else if Stamps(w'.st.at, k) != at {
        AfterAfter(at, e.now - window, w'.latest - window);
        NothingAfter(w'.latest - window);
      }
    }
  }

  lemma NothingAfter(lo: int)
    ensures After([], lo) == []
  {
  }

  lemma {:induction false} ReleaseRemembers(w: World, w': World, e: Event, tries: nat, window: nat, skew: nat)
    requires tries >= 1 && e.Release? && Remembers(w, window) && Step(w, w', e, tries, window, skew)
    ensures Remembers(w', window)
  {
    hide After, RemoveFirst;
    forall k
      ensures After(Stamps(w'.st.at, k), w'.latest - window) == After(Stamps(w'.log, k), w'.latest - window)
    {
      assert After(Stamps(w.st.at, k), w.latest - window) == After(Stamps(w.log, k), w.latest - window);
      if k == e.key {
        AfterRemoved(Stamps(w.st.at, k), e.stamp, w.latest - window);
        AfterRemoved(Stamps(w.log, k), e.stamp, w.latest - window);
        assert Stamps(w'.st.at, k) == RemoveFirst(Stamps(w.st.at, k), e.stamp);
      }
    }
  }

  lemma {:induction false} StepLimits(w: World, w': World, e: Event, tries: nat, window: nat, skew: nat)
    requires tries >= 1 && Remembers(w, window) && Limited(w, tries, window - skew)
    requires Step(w, w', e, tries, window, skew)
    ensures Limited(w', tries, window - skew)
  {
    hide After, RemoveFirst, CountIn, Reserved;
    var span := window - skew;
    forall k, from
      ensures CountIn(Stamps(w'.log, k), from, span) <= tries
    {
      var log := Stamps(w.log, k);
      assert CountIn(log, from, window - skew) <= tries;
      if e.Release? {
        CountRemoved(log, e.stamp, from, window - skew);
      } else if e.until.None? && k == e.key {
        CountSnoc(log, e.now, from, window - skew);
        if from <= e.now < from + (window - skew) { RoomFor(w, w', e, tries, window, skew, from); }
      }
    }
  }

  /** A try that is noted finds fewer than `tries` in any interval that holds it. */
  lemma {:induction false} RoomFor(w: World, w': World, e: Event, tries: nat, window: nat, skew: nat, from: int)
    requires tries >= 1 && e.Reserve? && e.until.None? && Remembers(w, window) && Step(w, w', e, tries, window, skew)
    requires from <= e.now < from + (window - skew)
    ensures CountIn(Stamps(w.log, e.key), from, window - skew) < tries
  {
    hide After, CountIn;
    var at, log, latest := Stamps(w.st.at, e.key), Stamps(w.log, e.key), w'.latest;
    CountIsAfter(log, from, window - skew, latest - window);
    RecentKept(at, log, w.latest, latest, window);
    AfterShrinks(at, e.now - window, latest - window);
    assert |Recent(w.st, window, e.key, e.now)| < tries;
  }

  lemma StepBounds(w: World, w': World, e: Event, tries: nat, window: nat, skew: nat)
    requires tries >= 1 && |w.st.at| <= REFUSALS_HELD && Step(w, w', e, tries, window, skew)
    ensures |w'.st.at| <= REFUSALS_HELD
  {
    hide After, RemoveFirst;
    if e.Reserve? {
      ReservedBounds(w.st, w'.st, tries, window, e.key, e.now, e.until);
    }
  }

  lemma ReservedBounds(st: State, st': State, tries: nat, window: nat, key: string, now: int, until: Option<int>)
    requires tries >= 1 && |st.at| <= REFUSALS_HELD && Reserved(st, st', tries, window, key, now, until)
    ensures |st'.at| <= REFUSALS_HELD
  {
    hide After;
    var recent := Recent(st, window, key, now);
    if |recent| < tries && Full(st, key) && !(st.sweepAt.Some? && now < st.sweepAt.value) {
      var swept :| Swept(st, swept, window, now) && (if Full(swept, key) then st' == swept else st' == Added(swept, key, recent + [now]));
      SubsetSize(swept.at.Keys, st.at.Keys);
      assert |swept.at| == |swept.at.Keys| && |st.at| == |st.at.Keys|;
    }
  }

  lemma {:induction false} RunsKeep(ws: seq<World>, es: seq<Event>, tries: nat, window: nat, skew: nat, i: nat)
    requires tries >= 1 && Runs(ws, es, tries, window, skew) && i < |ws|
    ensures Remembers(ws[i], window) && Limited(ws[i], tries, window - skew) && |ws[i].st.at| <= REFUSALS_HELD
  {
    hide Step, Remembers, Limited;
    if i == 0 {
      NothingYet(ws[0], tries, window, skew);
    } else {
      var w, w', e := ws[i - 1], ws[i - 1 + 1], es[i - 1];
      RunsKeep(ws, es, tries, window, skew, i - 1);
      assert Step(w, w', e, tries, window, skew);
      StepLimits(w, w', e, tries, window, skew);
      StepBounds(w, w', e, tries, window, skew);
      if e.Reserve? {
        ReserveRemembers(w, w', e, tries, window, skew);
      } else {
        ReleaseRemembers(w, w', e, tries, window, skew);
      }
    }
  }

  lemma NothingYet(w: World, tries: nat, window: nat, skew: nat)
    requires w.st == State(map[], None) && w.log == map[]
    ensures Remembers(w, window) && Limited(w, tries, window - skew)
  {
  }

  /** Sliding window: in every run, a key has at most `tries` unreleased reservations in any
      half-open interval of length `window` less the clock's skew at the lock (the whole window
      where readings come to the lock in order), and no more than 4096 keys are held. */
  lemma SlidingWindow(ws: seq<World>, es: seq<Event>, tries: nat, window: nat, skew: nat, i: nat, key: string, from: int)
    requires tries >= 1 && Runs(ws, es, tries, window, skew) && i < |ws|
    ensures CountIn(Stamps(ws[i].log, key), from, window - skew) <= tries
    ensures |ws[i].st.at| <= 4096
  {
    hide Runs, Remembers, Stamps;
    RunsKeep(ws, es, tries, window, skew, i);
  }

  // ----- pauses, where readings come to the lock in order

  ghost predicate Ordered(s: seq<int>, latest: int) {
    && (forall i, j | 0 <= i < j < |s| :: s[i] <= s[j])
    && (forall i | 0 <= i < |s| :: s[i] <= latest)
  }

  lemma {:induction false} AfterOrdered(s: seq<int>, lo: int, latest: int)
    requires Ordered(s, latest)
    ensures Ordered(After(s, lo), latest)
  {
    if s != [] {
      AfterOrdered(s[1..], lo, latest);
      var later := After(s[1..], lo);
      assert forall i | 0 <= i < |later| :: later[i] in s[1..];
    }
  }

  lemma {:induction false} RemovedIs(s: seq<int>, x: int, i: nat)
    requires i < |s| && s[i] == x && x !in s[..i]
    ensures RemoveFirst(s, x) == s[..i] + s[i + 1..]
  {
    if i > 0 {
      assert s[0] in s[..i] && s[..i] == [s[0]] + s[1..][..i - 1];
      RemovedIs(s[1..], x, i - 1);
      assert s[1..][i..] == s[i + 1..];
    }
  }

  lemma RemovedOrdered(s: seq<int>, x: int, latest: int)
    requires Ordered(s, latest)
    ensures Ordered(RemoveFirst(s, x), latest)
  {
    hide RemoveFirst;
    if x in s {
      var i := FirstIndex(s, x);
      RemovedIs(s, x, i);
    }
  }

  lemma {:induction false} FirstIndex(s: seq<int>, x: int) returns (i: nat)
    requires x in s
    ensures i < |s| && s[i] == x && x !in s[..i]
  {
    if s[0] == x {
      i := 0;
    } else {
      i := FirstIndex(s[1..], x);
      assert s[..i + 1] == [s[0]] + s[1..][..i];
      i := i + 1;
    }
  }

  ghost predicate AllOrdered(w: World) {
    forall key :: Ordered(Stamps(w.st.at, key), w.latest)
  }

  lemma StepOrders(w: World, w': World, e: Event, tries: nat, window: nat)
    requires tries >= 1 && AllOrdered(w) && Step(w, w', e, tries, window, 0)
    ensures AllOrdered(w') && w.latest <= w'.latest
  {
    hide After, RemoveFirst, Reserved;
    forall k
      ensures Ordered(Stamps(w'.st.at, k), w'.latest)
    {
      var at := Stamps(w.st.at, k);
      assert Ordered(at, w.latest);
      if e.Reserve? {
        ReservedKey(w.st, w'.st, tries, window, e.key, e.now, e.until, k);
        AfterOrdered(at, e.now - window, w.latest);
      } else {
        RemovedOrdered(at, e.stamp, w.latest);
      }
    }
  }

  lemma {:induction false} RunsOrder(ws: seq<World>, es: seq<Event>, tries: nat, window: nat, i: nat, j: nat)
    requires tries >= 1 && Runs(ws, es, tries, window, 0) && i <= j < |ws|
    ensures AllOrdered(ws[j]) && ws[i].latest <= ws[j].latest
    decreases j
  {
    hide Step;
    if j > 0 {
      RunsOrder(ws, es, tries, window, if i == j then i - 1 else i, j - 1);
      assert Step(ws[j - 1], ws[j - 1 + 1], es[j - 1], tries, window, 0);
      StepOrders(ws[j - 1], ws[j], es[j - 1], tries, window);
    }
  }

  lemma {:induction false} OrderedTail(s: seq<int>, i: nat, latest: int)
    requires Ordered(s, latest) && i < |s|
    ensures |After(s, s[i] - 1)| >= |s| - i
  {
    if i > 0 {
      OrderedTail(s[1..], i - 1, latest);
    } else {
      assert forall k | 0 <= k < |s| :: s[k] > s[0] - 1;
      AllAfter(s, s[0] - 1);
    }
  }

  lemma {:induction false} AllAfter(s: seq<int>, lo: int)
    requires forall k | 0 <= k < |s| :: s[k] > lo
    ensures After(s, lo) == s
  {
    if s != [] {
      AllAfter(s[1..], lo);
      assert s == [s[0]] + s[1..];
    }
  }

  /** The key's count holds until the time: `tries` stamps that are recent up to it. */
  ghost predicate Pauses(st: State, tries: nat, window: nat, key: string, until: int) {
    |After(Stamps(st.at, key), until - window - 1)| >= tries
  }

  lemma {:induction false} PauseStarts(w: World, w': World, tries: nat, window: nat, key: string, now: int, until: Option<int>)
    requires tries >= 1 && AllOrdered(w) && Step(w, w', Reserve(key, now, until), tries, window, 0)
    requires |Recent(w.st, window, key, now)| >= tries
    ensures until.Some? && until.value > now && Pauses(w'.st, tries, window, key, until.value)
  {
    hide After;
    var at, recent := Stamps(w.st.at, key), Recent(w.st, window, key, now);
    var i := |recent| - tries;
    assert Ordered(at, w.latest);
    AfterOrdered(at, now - window, w.latest);
    OrderedTail(recent, i, w.latest);
    assert recent[i] in recent;
    AfterAfter(at, now - window, recent[i] - 1);
  }

  lemma PauseStays(w: World, w': World, e: Event, tries: nat, window: nat, key: string, until: int)
    requires tries >= 1 && Pauses(w.st, tries, window, key, until) && Step(w, w', e, tries, window, 0)
    requires if e.Reserve? then e.now < until else e.key != key
    ensures Pauses(w'.st, tries, window, key, until) && (e.Reserve? && e.key == key ==> e.until.Some?)
  {
    hide After, RemoveFirst;
    if e.Reserve? {
      AfterShrinks(Stamps(w.st.at, key), e.now - window, until - window - 1);
      ReservedKey(w.st, w'.st, tries, window, e.key, e.now, e.until, key);
    }
  }

  /** A pause given for a key's count refuses that key until its time, unless one of its tries
      is released. */
  lemma {:induction false} PauseHolds(ws: seq<World>, es: seq<Event>, tries: nat, window: nat, i: nat, j: nat)
    requires tries >= 1 && Runs(ws, es, tries, window, 0) && i < j < |es|
    requires es[i].Reserve? && |Recent(ws[i].st, window, es[i].key, es[i].now)| >= tries
    requires es[j].Reserve? && es[j].key == es[i].key && (es[i].until.Some? ==> es[j].now < es[i].until.value)
    requires forall l | i < l < j :: es[l].Release? ==> es[l].key != es[i].key
    ensures es[i].until.Some? && es[i].until.value > es[i].now && es[j].until.Some?
  {
    hide Recent, Pauses;
    var key := es[i].key;
    assert Step(ws[i], ws[i + 1], es[i], tries, window, 0);
    RunsOrder(ws, es, tries, window, 0, i);
    PauseStarts(ws[i], ws[i + 1], tries, window, key, es[i].now, es[i].until);
    var until := es[i].until.value;
    for l := i + 1 to j
      invariant Pauses(ws[l].st, tries, window, key, until)
    {
      assert Step(ws[l], ws[l + 1], es[l], tries, window, 0);
      assert Step(ws[j], ws[j + 1], es[j], tries, window, 0);
      RunsOrder(ws, es, tries, window, l + 1, j);
      PauseStays(ws[l], ws[l + 1], es[l], tries, window, key, until);
    }
    assert Step(ws[j], ws[j + 1], es[j], tries, window, 0);
    PauseStays(ws[j], ws[j + 1], es[j], tries, window, key, until);
  }

  /** A try is refused for its key's count exactly when that many of its reservations, not
      released, are within the window; any other refusal is that the map is full. */
  lemma {:induction false} RefusedExactly(ws: seq<World>, es: seq<Event>, tries: nat, window: nat, i: nat)
    requires tries >= 1 && Runs(ws, es, tries, window, 0) && i < |es| && es[i].Reserve?
    ensures var count := |After(Stamps(ws[i].log, es[i].key), es[i].now - window)|;
      && (count >= tries ==> es[i].until.Some?)
      && (count < tries && es[i].until.Some? ==> es[i].key !in ws[i].st.at && |ws[i].st.at| >= 4096)
  {
    hide After, Swept;
    var w, e := ws[i], es[i];
    assert Step(w, ws[i + 1], e, tries, window, 0);
    RunsKeep(ws, es, tries, window, 0, i);
    RecentKept(Stamps(w.st.at, e.key), Stamps(w.log, e.key), w.latest, e.now, window);
  }

  lemma {:induction false} OrderedFront(s: seq<int>, k: nat, lo: int, latest: int)
    requires Ordered(s, latest) && k < |s| && s[k] <= lo
    ensures |After(s, lo)| <= |s| - k - 1
  {
    assert s[0] <= lo;
    if k > 0 { OrderedFront(s[1..], k - 1, lo, latest); }
  }

  /** The time a count refusal gives is the first at which the tries noted so far let another
      one pass. */
  lemma {:induction false} PauseExactly(ws: seq<World>, es: seq<Event>, tries: nat, window: nat, i: nat, t: int)
    requires tries >= 1 && Runs(ws, es, tries, window, 0) && i < |es| && es[i].Reserve? && es[i].now <= t
    requires |After(Stamps(ws[i].log, es[i].key), es[i].now - window)| >= tries
    ensures es[i].until.Some?
    ensures |After(Stamps(ws[i].log, es[i].key), t - window)| >= tries <==> t < es[i].until.value
  {
    hide After, Swept;
    var w, e := ws[i], es[i];
    assert Step(w, ws[i + 1], e, tries, window, 0);
    RunsKeep(ws, es, tries, window, 0, i);
    RunsOrder(ws, es, tries, window, i, i);
    var at, log := Stamps(w.st.at, e.key), Stamps(w.log, e.key);
    RecentKept(at, log, w.latest, e.now, window);
    assert Ordered(at, w.latest);
    AfterOrdered(at, e.now - window, w.latest);
    AfterAfter(log, e.now - window, t - window);
    CountsUntil(After(log, e.now - window), tries, w.latest, t - window);
  }

  /** Of ordered stamps, `tries` lie behind a time exactly while it is before that many from the
      end. */
  lemma CountsUntil(s: seq<int>, tries: nat, latest: int, lo: int)
    requires Ordered(s, latest) && 1 <= tries <= |s|
    ensures |After(s, lo)| >= tries <==> lo < s[|s| - tries]
  {
    hide After;
    var k := |s| - tries;
    if lo < s[k] {
      OrderedTail(s, k, latest);
      AfterShrinks(s, lo, s[k] - 1);
    } else {
      OrderedFront(s, k, lo, latest);
    }
  }

  /** What a world becomes when a try is noted. */
  ghost function Noted(w: World, window: nat, key: string, now: int): World {
    World(Added(w.st, key, Recent(w.st, window, key, now) + [now]), w.log[key := Stamps(w.log, key) + [now]],
          Max(w.latest, now))
  }

  lemma NotedSteps(w: World, tries: nat, window: nat, skew: nat, key: string, now: int)
    requires tries >= 1 && |Recent(w.st, window, key, now)| < tries && !Full(w.st, key) && w.latest - skew <= now
    ensures Step(w, Noted(w, window, key, now), Reserve(key, now, None), tries, window, skew)
  {
    hide Recent;
  }

  lemma NotedStamps(w: World, window: nat, key: string, now: int)
    ensures var w' := Noted(w, window, key, now);
      && Stamps(w'.st.at, key) == After(Stamps(w.st.at, key), now - window) + [now]
      && Stamps(w'.log, key) == Stamps(w.log, key) + [now]
      && w'.st.at.Keys == w.st.at.Keys + {key} && w'.latest == Max(w.latest, now)
  {
    hide After;
  }

  // ----- exactly how far the window reaches

  lemma Extended(ws: seq<World>, es: seq<Event>, w: World, e: Event, tries: nat, window: nat, skew: nat)
    requires tries >= 1 && Runs(ws, es, tries, window, skew) && Step(ws[|es|], w, e, tries, window, skew)
    ensures Runs(ws + [w], es + [e], tries, window, skew)
  {
    hide Step;
    forall i | 0 <= i < |es| + 1
      ensures Step((ws + [w])[i], (ws + [w])[i + 1], (es + [e])[i], tries, window, skew)
    {
      if i < |es| { assert Step(ws[i], ws[i + 1], es[i], tries, window, skew); }
    }
  }

  lemma OnlyKey(st: State, key: string)
    requires st.at.Keys <= {key}
    ensures !Full(st, key)
  {
    if key !in st.at { assert st.at.Keys == {}; }
  }

  lemma {:induction false} NoneAfter(s: seq<int>, lo: int)
    requires forall x | x in s :: x <= lo
    ensures After(s, lo) == []
  {
    if s != [] {
      assert s[0] in s && forall x | x in s[1..] :: x in s;
      NoneAfter(s[1..], lo);
    }
  }

  /** Tries all at the start: each is noted, and the map holds no other stamps. */
  lemma {:induction false} AtTheStart(tries: nat, window: nat, skew: nat, n: nat, key: string, length: nat)
      returns (ws: seq<World>, es: seq<Event>)
    requires 1 <= tries && n <= tries && length >= 1
    ensures Runs(ws, es, tries, window, skew)
    ensures var w := ws[|es|];
      && w.latest == 0 && w.st.at.Keys <= {key}
      && |Stamps(w.st.at, key)| <= n && (forall x | x in Stamps(w.st.at, key) :: x == 0)
      && |Stamps(w.log, key)| == n && CountIn(Stamps(w.log, key), 0, length) == n
    decreases n
  {
    hide Step, Noted, After, CountIn;
    if n == 0 {
      ws, es := [World(State(map[], None), map[], 0)], [];
      NothingCounted(0, length);
    } else {
      ws, es := AtTheStart(tries, window, skew, n - 1, key, length);
      var w := ws[|es|];
      OnlyKey(w.st, key);
      NotedSteps(w, tries, window, skew, key, 0);
      NotedStamps(w, window, key, 0);
      CountSnoc(Stamps(w.log, key), 0, 0, length);
      var v, e := Noted(w, window, key, 0), Reserve(key, 0, None);
      Extended(ws, es, v, e, tries, window, skew);
      ws, es := ws + [v], es + [e];
    }
  }

  lemma NothingCounted(from: int, length: int)
    ensures CountIn([], from, length) == 0
  {
  }

  /** One try more at the end of the window empties the map of the first ones; given back where
      only one is allowed, it leaves room there. */
  lemma {:induction false} AtTheEnd(ws: seq<World>, es: seq<Event>, tries: nat, window: nat, skew: nat, key: string, length: nat)
      returns (ws': seq<World>, es': seq<Event>)
    requires 1 <= tries && Runs(ws, es, tries, window, skew)
    requires var w := ws[|es|];
      && w.latest == 0 && w.st.at.Keys <= {key} && (forall x | x in Stamps(w.st.at, key) :: x == 0)
      && |Stamps(w.log, key)| == tries && CountIn(Stamps(w.log, key), 0, length) == tries
    ensures Runs(ws', es', tries, window, skew)
    ensures var v := ws'[|es'|];
      && v.latest == window && v.st.at.Keys <= {key} && |Stamps(v.st.at, key)| < tries
      && CountIn(Stamps(v.log, key), 0, length) >= tries
  {
    hide Noted, After, CountIn;
    var w := ws[|es|];
    OnlyKey(w.st, key);
    NoneAfter(Stamps(w.st.at, key), 0);
    NotedSteps(w, tries, window, skew, key, window);
    NotedStamps(w, window, key, window);
    var v, e := Noted(w, window, key, window), Reserve(key, window, None);
    Extended(ws, es, v, e, tries, window, skew);
    ws', es' := ws + [v], es + [e];
    CountSnoc(Stamps(w.log, key), window, 0, length);
    if tries == 1 {
      var u, d := GivenBack(v, key, window), Release(key, window);
      OneGivenBack(Stamps(w.log, key), window);
      Extended(ws', es', u, d, tries, window, skew);
      ws', es' := ws' + [u], es' + [d];
      CountRemovedSecond(Stamps(w.log, key), window, 0, length);
    }
  }

  ghost function GivenBack(w: World, key: string, stamp: int): World {
    World(Released(w.st, key, stamp), w.log[key := RemoveFirst(Stamps(w.log, key), stamp)], w.latest)
  }

  lemma OneGivenBack(log: seq<int>, stamp: int)
    ensures RemoveFirst([stamp], stamp) == [] && stamp in log + [stamp]
  {
  }

  lemma CountRemovedSecond(log: seq<int>, x: int, from: int, length: int)
    requires |log| == 1
    ensures CountIn(RemoveFirst(log + [x], x), from, length) == CountIn(log, from, length)
  {
    if log[0] == x {
      assert (log + [x])[1..] == [x] == log;
    } else {
      assert (log + [x])[1..] == [x] && RemoveFirst([x], x) == [] && log == [log[0]];
    }
  }

  /** A reading that comes late by the skew finds room: then one try more than allowed lies in
      an interval just longer than the window less the skew. */
  lemma LateReadingPasses(tries: nat, window: nat, skew: nat, key: string) returns (ws: seq<World>, es: seq<Event>)
    requires tries >= 1
    ensures Runs(ws, es, tries, window, skew)
    ensures CountIn(Stamps(ws[|es|].log, key), 0, Max(0, window - skew) + 1) > tries
  {
    hide Step, Noted, After, CountIn;
    var last := Max(0, window - skew);
    ws, es := AtTheStart(tries, window, skew, tries, key, last + 1);
    ws, es := AtTheEnd(ws, es, tries, window, skew, key, last + 1);
    var w := ws[|es|];
    OnlyKey(w.st, key);
    NotedSteps(w, tries, window, skew, key, last);
    NotedStamps(w, window, key, last);
    CountSnoc(Stamps(w.log, key), last, 0, last + 1);
    var v, e := Noted(w, window, key, last), Reserve(key, last, None);
    Extended(ws, es, v, e, tries, window, skew);
    ws, es := ws + [v], es + [e];
  }

  /** In every run with that skew no interval of that length holds more than `tries`. */
  ghost predicate Bounds(tries: nat, window: nat, skew: nat, span: int)
    requires tries >= 1
  {
    forall ws: seq<World>, es: seq<Event>, i: int, key: string, from: int | Runs(ws, es, tries, window, skew) && 0 <= i < |ws| ::
      CountIn(Stamps(ws[i].log, key), from, span) <= tries
  }

  lemma {:induction false} CountLonger(s: seq<int>, from: int, a: int, b: int)
    requires a <= b
    ensures CountIn(s, from, a) <= CountIn(s, from, b)
    ensures a <= 0 ==> CountIn(s, from, a) == 0
  {
    if s != [] { CountLonger(s[1..], from, a, b); }
  }

  /** The window reaches exactly so far: every run keeps to `tries` in every interval of a length
      if and only if the length is at most the window less the skew of readings at the lock. */
  lemma WindowExactly(tries: nat, window: nat, skew: nat, span: int)
    requires tries >= 1
    ensures Bounds(tries, window, skew, span) <==> span <= Max(0, window - skew)
  {
    hide Runs, CountIn, Stamps;
    if span <= Max(0, window - skew) {
      forall ws: seq<World>, es: seq<Event>, i: int, key: string, from: int | Runs(ws, es, tries, window, skew) && 0 <= i < |ws|
        ensures CountIn(Stamps(ws[i].log, key), from, span) <= tries
      {
        SlidingWindow(ws, es, tries, window, skew, i, key, from);
        CountLonger(Stamps(ws[i].log, key), from, span, Max(span, window - skew));
      }
    } else {
      var ws, es := LateReadingPasses(tries, window, skew, "k");
      RunsLengths(ws, es, tries, window, skew);
      CountLonger(Stamps(ws[|es|].log, "k"), 0, Max(0, window - skew) + 1, span);
      assert CountIn(Stamps(ws[|es|].log, "k"), 0, span) > tries;
    }
  }

  lemma RunsLengths(ws: seq<World>, es: seq<Event>, tries: nat, window: nat, skew: nat)
    requires tries >= 1 && Runs(ws, es, tries, window, skew)
    ensures |ws| == |es| + 1
  {
  }

  // ----- the limiter as it is written

  datatype Outcome = Refused | Otherwise

  class Refusals {
    const tries: nat
    const window: nat
    var at: map<string, seq<int>>
    var sweepAt: Option<int>

    constructor (tries: nat, window: nat)
      ensures this.tries == tries && this.window == window && Here() == State(map[], None)
    {
      this.tries, this.window := tries, window;
      at, sweepAt := map[], None;
    }

    ghost function Here(): State
      reads this
    {
      State(at, sweepAt)
    }

    method RecentOf(key: string, now: int) returns (out: seq<int>)
      ensures out == Recent(Here(), window, key, now)
    {
      hide After;
      var all := Stamps(at, key);
      out := [];
      NothingAfter(now - window);
      assert all[..0] == [];
      for i := 0 to |all|
        invariant out == After(all[..i], now - window)
      {
        assert all[..i + 1] == all[..i] + [all[i]];
        AfterConcat(all[..i], [all[i]], now - window);
        OneAfter(all[i], now - window);
        if now - all[i] < window {
          out := out + [all[i]];
        }
      }
      assert all[..|all|] == all;
    }

    method Sweep(now: int)
      modifies this
      ensures Swept(old(Here()), Here(), window, now)
    {
      hide SweptSoFar;
      ghost var was := Here();
      sweepAt := None;
      var todo := at.Keys;
      SweepStarts(was, window, now);
      while todo != {}
        invariant todo <= was.at.Keys && (forall k | k in todo :: k in at && at[k] == was.at[k])
        invariant SweptSoFar(was, Here(), todo, window, now)
        decreases |todo|
      {
        var k :| k in todo;
        ghost var before := todo;
        todo := todo - {k};
        assert before == todo + {k};
        var recent := RecentOf(k, now);
        SweepStep(was, Here(), todo, window, now, k);
        if recent == [] {
          at := at - {k};
        } else {
          var ends := recent[0] + window;
          if sweepAt.None? || ends < sweepAt.value {
            sweepAt := Some(ends);
          }
        }
      }
      SweepEnds(was, Here(), window, now);
    }

    /** Nothing when the try is noted, otherwise when it may be made. */
    method Reserve(key: string, now: int) returns (until: Option<int>)
      requires tries >= 1
      modifies this
      ensures Reserved(old(Here()), Here(), tries, window, key, now, until)
    {
      hide After, Swept;
      var recent := RecentOf(key, now);
      if |recent| >= tries {
        return Some(recent[|recent| - tries] + window);
      }
      if key !in at && |at| >= REFUSALS_HELD {
        if sweepAt.Some? && now < sweepAt.value {
          return sweepAt;
        }
        Sweep(now);
        ghost var swept := Here();
        if |at| >= REFUSALS_HELD {
          assert Full(swept, key) by { SweptLacks(old(Here()), swept, window, now, key); }
          return sweepAt;
        }
      }
      at := at[key := recent + [now]];
      return None;
    }

    method Release(key: string, stamp: int)
      modifies this
      ensures Here() == Released(old(Here()), key, stamp)
    {
      hide RemoveFirst;
      var all := Stamps(at, key);
      var i := 0;
      while i < |all| && all[i] != stamp
        invariant i <= |all| && stamp !in all[..i]
      {
        assert all[..i + 1] == all[..i] + [all[i]];
        i := i + 1;
      }
      assert all[..|all|] == all;
      if i == |all| { return; }
      RemovedIs(all, stamp, i);
      var kept := all[..i] + all[i + 1..];
      if kept == [] {
        at := at - {key};
        return;
      }
      at := at[key := kept];
    }

    /** A try that is not refused by the mail server is not counted. */
    method Attempt(key: string, now: int, outcome: Outcome) returns (until: Option<int>)
      requires tries >= 1
      modifies this
      ensures exists mid :: Reserved(old(Here()), mid, tries, window, key, now, until)
                            && Here() == if until.None? && outcome.Otherwise? then Released(mid, key, now) else mid
    {
      hide After, Reserved, Released;
      until := Reserve(key, now);
      ghost var mid := Here();
      if until.None? && outcome.Otherwise? {
        Release(key, now);
      }
    }
  }

  /** The sweep's state with the keys of `todo` still to see. */
  ghost predicate SweptSoFar(was: State, st: State, todo: set<string>, window: nat, now: int) {
    && st.at == (map k | k in was.at && (k in todo || Recent(was, window, k, now) != []) :: was.at[k])
    && (st.sweepAt.None? <==> st.at.Keys <= todo)
    && (st.sweepAt.Some? ==>
          && (exists k :: k in st.at && k !in todo && st.sweepAt.value == Recent(was, window, k, now)[0] + window)
          && (forall k | k in st.at && k !in todo :: st.sweepAt.value <= Recent(was, window, k, now)[0] + window))
  }

  lemma SweepStarts(was: State, window: nat, now: int)
    ensures SweptSoFar(was, State(was.at, None), was.at.Keys, window, now)
  {
    hide Recent;
  }

  function Earlier(sweepAt: Option<int>, ends: int): Option<int> {
    if sweepAt.None? || ends < sweepAt.value then Some(ends) else sweepAt
  }

  lemma SweepStep(was: State, st: State, todo: set<string>, window: nat, now: int, k: string)
    requires k in was.at && k !in todo && SweptSoFar(was, st, todo + {k}, window, now)
    ensures var recent := Recent(was, window, k, now);
      && k in st.at && st.at[k] == was.at[k]
      && (recent == [] ==> SweptSoFar(was, st.(at := st.at - {k}), todo, window, now))
      && (recent != [] ==> SweptSoFar(was, st.(sweepAt := Earlier(st.sweepAt, recent[0] + window)), todo, window, now))
  {
    hide Recent;
  }

  lemma SweepEnds(was: State, st: State, window: nat, now: int)
    requires SweptSoFar(was, st, {}, window, now)
    ensures Swept(was, st, window, now)
  {
    hide Recent;
  }

  lemma OneAfter(x: int, lo: int)
    ensures After([x], lo) == if x > lo then [x] else []
  {
  }

  lemma SweptLacks(st: State, swept: State, window: nat, now: int, key: string)
    requires Swept(st, swept, window, now) && key !in st.at
    ensures key !in swept.at
  {
  }

  /** A refusal always names a time still to come. */
  lemma {:induction false} RefusedIsInFuture(st: State, st': State, tries: nat, window: nat, key: string, now: int, until: Option<int>)
    requires tries >= 1 && Reserved(st, st', tries, window, key, now, until) && until.Some?
    ensures until.value > now
  {
    hide After;
    var recent := Recent(st, window, key, now);
    if |recent| >= tries {
      assert recent[|recent| - tries] in recent;
    } else if !(st.sweepAt.Some? && now < st.sweepAt.value) {
      var swept :| Swept(st, swept, window, now) && until == swept.sweepAt;
      var k :| k in swept.at && swept.sweepAt.value == Recent(st, window, k, now)[0] + window;
      assert Recent(st, window, k, now)[0] in Recent(st, window, k, now);
    }
  }

  /** A full map never lets a try pass unnoted: it is noted exactly when it is not refused. */
  lemma NotedUnlessRefused(st: State, st': State, tries: nat, window: nat, key: string, now: int, until: Option<int>)
    requires tries >= 1 && Reserved(st, st', tries, window, key, now, until) && |st.at| <= REFUSALS_HELD
    ensures until.None? ==> now in Stamps(st'.at, key)
    ensures until.Some? ==> Stamps(st'.at, key) == Stamps(st.at, key)
  {
    hide After;
    ReservedKey(st, st', tries, window, key, now, until, key);
  }
}
