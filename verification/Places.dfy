/** Where a message stands in its view: its position, and the messages either side of it. */
module Places {
  import opened Basics
  import opened Pages

  /** Zero stands for no message, as no UID is zero. */
  datatype Place = Place(newer: nat, older: nat, position: nat, total: nat)

  const NOWHERE := Place(0, 0, 0, 0)

  ghost predicate Distinct(uids: seq<nat>) {
    forall i, j | 0 <= i < j < |uids| :: uids[i] != uids[j]
  }

  /** The place of the row at `i`. */
  function At(uids: seq<nat>, i: nat): Place
    requires i < |uids|
  {
    Place(if i > 0 then uids[i - 1] else 0, if i + 1 < |uids| then uids[i + 1] else 0, i + 1, |uids|)
  }

  function Index(uids: seq<nat>, uid: nat): (i: int)
    ensures -1 <= i < |uids|
    ensures i == -1 <==> uid !in uids
    ensures i >= 0 ==> uids[i] == uid && uid !in uids[..i]
  {
    if uids == [] then -1
    else if uids[0] == uid then 0
    else
      var i := Index(uids[1..], uid);
      assert uids == [uids[0]] + uids[1..];
      if i < 0 then -1 else assert uids[..i + 1] == [uids[0]] + uids[1..][..i]; i + 1
  }

  function PlaceIn(uids: seq<nat>, uid: nat): Place {
    var i := Index(uids, uid);
    if i < 0 then NOWHERE else At(uids, i)
  }

  lemma PlaceAt(uids: seq<nat>, i: nat)
    requires i < |uids| && Distinct(uids)
    ensures var p := PlaceIn(uids, uids[i]);
      && p == At(uids, i)
      && p.position == i + 1 && p.total == |uids|
      && p.newer == (if i == 0 then 0 else uids[i - 1]) && p.older == (if i == |uids| - 1 then 0 else uids[i + 1])
  {
    hide Index;
    assert uids[i] in uids;
  }

  // ----- counted neighbours

  const UID_MODULUS: nat := 0x1_0000_0000

  ghost predicate Increasing(uids: seq<nat>) {
    forall i, j | 0 <= i < j < |uids| :: uids[i] < uids[j]
  }

  /** A folder's UIDs, in the order of its sequence numbers. */
  ghost predicate Folder(uids: seq<nat>) {
    Increasing(uids) && forall i | 0 <= i < |uids| :: 0 < uids[i] < UID_MODULUS
  }

  /** A search's answer: how many match, and the least and greatest, zero when none does. */
  datatype Answer = Answer(count: nat, min: nat, max: nat)

  function Matching(uids: seq<nat>, low: nat, high: nat): (r: seq<nat>) {
    if uids == [] then []
    else (if low <= uids[0] <= high then [uids[0]] else []) + Matching(uids[1..], low, high)
  }

  function Answered(matching: seq<nat>): Answer {
    if matching == [] then Answer(0, 0, 0) else Answer(|matching|, matching[0], matching[|matching| - 1])
  }

  /** `UID start:stop`, where a zero stands for "*": the highest UID in the folder. The two ends
      are taken in either order (section 6.4.9 of RFC 9051). */
  function Search(uids: seq<nat>, start: nat, stop: nat): Answer {
    var star := if uids == [] then 0 else uids[|uids| - 1];
    var a, b := if start == 0 then star else start, if stop == 0 then star else stop;
    Answered(Matching(uids, Min(a, b), Max(a, b)))
  }

  function Neighbours(above: Answer, self: Answer, below: Answer, uid: nat): Place {
    if self.count == 0 then NOWHERE else
      var over := if above.min <= uid then Answer(0, 0, 0) else above;
      Place(over.min, below.max, over.count + 1, over.count + 1 + below.count)
  }

  /** The place counted from three searches: above the message, the message, and below it. */
  function UidNeighbours(uids: seq<nat>, uid: nat): Place {
    var above := Search(uids, (uid + 1) % UID_MODULUS, 0);
    var self := Search(uids, uid, uid);
    var below := if uid > 1 then Search(uids, 1, uid - 1) else Answer(0, 0, 0);
    Neighbours(above, self, below, uid)
  }

  function Reversed(uids: seq<nat>): (r: seq<nat>)
    ensures |r| == |uids| && forall i | 0 <= i < |uids| :: r[i] == uids[|uids| - 1 - i]
  {
    seq(|uids|, i requires 0 <= i < |uids| => uids[|uids| - 1 - i])
  }

  /** The reversal done in place. */
  method ReverseInPlace(a: array<nat>)
    modifies a
    ensures a[..] == Reversed(old(a[..]))
  {
    var i, j := 0, a.Length - 1;
    while i < j
      invariant 0 <= i && i + j == a.Length - 1 && -1 <= j
      invariant forall k | 0 <= k < i :: a[k] == old(a[a.Length - 1 - k]) && a[a.Length - 1 - k] == old(a[k])
      invariant forall k | i <= k <= j :: a[k] == old(a[k])
    {
      a[i], a[j] := a[j], a[i];
      i, j := i + 1, j - 1;
    }
  }

  lemma {:induction false} MatchingConcat(a: seq<nat>, b: seq<nat>, low: nat, high: nat)
    ensures Matching(a + b, low, high) == Matching(a, low, high) + Matching(b, low, high)
  {
    if a == [] {
      assert a + b == b;
    } else {
      assert (a + b)[1..] == a[1..] + b;
      MatchingConcat(a[1..], b, low, high);
    }
  }

  lemma {:induction false} MatchingNone(uids: seq<nat>, low: nat, high: nat)
    requires forall i | 0 <= i < |uids| :: !(low <= uids[i] <= high)
    ensures Matching(uids, low, high) == []
  {
    if uids != [] { MatchingNone(uids[1..], low, high); }
  }

  lemma {:induction false} MatchingAll(uids: seq<nat>, low: nat, high: nat)
    requires forall i | 0 <= i < |uids| :: low <= uids[i] <= high
    ensures Matching(uids, low, high) == uids
  {
    if uids != [] {
      MatchingAll(uids[1..], low, high);
      assert uids == [uids[0]] + uids[1..];
    }
  }

  /** A range over an increasing list is a slice of it. */
  lemma MatchingSlice(uids: seq<nat>, low: nat, high: nat, from: nat, to: nat)
    requires from <= to <= |uids|
    requires forall i | 0 <= i < |uids| :: low <= uids[i] <= high <==> from <= i < to
    ensures Matching(uids, low, high) == uids[from..to]
  {
    hide Matching;
    assert uids == uids[..from] + uids[from..to] + uids[to..];
    MatchingConcat(uids[..from] + uids[from..to], uids[to..], low, high);
    MatchingConcat(uids[..from], uids[from..to], low, high);
    MatchingNone(uids[..from], low, high);
    MatchingNone(uids[to..], low, high);
    MatchingAll(uids[from..to], low, high);
  }

  lemma SelfCounts(uids: seq<nat>, uid: nat)
    requires Folder(uids) && uid >= 1
    ensures Search(uids, uid, uid).count == 0 <==> uid !in uids
  {
    hide Matching;
    if uid in uids {
      var i :| 0 <= i < |uids| && uids[i] == uid;
      MatchingSlice(uids, uid, uid, i, i + 1);
    } else {
      MatchingNone(uids, uid, uid);
    }
  }

  lemma BelowCounts(uids: seq<nat>, i: nat)
    requires Folder(uids) && i < |uids|
    ensures uids[i] > 1 ==> Search(uids, 1, uids[i] - 1) == Answered(uids[..i])
    ensures uids[i] == 1 ==> i == 0
  {
    hide Matching;
    if i > 0 { assert 0 < uids[i - 1] < uids[i]; }
    if uids[i] > 1 {
      MatchingSlice(uids, 1, uids[i] - 1, 0, i);
    }
  }

  /** Above the highest message the search still answers with that message, never more. */
  lemma AboveCounts(uids: seq<nat>, i: nat)
    requires Folder(uids) && i < |uids|
    ensures var start := (uids[i] + 1) % UID_MODULUS;
      if i + 1 < |uids| then Search(uids, start, 0) == Answered(uids[i + 1..]) else Search(uids, start, 0).min <= uids[i]
  {
    hide Matching;
    var star := uids[|uids| - 1];
    if i + 1 < |uids| {
      assert uids[i] < uids[i + 1] <= star < UID_MODULUS;
      assert (uids[i] + 1) % UID_MODULUS == uids[i] + 1 && uids[i + 1..|uids|] == uids[i + 1..];
      MatchingSlice(uids, uids[i] + 1, star, i + 1, |uids|);
    } else if uids[i] + 1 == UID_MODULUS {
      MatchingSlice(uids, star, star, i, i + 1);
    } else {
      MatchingSlice(uids, star, star + 1, i, i + 1);
    }
  }

  lemma CountedAt(uids: seq<nat>, i: nat)
    requires Folder(uids) && i < |uids|
    ensures UidNeighbours(uids, uids[i]) == At(Reversed(uids), |uids| - 1 - i)
  {
    hide Search;
    assert uids[i] in uids;
    SelfCounts(uids, uids[i]);
    BelowCounts(uids, i);
    AboveCounts(uids, i);
    var newest, k := Reversed(uids), |uids| - 1 - i;
    assert i > 0 ==> newest[k + 1] == uids[i - 1];
    assert k > 0 ==> newest[k - 1] == uids[i + 1];
  }

  /** Counted neighbours refine the list: for every folder and every UID, the three answers
      give the place the whole list, newest first, would. */
  lemma CountedIsListed(uids: seq<nat>, uid: nat)
    requires Folder(uids) && 1 <= uid < UID_MODULUS
    ensures UidNeighbours(uids, uid) == PlaceIn(Reversed(uids), uid)
  {
    hide Search, Index, At;
    var newest := Reversed(uids);
    if uid in uids {
      var i :| 0 <= i < |uids| && uids[i] == uid;
      CountedAt(uids, i);
      assert newest[|uids| - 1 - i] == uid;
      PlaceAt(newest, |uids| - 1 - i);
    } else {
      SelfCounts(uids, uid);
      assert uid !in newest;
    }
  }

  /** What the counted place says of a folder: the next higher UID is the newer message, the
      next lower the older one, and the position counts the message and those above it. */
  lemma CountedPlace(uids: seq<nat>, i: nat)
    requires Folder(uids) && i < |uids|
    ensures var p := UidNeighbours(uids, uids[i]);
      && p.newer == (if i + 1 < |uids| then uids[i + 1] else 0)
      && p.older == (if i > 0 then uids[i - 1] else 0)
      && p.position == |uids| - i && p.total == |uids|
    ensures forall uid | uid !in uids && 1 <= uid < 0x1_0000_0000 :: UidNeighbours(uids, uid) == Place(0, 0, 0, 0)
  {
    hide Search;
    CountedAt(uids, i);
    forall uid | uid !in uids && 1 <= uid < 0x1_0000_0000
      ensures UidNeighbours(uids, uid) == Place(0, 0, 0, 0)
    {
      SelfCounts(uids, uid);
    }
  }

  /** A message's place in its folder: counted where the server can count, otherwise found in
      the UIDs it lists, turned around. Either way it is the place in the list, newest first. */
  method FolderNeighbours(counts: bool, uids: array<nat>, uid: nat) returns (place: Place)
    requires Folder(uids[..]) && 1 <= uid < UID_MODULUS
    modifies uids
    ensures place == PlaceIn(Reversed(old(uids[..])), uid)
  {
    if counts {
      CountedIsListed(uids[..], uid);
      return UidNeighbours(uids[..], uid);
    }
    ReverseInPlace(uids);
    return PlaceIn(uids[..], uid);
  }

  // ----- cached pages

  /** What the cache holds of a page: its rows' UIDs, and what was said of the folder then. */
  datatype Entry = Entry(rows: seq<nat>, page: nat, perPage: nat, total: nat, snap: Snap)
  datatype Snap = NoSnap | Snap(validity: nat, next: nat)
  datatype Cached = Absent | Present(entry: Entry)
  datatype Neighbourhood = NotFound | Found(place: Place)

  predicate Adjoins(e: Entry, other: Entry) {
    e.snap.Snap? && other.snap.Snap? && e.total == other.total && e.snap == other.snap
  }

  function NeighboursOn(e: Entry, uid: nat, before: Cached, after: Cached): Neighbourhood {
    var i := Index(e.rows, uid);
    if i < 0 then NotFound
    else if i == 0 && e.page > 0 && (before.Absent? || before.entry.rows == []) then NotFound
    else if i + 1 == |e.rows| && e.total > e.page * e.perPage + |e.rows| && (after.Absent? || after.entry.rows == []) then NotFound
    else
      var newer :=
        if i > 0 then e.rows[i - 1]
        else if e.page == 0 then 0
        else before.entry.rows[|before.entry.rows| - 1];
      var older :=
        if i + 1 < |e.rows| then e.rows[i + 1]
        else if e.total <= e.page * e.perPage + |e.rows| then 0
        else after.entry.rows[0];
      Found(Place(newer, older, e.page * e.perPage + i + 1, e.total))
  }

  /** An entry beside this one counts only where it is cut alike and nothing changed between. */
  function Beside(e: Entry, held: Cached): Cached {
    if held.Present? && held.entry.perPage == e.perPage && Adjoins(e, held.entry) then held else Absent
  }

  /** The page held is the slice of the order its number names. */
  ghost predicate SliceOf(e: Entry, order: seq<nat>) {
    var (from, to) := Rows(Page(e.page, e.perPage), |order|);
    e.perPage > 0 && e.total == |order| && e.rows == order[from..to]
  }

  /** An entry was cut from the order its snapshot and total belong to. */
  ghost predicate Faithful(e: Entry, orders: (Snap, nat) -> seq<nat>) {
    Distinct(orders(e.snap, e.total)) && SliceOf(e, orders(e.snap, e.total))
  }

  /** The rows of a page stand in the order from `page * perPage` on, up to its end. */
  lemma SliceRows(e: Entry, order: seq<nat>)
    requires SliceOf(e, order) && e.rows != []
    ensures var from := e.page * e.perPage;
      && |order| == e.total
      && from + |e.rows| == Min(from + e.perPage, |order|)
      && forall i | 0 <= i < |e.rows| :: order[from + i] == e.rows[i]
  {
  }

  lemma BeforeEnds(e: Entry, before: Entry, order: seq<nat>)
    requires SliceOf(e, order) && SliceOf(before, order) && e.rows != []
    requires e.page > 0 && before.page == e.page - 1 && before.perPage == e.perPage
    ensures before.rows != [] && before.rows[|before.rows| - 1] == order[e.page * e.perPage - 1]
  {
    SliceRows(e, order);
    assert e.page * e.perPage == before.page * e.perPage + e.perPage;
  }

  lemma AfterStarts(e: Entry, after: Entry, order: seq<nat>)
    requires SliceOf(e, order) && SliceOf(after, order) && e.rows != []
    requires |order| > e.page * e.perPage + |e.rows| && after.page == e.page + 1 && after.perPage == e.perPage
    ensures after.rows != [] && after.rows[0] == order[e.page * e.perPage + |e.rows|]
  {
    SliceRows(e, order);
    assert after.page * e.perPage == e.page * e.perPage + e.perPage;
  }

  lemma FoundAt(e: Entry, i: nat, before: Cached, after: Cached, order: seq<nat>)
    requires SliceOf(e, order) && Distinct(order) && i < |e.rows|
    requires e.page > 0 && before.Present? ==> before.entry.page == e.page - 1 && before.entry.perPage == e.perPage && SliceOf(before.entry, order)
    requires after.Present? ==> after.entry.page == e.page + 1 && after.entry.perPage == e.perPage && SliceOf(after.entry, order)
    ensures Index(e.rows, e.rows[i]) == i && e.page * e.perPage + i < |order|
    ensures NeighboursOn(e, e.rows[i], before, after)
      == if (i == 0 && e.page > 0 && before.Absent?) || (i + 1 == |e.rows| && |order| > e.page * e.perPage + |e.rows| && after.Absent?)
         then NotFound else Found(At(order, e.page * e.perPage + i))
  {
    hide Index, SliceOf;
    SliceRows(e, order);
    RowsDistinct(e, order);
    assert e.rows[i] in e.rows;
    if e.page > 0 && before.Present? { BeforeEnds(e, before.entry, order); }
    if |order| > e.page * e.perPage + |e.rows| && after.Present? { AfterStarts(e, after.entry, order); }
  }

  lemma RowsDistinct(e: Entry, order: seq<nat>)
    requires SliceOf(e, order) && Distinct(order)
    ensures Distinct(e.rows)
  {
  }

  /** The first row needs the page before, if there is one, and the last row the page after. */
  predicate NeighboursHeld(e: Entry, uid: nat, before: Cached, after: Cached)
    requires e.rows != []
  {
    && (e.page > 0 && uid == e.rows[0] ==> before.Present?)
    && (e.page * e.perPage + |e.rows| < e.total && uid == e.rows[|e.rows| - 1] ==> after.Present?)
  }

  /** Cached pages agree with the whole order: the place found is the place in the order the
      page was cut from, at page borders and at both ends, and it is found exactly when the
      message is on the page and a neighbour on another page is on one that adjoins. */
  lemma CachedIsWhole(e: Entry, uid: nat, before: Cached, after: Cached, orders: (Snap, nat) -> seq<nat>)
    requires Faithful(e, orders)
    requires e.page > 0 && before.Present? ==> before.entry.page == e.page - 1 && Faithful(before.entry, orders)
    requires after.Present? ==> after.entry.page == e.page + 1 && Faithful(after.entry, orders)
    ensures var r := NeighboursOn(e, uid, Beside(e, before), Beside(e, after));
      && (r.Found? ==> r.place == PlaceIn(orders(e.snap, e.total), uid))
      && (r.Found? <==> uid in e.rows && NeighboursHeld(e, uid, Beside(e, before), Beside(e, after)))
  {
    hide Index, SliceOf, At, Distinct;
    if uid in e.rows {
      var order := orders(e.snap, e.total);
      var i := Index(e.rows, uid);
      FoundAt(e, i, Beside(e, before), Beside(e, after), order);
      WholePlace(e, i, order);
    }
  }

  lemma WholePlace(e: Entry, i: nat, order: seq<nat>)
    requires SliceOf(e, order) && Distinct(order) && i < |e.rows|
    ensures |order| == e.total && Distinct(e.rows) && e.page * e.perPage + i < |order|
    ensures PlaceIn(order, e.rows[i]) == At(order, e.page * e.perPage + i)
    ensures e.rows[i] == e.rows[0] <==> i == 0
    ensures e.rows[i] == e.rows[|e.rows| - 1] <==> i == |e.rows| - 1
  {
    hide Index, At;
    RowsDistinct(e, order);
    SliceRows(e, order);
    PlaceAt(order, e.page * e.perPage + i);
  }
}
