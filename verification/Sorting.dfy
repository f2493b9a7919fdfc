/** The stable sort by a total preorder, and what makes it one. */
module Sorting {

  ghost predicate TotalPreorder<T(!new)>(le: (T, T) -> bool) {
    && (forall a, b :: le(a, b) || le(b, a))
    && (forall a, b, c :: le(a, b) && le(b, c) ==> le(a, c))
  }

  ghost predicate Sorted<T>(le: (T, T) -> bool, s: seq<T>) {
    forall i, j | 0 <= i < j < |s| :: le(s[i], s[j])
  }

  /** `x` in front of the first row that may follow it. */
  function Inserted<T>(le: (T, T) -> bool, x: T, s: seq<T>): (r: seq<T>)
    ensures |r| == |s| + 1 && multiset(r) == multiset(s) + multiset{x}
  {
    if s == [] || le(x, s[0]) then [x] + s
    else
      assert s == [s[0]] + s[1..];
      [s[0]] + Inserted(le, x, s[1..])
  }

  function StableSort<T>(le: (T, T) -> bool, s: seq<T>): (r: seq<T>)
    ensures |r| == |s| && multiset(r) == multiset(s)
  {
    if s == [] then [] else
      assert s == [s[0]] + s[1..];
      Inserted(le, s[0], StableSort(le, s[1..]))
  }

  /** The rows that compare equal to `x`, in their order. */
  function Peers<T>(le: (T, T) -> bool, x: T, s: seq<T>): seq<T> {
    if s == [] then []
    else if le(x, s[0]) && le(s[0], x) then [s[0]] + Peers(le, x, s[1..])
    else Peers(le, x, s[1..])
  }

  lemma {:induction false} InsertedSorted<T(!new)>(le: (T, T) -> bool, x: T, s: seq<T>)
    requires TotalPreorder(le) && Sorted(le, s)
    ensures Sorted(le, Inserted(le, x, s))
  {
    var r := Inserted(le, x, s);
    if s != [] && !le(x, s[0]) {
      InsertedSorted(le, x, s[1..]);
      forall y | y in r[1..]
        ensures le(s[0], y)
      {
        assert multiset(r[1..])[y] > 0;
        if y != x { assert multiset(s[1..])[y] > 0; }
      }
      forall i, j | 0 <= i < j < |r|
        ensures le(r[i], r[j])
      {
        assert r[j] == r[1..][j - 1] && r[j] in r[1..];
        if i > 0 { assert r[i] == r[1..][i - 1]; }
      }
    }
  }

  lemma {:induction false} InsertedPeers<T(!new)>(le: (T, T) -> bool, x: T, s: seq<T>, y: T)
    requires TotalPreorder(le)
    ensures Peers(le, y, Inserted(le, x, s)) == Peers(le, y, [x] + s)
  {
    assert ([x] + s)[1..] == s;
    if s != [] && !le(x, s[0]) {
      var rest := Inserted(le, x, s[1..]);
      InsertedPeers(le, x, s[1..], y);
      assert ([x] + s[1..])[1..] == s[1..];
      assert ([s[0]] + rest)[1..] == rest;
    }
  }

  /** The sort is what its name says: ordered, the same rows, and equal rows in their order. */
  lemma {:induction false} StableSortSorts<T(!new)>(le: (T, T) -> bool, s: seq<T>, y: T)
    requires TotalPreorder(le)
    ensures Sorted(le, StableSort(le, s)) && multiset(StableSort(le, s)) == multiset(s)
    ensures Peers(le, y, StableSort(le, s)) == Peers(le, y, s)
  {
    if s != [] {
      var rest := StableSort(le, s[1..]);
      StableSortSorts(le, s[1..], y);
      InsertedSorted(le, s[0], rest);
      InsertedPeers(le, s[0], rest, y);
      assert ([s[0]] + rest)[1..] == rest;
    }
  }
}
