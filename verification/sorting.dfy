/** Python's `sorted(xs, key=...)` and `sorted(xs, key=..., reverse=True)`:
    a stable sort, modelled as insertion sort on sequences. Stability is
    built into `Insert` (an element goes in front of every element whose key
    is not smaller), which is what makes the model pick the same player as
    the source among equal keys. */
module Sorting {

  import opened Common

  ghost predicate Ascending<T>(s: seq<T>, key: T -> real) {
    forall i, j :: 0 <= i < j < |s| ==> key(s[i]) <= key(s[j])
  }

  ghost predicate Descending<T>(s: seq<T>, key: T -> real) {
    forall i, j :: 0 <= i < j < |s| ==> key(s[i]) >= key(s[j])
  }

  /** The condition "has key `k`". */
  function KeyIs<T>(key: T -> real, k: real): T -> bool {
    x => key(x) == k
  }

  /** `r` lists the elements of every key class in the order `s` does:
      what makes a sort stable. */
  ghost predicate Stable<T>(r: seq<T>, s: seq<T>, key: T -> real) {
    forall k :: Filter(r, KeyIs(key, k)) == Filter(s, KeyIs(key, k))
  }

  /** The key negated, so that `reverse=True` becomes an ascending sort. */
  function Negated<T>(key: T -> real): T -> real {
    x => -key(x)
  }

  /** Insertion in front of the first element whose key is not smaller. */
  function Insert<T>(x: T, s: seq<T>, key: T -> real): (r: seq<T>)
    ensures |r| == |s| + 1
    ensures r[0] == x || (|s| > 0 && r[0] == s[0])
  {
    if |s| == 0 || key(x) <= key(s[0]) then [x] + s
    else
      assert s == [s[0]] + s[1..];
      [s[0]] + Insert(x, s[1..], key)
  }

  /** Insertion adds exactly `x` to the multiset of elements. */
  lemma {:induction false} InsertPermutes<T>(x: T, s: seq<T>, key: T -> real)
    ensures multiset(Insert(x, s, key)) == multiset(s) + multiset{x}
  {
    if |s| > 0 && key(x) > key(s[0]) {
      InsertPermutes(x, s[1..], key);
      assert s == [s[0]] + s[1..];
    }
  }

  /** Insertion into an ordered list keeps it ordered. */
  lemma {:induction false} InsertAscending<T>(x: T, s: seq<T>, key: T -> real)
    requires Ascending(s, key)
    ensures Ascending(Insert(x, s, key), key)
  {
    if |s| > 0 && key(x) > key(s[0]) {
      AscendingTail(s, key);
      InsertAscending(x, s[1..], key);
    }
  }

  /** Inserting `x` puts it in front of every element with the same key. */
  lemma {:induction false} InsertKeepsClassOrder<T>(x: T, s: seq<T>, key: T -> real, k: real)
    ensures Filter(Insert(x, s, key), KeyIs(key, k)) == (if key(x) == k then [x] else []) + Filter(s, KeyIs(key, k))
  {
    if |s| == 0 || key(x) <= key(s[0]) {
      assert Insert(x, s, key) == [x] + s;
      assert ([x] + s)[1..] == s;
    } else {
      InsertKeepsClassOrder(x, s[1..], key, k);
      InsertPastHead(x, s, key, k);
    }
  }

  lemma AscendingTail<T>(s: seq<T>, key: T -> real)
    requires Ascending(s, key) && |s| > 0
    ensures Ascending(s[1..], key)
  {
    forall i, j | 0 <= i < j < |s| - 1 ensures key(s[1..][i]) <= key(s[1..][j]) {
      assert s[1..][i] == s[i + 1] && s[1..][j] == s[j + 1];
    }
  }

  /** The step of `InsertKeepsClassOrder` when `x` goes after the head. */
  lemma InsertPastHead<T>(x: T, s: seq<T>, key: T -> real, k: real)
    requires |s| > 0 && key(x) > key(s[0])
    requires Filter(Insert(x, s[1..], key), KeyIs(key, k))
      == (if key(x) == k then [x] else []) + Filter(s[1..], KeyIs(key, k))
    ensures Filter(Insert(x, s, key), KeyIs(key, k)) == (if key(x) == k then [x] else []) + Filter(s, KeyIs(key, k))
  {
    var p := KeyIs(key, k);
    var t := s[1..];
    var rest := Insert(x, t, key);
    assert Insert(x, s, key) == [s[0]] + rest;
    assert s == [s[0]] + t;
    assert p(x) == (key(x) == k) && p(s[0]) == (key(s[0]) == k);
    HeadBeforeClass(s[0], rest, t, x, p);
  }

  /** Putting `y` in front of two lists whose filtered forms differ by a
      leading `x` keeps that difference, when `x` and `y` are not both kept. */
  lemma HeadBeforeClass<T>(y: T, rest: seq<T>, tail: seq<T>, x: T, p: T -> bool)
    requires !(p(x) && p(y))
    requires Filter(rest, p) == (if p(x) then [x] else []) + Filter(tail, p)
    ensures Filter([y] + rest, p) == (if p(x) then [x] else []) + Filter([y] + tail, p)
  {
    FilterCons(y, rest, p);
    FilterCons(y, tail, p);
  }

  /** `sorted(s, key=key)`: ordered, a permutation, and stable. */
  function SortAscending<T>(s: seq<T>, key: T -> real): (r: seq<T>)
    ensures |r| == |s|
    ensures multiset(r) == multiset(s)
    ensures Ascending(r, key)
    ensures Stable(r, s, key)
  {
    if |s| == 0 then []
    else
      assert s == [s[0]] + s[1..];
      var tail := SortAscending(s[1..], key);
      var r := Insert(s[0], tail, key);
      InsertAscending(s[0], tail, key);
      InsertPermutes(s[0], tail, key);
      assert forall k :: Filter(r, KeyIs(key, k)) == Filter(s, KeyIs(key, k)) by {
        forall k ensures Filter(r, KeyIs(key, k)) == Filter(s, KeyIs(key, k)) {
          InsertKeepsClassOrder(s[0], tail, key, k);
        }
      }
      r
  }

  /** `sorted(s, key=key, reverse=True)`; Python keeps equal keys in input
      order under `reverse=True`, as the ascending sort on the negated key
      does. */
  function SortDescending<T>(s: seq<T>, key: T -> real): (r: seq<T>)
    ensures |r| == |s|
    ensures multiset(r) == multiset(s)
    ensures Descending(r, key)
    ensures Stable(r, s, key)
  {
    var r := SortAscending(s, Negated(key));
    assert forall i, j :: 0 <= i < j < |r| ==> Negated(key)(r[i]) <= Negated(key)(r[j]);
    forall k ensures Filter(r, KeyIs(key, k)) == Filter(s, KeyIs(key, k)) {
      assert Filter(r, KeyIs(Negated(key), -k)) == Filter(s, KeyIs(Negated(key), -k));
      FilterSameCondition(r, KeyIs(key, k), KeyIs(Negated(key), -k));
      FilterSameCondition(s, KeyIs(key, k), KeyIs(Negated(key), -k));
    }
    r
  }

  /** A subsequence kept by `Filter` stays in order. */
  lemma {:induction false} FilterKeepsDescending<T>(s: seq<T>, keep: T -> bool, key: T -> real)
    requires Descending(s, key)
    ensures Descending(Filter(s, keep), key)
  {
    if |s| > 0 {
      FilterKeepsDescending(s[1..], keep, key);
      var rest := Filter(s[1..], keep);
      FilterMembers(s[1..], keep);
      if keep(s[0]) {
        forall j | 0 < j < |rest| + 1
          ensures key(s[0]) >= key(([s[0]] + rest)[j])
        {
          var y := rest[j - 1];
          var k :| 0 <= k < |s[1..]| && s[1..][k] == y;
          assert s[k + 1] == y;
        }
      }
    }
  }
}
