/** Shared vocabulary for the analytics model: optional values, the one
    runtime failure the analyses can raise, Python's slice-and-filter
    idioms, sums, and the "first maximum" choice that `max(...)` makes. */
module Common {

  /** A value that may be absent (Python's `None`, or a missing dict key). */
  datatype Option<T> = None | Some(value: T) {
    function GetOr(default: T): T {
      match this
      case Some(v) => v
      case None => default
    }
  }

  /** The only exception the modelled code can raise on in-memory data. */
  datatype Failure = ZeroDivision

  /** A computation that either yields a value or raises. */
  datatype Result<T> = Ok(value: T) | Err(failure: Failure)

  /** Python's `s[:n]`: a non-negative `n` keeps the first `n` elements
      (all of them when `n` exceeds the length); a negative `n` drops the
      last `-n` elements. */
  function Take<T>(s: seq<T>, n: int): (r: seq<T>)
    ensures |r| <= |s| && r == s[..|r|]
    ensures 0 <= n ==> |r| == Min(n, |s|)
    ensures n < 0 ==> |r| == Max(0, |s| + n)
  {
    if n >= |s| then s
    else if n >= 0 then s[..n]
    else if |s| + n >= 0 then s[..|s| + n]
    else []
  }

  function Min(a: int, b: int): int { if a <= b then a else b }

  function Max(a: int, b: int): int { if a >= b then a else b }

  function MinReal(a: real, b: real): real { if a <= b then a else b }

  /** Python's `int(x)` on a float: truncation toward zero. */
  function TruncToInt(x: real): (r: int)
    ensures 0.0 <= x ==> r as real <= x < r as real + 1.0
    ensures x < 0.0 ==> r as real - 1.0 < x <= r as real
  {
    if x >= 0.0 then x.Floor else -((-x).Floor)
  }

  /** A list comprehension `[x for x in s if keep(x)]`. */
  function Filter<T>(s: seq<T>, keep: T -> bool): (r: seq<T>)
    ensures |r| <= |s|
  {
    if |s| == 0 then []
    else
      assert s == [s[0]] + s[1..];
      if keep(s[0]) then [s[0]] + Filter(s[1..], keep)
      else Filter(s[1..], keep)
  }

  /** The comprehension keeps exactly the elements that satisfy `keep`. */
  lemma {:induction false} FilterMembers<T>(s: seq<T>, keep: T -> bool)
    ensures forall i :: 0 <= i < |Filter(s, keep)| ==> Filter(s, keep)[i] in s && keep(Filter(s, keep)[i])
    ensures forall i :: 0 <= i < |s| && keep(s[i]) ==> s[i] in Filter(s, keep)
  {
    if |s| > 0 {
      FilterMembers(s[1..], keep);
      assert s == [s[0]] + s[1..];
      var rest := Filter(s[1..], keep);
      forall i | 0 <= i < |s| && keep(s[i]) ensures s[i] in Filter(s, keep) {
        if i > 0 {
          assert s[i] == s[1..][i - 1];
        }
      }
    }
  }

  /** Filtering never repeats an element more often than the input has it. */
  lemma {:induction false} FilterSubMultiset<T>(s: seq<T>, keep: T -> bool)
    ensures multiset(Filter(s, keep)) <= multiset(s)
  {
    if |s| > 0 {
      FilterSubMultiset(s[1..], keep);
      assert s == [s[0]] + s[1..];
    }
  }

  /** Filtering a list extended by one element extends the filtered list by
      that element exactly when it is kept. */
  lemma {:induction false} FilterAppendOne<T>(s: seq<T>, x: T, keep: T -> bool)
    ensures Filter(s + [x], keep) == Filter(s, keep) + (if keep(x) then [x] else [])
  {
    if |s| == 0 {
      assert s + [x] == [x];
      assert [x][1..] == [];
    } else {
      assert (s + [x])[1..] == s[1..] + [x];
      FilterAppendOne(s[1..], x, keep);
    }
  }

  /** Filtering a list with a first element `x`. */
  lemma FilterCons<T>(x: T, s: seq<T>, keep: T -> bool)
    ensures Filter([x] + s, keep) == (if keep(x) then [x] else []) + Filter(s, keep)
  {
    assert ([x] + s)[1..] == s;
  }

  /** Two conditions that agree on every element keep the same elements. */
  lemma {:induction false} FilterSameCondition<T>(s: seq<T>, p: T -> bool, q: T -> bool)
    requires forall i :: 0 <= i < |s| ==> p(s[i]) == q(s[i])
    ensures Filter(s, p) == Filter(s, q)
  {
    if |s| > 0 {
      FilterSameCondition(s[1..], p, q);
    }
  }

  /** Two filters applied one after the other commute. */
  lemma {:induction false} FilterCommute<T>(s: seq<T>, p: T -> bool, q: T -> bool)
    ensures Filter(Filter(s, p), q) == Filter(Filter(s, q), p)
  {
    if |s| > 0 {
      var x, t := s[0], s[1..];
      FilterCommute(t, p, q);
      assert s == [x] + t;
      FilterCons(x, t, p);
      FilterCons(x, t, q);
      if p(x) {
        FilterCons(x, Filter(t, p), q);
      }
      if q(x) {
        FilterCons(x, Filter(t, q), p);
      }
    }
  }

  /** Filtering a prefix gives a prefix of the filtered list. */
  lemma {:induction false} FilterOfPrefix<T>(s: seq<T>, m: nat, keep: T -> bool)
    requires m <= |s|
    ensures Filter(s[..m], keep) <= Filter(s, keep)
    decreases |s| - m
  {
    if m == |s| {
      assert s[..m] == s;
    } else {
      FilterOfPrefix(s, m + 1, keep);
      assert s[..m + 1] == s[..m] + [s[m]];
      FilterAppendOne(s[..m], s[m], keep);
      PrefixTransitive(Filter(s[..m], keep), Filter(s[..m + 1], keep), Filter(s, keep));
    }
  }

  lemma PrefixTransitive<T>(a: seq<T>, b: seq<T>, c: seq<T>)
    requires a <= b && b <= c
    ensures a <= c
  {
    assert a == b[..|a|] && b == c[..|b|];
    assert c[..|b|][..|a|] == c[..|a|];
  }

  /** `sum(1 for x in s if keep(x))`. */
  function Count<T>(s: seq<T>, keep: T -> bool): (n: nat)
    ensures n <= |s|
  {
    if |s| == 0 then 0
    else (if keep(s[0]) then 1 else 0) + Count(s[1..], keep)
  }

  lemma {:induction false} CountIsFilterLength<T>(s: seq<T>, keep: T -> bool)
    ensures Count(s, keep) == |Filter(s, keep)|
  {
    if |s| > 0 {
      CountIsFilterLength(s[1..], keep);
    }
  }

  function SumInt(s: seq<int>): int {
    if |s| == 0 then 0 else s[0] + SumInt(s[1..])
  }

  function SumReal(s: seq<real>): real {
    if |s| == 0 then 0.0 else s[0] + SumReal(s[1..])
  }

  /** The index `max(range(|keys|), key=...)` returns: Python's `max`
      keeps the FIRST element that attains the maximum. */
  function ArgMaxFirst(keys: seq<real>): (k: nat)
    requires |keys| > 0
    ensures k < |keys|
    ensures forall i :: 0 <= i < |keys| ==> keys[i] <= keys[k]
    ensures forall i :: 0 <= i < k ==> keys[i] < keys[k]
  {
    if |keys| == 1 then 0
    else
      var j := ArgMaxFirst(keys[..|keys| - 1]);
      if keys[|keys| - 1] > keys[j] then |keys| - 1 else j
  }
}
