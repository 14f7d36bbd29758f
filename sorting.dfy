/**
 * Python's list sort is a stable sort: elements with equal keys keep their
 * relative order. `sort(key=k, reverse=True)` is the same as a stable
 * ascending sort on the negated key, so one specification serves both the
 * category distribution (descending by amount) and the monthly trend
 * (ascending by month).
 *
 * Sort is the specification (a stable insertion sort on values), the lemmas
 * state what it guarantees, and SortInPlace is the in-place algorithm on an
 * array, proved to produce exactly Sort's result.
 */
module Sorting {
  import opened Sequences

  /** Insert x after every element of t whose key is at most key(x). */
  function Insert<T>(t: seq<T>, x: T, key: T -> real): (r: seq<T>)
    ensures multiset(r) == multiset(t) + multiset{x}
    decreases |t|
  {
    if t == [] || key(t[|t| - 1]) <= key(x) then t + [x]
    else
      var t' := t[..|t| - 1];
      assert t == t' + [t[|t| - 1]];
      Insert(t', x, key) + [t[|t| - 1]]
  }

  /** The stable ascending sort of s by key. */
  function Sort<T>(s: seq<T>, key: T -> real): (r: seq<T>)
    ensures multiset(r) == multiset(s)
    decreases |s|
  {
    if s == [] then []
    else
      var s' := s[..|s| - 1];
      assert s == s' + [s[|s| - 1]];
      Insert(Sort(s', key), s[|s| - 1], key)
  }

  ghost predicate Ascending<T>(s: seq<T>, key: T -> real) {
    forall i, j :: 0 <= i < j < |s| ==> key(s[i]) <= key(s[j])
  }

  /** Sort neither adds nor drops elements. */
  lemma SortMembers<T>(s: seq<T>, key: T -> real)
    ensures forall x :: x in Sort(s, key) <==> x in s
  {
    var r := Sort(s, key);
    forall x ensures x in r <==> x in s {
      assert x in r <==> x in multiset(r);
      assert x in s <==> x in multiset(s);
    }
  }

  lemma {:induction false} InsertAscending<T>(t: seq<T>, x: T, key: T -> real)
    requires Ascending(t, key)
    ensures Ascending(Insert(t, x, key), key)
    decreases |t|
  {
    if t == [] || key(t[|t| - 1]) <= key(x) {
      var r := t + [x];
      forall i, j | 0 <= i < j < |r| ensures key(r[i]) <= key(r[j]) {
        if j == |t| {
          assert key(r[i]) <= key(t[|t| - 1]);
        }
      }
    } else {
      var last := t[|t| - 1];
      var t' := t[..|t| - 1];
      assert Ascending(t', key) by {
        assert forall i :: 0 <= i < |t'| ==> t'[i] == t[i];
      }
      InsertAscending(t', x, key);
      var r' := Insert(t', x, key);
      assert Insert(t, x, key) == r' + [last];
      forall y | y in r' ensures key(y) <= key(last) {
        assert y in multiset(r');
        if y != x {
          assert y in multiset(t');
          var k :| 0 <= k < |t'| && t'[k] == y;
          assert t[k] == y;
        }
      }
      var r := r' + [last];
      forall i, j | 0 <= i < j < |r| ensures key(r[i]) <= key(r[j]) {
        if j == |r'| {
          assert r[i] in r';
        } else {
          assert r[i] == r'[i] && r[j] == r'[j];
        }
      }
    }
  }

  /** The result of Sort is ascending by key. */
  lemma {:induction false} SortAscending<T>(s: seq<T>, key: T -> real)
    ensures Ascending(Sort(s, key), key)
    decreases |s|
  {
    if s != [] {
      SortAscending(s[..|s| - 1], key);
      InsertAscending(Sort(s[..|s| - 1], key), s[|s| - 1], key);
    }
  }

  lemma {:induction false} KeyFilterAppend<T>(s: seq<T>, x: T, key: T -> real, v: real)
    ensures KeyFilter(s + [x], key, v) == KeyFilter(s, key, v) + (if key(x) == v then [x] else [])
  {
    assert (s + [x])[..|s + [x]| - 1] == s;
  }

  lemma {:induction false} InsertStable<T>(t: seq<T>, x: T, key: T -> real, v: real)
    ensures KeyFilter(Insert(t, x, key), key, v) == KeyFilter(t, key, v) + (if key(x) == v then [x] else [])
    decreases |t|
  {
    if t == [] || key(t[|t| - 1]) <= key(x) {
      KeyFilterAppend(t, x, key, v);
    } else {
      var last := t[|t| - 1];
      var t' := t[..|t| - 1];
      var mine := if key(x) == v then [x] else [];
      var its := if key(last) == v then [last] else [];
      calc {
        KeyFilter(Insert(t, x, key), key, v);
        { assert Insert(t, x, key) == Insert(t', x, key) + [last]; }
        KeyFilter(Insert(t', x, key) + [last], key, v);
        { KeyFilterAppend(Insert(t', x, key), last, key, v); }
        KeyFilter(Insert(t', x, key), key, v) + its;
        { InsertStable(t', x, key, v); }
        KeyFilter(t', key, v) + mine + its;
        { assert mine == [] || its == []; }
        KeyFilter(t', key, v) + its + mine;
        { assert t == t' + [last]; KeyFilterAppend(t', last, key, v); }
        KeyFilter(t, key, v) + mine;
      }
    }
  }

  /**
   * Stability: the elements that share any one key value come out of Sort in
   * the order they went in.
   */
  lemma {:induction false} SortStable<T>(s: seq<T>, key: T -> real, v: real)
    ensures KeyFilter(Sort(s, key), key, v) == KeyFilter(s, key, v)
    decreases |s|
  {
    if s != [] {
      var s' := s[..|s| - 1];
      SortStable(s', key, v);
      InsertStable(Sort(s', key), s[|s| - 1], key, v);
    }
  }

  lemma {:induction false} InsertSum<T>(t: seq<T>, x: T, key: T -> real, f: T -> real)
    ensures SumOf(Insert(t, x, key), f) == SumOf(t, f) + f(x)
    decreases |t|
  {
    if t == [] || key(t[|t| - 1]) <= key(x) {
      SumOfAppend(t, [x], f);
      assert SumOf([x], f) == SumOf([], f) + f(x);
    } else {
      var last := t[|t| - 1];
      var t' := t[..|t| - 1];
      InsertSum(t', x, key, f);
      SumOfAppend(Insert(t', x, key), [last], f);
      assert SumOf([last], f) == SumOf([], f) + f(last);
    }
  }

  /** Sorting does not change a sum taken over the elements. */
  lemma {:induction false} SortSum<T>(s: seq<T>, key: T -> real, f: T -> real)
    ensures SumOf(Sort(s, key), f) == SumOf(s, f)
    decreases |s|
  {
    if s != [] {
      var s' := s[..|s| - 1];
      SortSum(s', key, f);
      InsertSum(Sort(s', key), s[|s| - 1], key, f);
    }
  }

  lemma {:induction false} InsertDistinctBy<T, U>(t: seq<T>, x: T, key: T -> real, f: T -> U)
    requires DistinctBy(t, f)
    requires forall y :: y in t ==> f(y) != f(x)
    ensures DistinctBy(Insert(t, x, key), f)
    decreases |t|
  {
    if t == [] || key(t[|t| - 1]) <= key(x) {
      AppendDistinctBy(t, x, f);
    } else {
      var last := t[|t| - 1];
      var t' := t[..|t| - 1];
      assert t == t' + [last];
      forall i, j | 0 <= i < j < |t'| ensures f(t'[i]) != f(t'[j]) {
        assert t'[i] == t[i] && t'[j] == t[j];
      }
      InsertDistinctBy(t', x, key, f);
      var r' := Insert(t', x, key);
      forall y | y in r' ensures f(y) != f(last) {
        assert y in multiset(r');
        if y != x {
          assert y in multiset(t');
          var k :| 0 <= k < |t'| && t'[k] == y;
          assert t[k] == y && t[|t| - 1] == last;
        }
      }
      AppendDistinctBy(r', last, f);
    }
  }

  /** Sorting keeps any projection that was distinct distinct. */
  lemma {:induction false} SortDistinctBy<T, U>(s: seq<T>, key: T -> real, f: T -> U)
    requires DistinctBy(s, f)
    ensures DistinctBy(Sort(s, key), f)
    decreases |s|
  {
    if s != [] {
      var s' := s[..|s| - 1];
      var x := s[|s| - 1];
      forall i, j | 0 <= i < j < |s'| ensures f(s'[i]) != f(s'[j]) {
        assert s'[i] == s[i] && s'[j] == s[j];
      }
      SortDistinctBy(s', key, f);
      forall y | y in Sort(s', key) ensures f(y) != f(x) {
        assert y in multiset(Sort(s', key));
        var k :| 0 <= k < |s'| && s'[k] == y;
        assert s[k] == y;
      }
      InsertDistinctBy(Sort(s', key), x, key, f);
    }
  }

  /**
   * Where Insert puts x: at the position j that has only keys at most key(x)
   * before it and only larger keys from it on.
   */
  lemma {:induction false} InsertAt<T>(t: seq<T>, x: T, key: T -> real, j: nat)
    requires j <= |t|
    requires j == 0 || key(t[j - 1]) <= key(x)
    requires forall k :: j <= k < |t| ==> key(x) < key(t[k])
    ensures Insert(t, x, key) == t[..j] + [x] + t[j..]
    decreases |t|
  {
    if j == |t| {
      assert t[..j] == t;
    } else {
      var t' := t[..|t| - 1];
      var last := t[|t| - 1];
      assert Insert(t', x, key) == t'[..j] + [x] + t'[j..] by {
        assert forall k :: 0 <= k < |t'| ==> t'[k] == t[k];
        InsertAt(t', x, key, j);
      }
      calc {
        Insert(t, x, key);
        { assert key(x) < key(last); }
        Insert(t', x, key) + [last];
        t'[..j] + [x] + t'[j..] + [last];
        { assert t'[..j] == t[..j] && t'[j..] + [last] == t[j..]; }
        t[..j] + [x] + t[j..];
      }
    }
  }

  /**
   * The shifting loop of one insertion step: every element of a[..i] with a
   * key larger than key(x), counted back from i, moves one place right,
   * leaving the gap at j.
   */
  method ShiftLarger<T>(a: array<T>, i: nat, x: T, key: T -> real) returns (j: nat)
    requires i < a.Length
    modifies a
    ensures j <= i
    ensures j == 0 || key(old(a[j - 1])) <= key(x)
    ensures forall k :: j <= k < i ==> key(x) < key(old(a[k]))
    ensures forall k :: 0 <= k < j ==> a[k] == old(a[k])
    ensures forall k :: j < k <= i ==> a[k] == old(a[k - 1])
    ensures forall k :: i < k < a.Length ==> a[k] == old(a[k])
  {
    j := i;
    while j > 0 && key(x) < key(a[j - 1])
      invariant j <= i
      invariant forall k :: 0 <= k < j ==> a[k] == old(a[k])
      invariant forall k :: j < k <= i ==> a[k] == old(a[k - 1])
      invariant forall k :: i < k < a.Length ==> a[k] == old(a[k])
      invariant forall k :: j <= k < i ==> key(x) < key(old(a[k]))
    {
      a[j] := a[j - 1];
      j := j - 1;
    }
  }

  /**
   * One step of insertion sort: a[i] is moved left past every element of
   * a[..i] with a larger key, so that a[..i + 1] becomes Insert(a[..i], a[i]).
   */
  method InsertInPlace<T>(a: array<T>, i: nat, key: T -> real)
    requires i < a.Length
    modifies a
    ensures a[..i + 1] == Insert(old(a[..i]), old(a[i]), key)
    ensures a[i + 1..] == old(a[i + 1..])
  {
    var x := a[i];
    ghost var sorted := a[..i];
    ghost var before := a[..];
    var j := ShiftLarger(a, i, x, key);
    a[j] := x;
    InsertAt(sorted, x, key, j);
    ghost var inserted := sorted[..j] + [x] + sorted[j..];
    forall k | 0 <= k < i + 1
      ensures a[k] == inserted[k]
    {
      if k < j {
        assert a[k] == before[k] == sorted[k];
      } else if k > j {
        assert a[k] == before[k - 1] == sorted[k - 1];
      }
    }
    assert a[..i + 1] == inserted;
    forall k | i + 1 <= k < a.Length
      ensures a[k] == before[k]
    {
    }
    assert a[i + 1..] == before[i + 1..];
  }

  lemma SortPrefix<T>(s: seq<T>, i: nat, key: T -> real)
    requires i < |s|
    ensures Sort(s[..i + 1], key) == Insert(Sort(s[..i], key), s[i], key)
  {
    assert s[..i + 1][..i] == s[..i];
  }

  /** Stable in-place insertion sort of a by key. */
  method SortInPlace<T>(a: array<T>, key: T -> real)
    modifies a
    ensures a[..] == Sort(old(a[..]), key)
  {
    ghost var orig := a[..];
    var i := 0;
    while i < a.Length
      invariant 0 <= i <= a.Length
      invariant a[..i] == Sort(orig[..i], key)
      invariant a[i..] == orig[i..]
    {
      ghost var rest := a[i..];
      assert a[i] == rest[0] == orig[i];
      InsertInPlace(a, i, key);
      SortPrefix(orig, i, key);
      assert a[..i + 1] == Sort(orig[..i + 1], key);
      assert a[i + 1..] == rest[1..] == orig[i + 1..];
      i := i + 1;
    }
    assert a[..] == a[..i];
    assert orig[..i] == orig;
  }
}
