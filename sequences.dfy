/**
 * Small facts about sequences shared by the rest of the model: a sum over a
 * projection, a filter by key, and "no two elements share a projection".
 */
module Sequences {

  /** The sum of f over s, accumulated left to right as Python's sum() does. */
  function SumOf<T>(s: seq<T>, f: T -> real): real
    decreases |s|
  {
    if s == [] then 0.0 else SumOf(s[..|s| - 1], f) + f(s[|s| - 1])
  }

  lemma {:induction false} SumOfAppend<T>(a: seq<T>, b: seq<T>, f: T -> real)
    ensures SumOf(a + b, f) == SumOf(a, f) + SumOf(b, f)
    decreases |b|
  {
    if b == [] {
      assert a + b == a;
    } else {
      var b' := b[..|b| - 1];
      assert (a + b)[..|a + b| - 1] == a + b';
      SumOfAppend(a, b', f);
    }
  }

  lemma {:induction false} SumOfNonNegative<T>(s: seq<T>, f: T -> real)
    ensures (forall i :: 0 <= i < |s| ==> f(s[i]) >= 0.0) ==> SumOf(s, f) >= 0.0
    decreases |s|
  {
    if s != [] && forall i :: 0 <= i < |s| ==> f(s[i]) >= 0.0 {
      var s' := s[..|s| - 1];
      assert forall i :: 0 <= i < |s'| ==> s'[i] == s[i];
      SumOfNonNegative(s', f);
    }
  }

  /** The elements of s whose key is v, in their order in s. */
  function KeyFilter<T>(s: seq<T>, key: T -> real, v: real): seq<T>
    decreases |s|
  {
    if s == [] then []
    else KeyFilter(s[..|s| - 1], key, v) + (if key(s[|s| - 1]) == v then [s[|s| - 1]] else [])
  }

  /** No two positions of s carry the same projection. */
  ghost predicate DistinctBy<T, U>(s: seq<T>, f: T -> U) {
    forall i, j :: 0 <= i < j < |s| ==> f(s[i]) != f(s[j])
  }

  /** No element of s occurs twice: DistinctBy with the identity projection, kept for sequences of keys. */
  ghost predicate Distinct<T>(s: seq<T>) {
    forall i, j :: 0 <= i < j < |s| ==> s[i] != s[j]
  }

  /** Appending an element whose projection is new keeps DistinctBy. */
  lemma AppendDistinctBy<T, U>(s: seq<T>, x: T, f: T -> U)
    requires DistinctBy(s, f)
    requires forall y :: y in s ==> f(y) != f(x)
    ensures DistinctBy(s + [x], f)
  {
    var r := s + [x];
    forall i, j | 0 <= i < j < |r| ensures f(r[i]) != f(r[j]) {
      if j == |s| {
        assert r[i] in s;
      } else {
        assert r[i] == s[i] && r[j] == s[j];
      }
    }
  }
}
