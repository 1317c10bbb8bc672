/**
 * The two stream pipelines the simulation domain uses, on immutable sequences:
 * `filter` (followed by `count`) and `map` (followed by `collect`).
 */
module Streams {

  /** The elements of `s` that satisfy `keep`, in their original order. */
  function Filter<T>(s: seq<T>, keep: T -> bool): (r: seq<T>)
    ensures |r| <= |s|
    ensures forall x :: x in r ==> x in s && keep(x)
    ensures forall i :: 0 <= i < |s| && keep(s[i]) ==> s[i] in r
    ensures multiset(r) <= multiset(s)
  {
    if s == [] then []
    else
      assert s == [s[0]] + s[1..];
      if keep(s[0]) then [s[0]] + Filter(s[1..], keep)
      else Filter(s[1..], keep)
  }

  /**
   * Filtering keeps the order of the input: filtering a concatenation is
   * filtering each part and concatenating the results.
   */
  lemma {:induction false} FilterAppend<T>(a: seq<T>, b: seq<T>, keep: T -> bool)
    ensures Filter(a + b, keep) == Filter(a, keep) + Filter(b, keep)
  {
    if a != [] {
      FilterAppend(a[1..], b, keep);
      assert (a + b)[0] == a[0];
      assert (a + b)[1..] == a[1..] + b;
    } else {
      assert a + b == b;
    }
  }

  /**
   * A filter drops nothing exactly when every element satisfies the predicate,
   * and a filter that drops nothing returns its input unchanged.
   */
  lemma {:induction false} FilterKeepsAll<T>(s: seq<T>, keep: T -> bool)
    ensures |Filter(s, keep)| == |s| <==> forall i :: 0 <= i < |s| ==> keep(s[i])
    ensures |Filter(s, keep)| == |s| ==> Filter(s, keep) == s
  {
    if s != [] {
      var rest := s[1..];
      FilterKeepsAll(rest, keep);
      assert forall i :: 1 <= i < |s| ==> s[i] == rest[i - 1];
      if keep(s[0]) {
        assert s == [s[0]] + rest;
      } else {
        assert !keep(s[0]);
      }
    }
  }

  /** `apply` applied to each element of `s`, in order. */
  function MapSeq<T, U>(s: seq<T>, apply: T -> U): (r: seq<U>)
    ensures |r| == |s|
    ensures forall i :: 0 <= i < |s| ==> r[i] == apply(s[i])
  {
    if s == [] then [] else [apply(s[0])] + MapSeq(s[1..], apply)
  }
}
