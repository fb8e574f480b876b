/** The two array primitives the storefront relies on: `Array.prototype.filter`
    and the notion of an order-preserving subsequence used to specify it. */
module JsArray {

  /** `s.filter(keep)`: the elements of `s` on which `keep` holds, in their
      original order. */
  function Filter<T(==)>(s: seq<T>, keep: T -> bool): (r: seq<T>)
    ensures |r| <= |s|
    ensures forall i :: 0 <= i < |r| ==> keep(r[i])
  {
    if s == [] then []
    else
      var rest := Filter(s[1..], keep);
      if keep(s[0]) then [s[0]] + rest else rest
  }

  /** A value is in the result if and only if it is in the input and passes
      `keep`. */
  lemma {:induction false} FilterMembers<T>(s: seq<T>, keep: T -> bool, x: T)
    ensures x in Filter(s, keep) <==> x in s && keep(x)
  {
    if s != [] {
      FilterMembers(s[1..], keep, x);
      assert s == [s[0]] + s[1..];
    }
  }

  /** `r` is obtained from `s` by deleting some elements, keeping the order of
      the rest. */
  predicate IsSubsequence<T(==)>(r: seq<T>, s: seq<T>)
    decreases |s|
  {
    r == [] ||
    (s != [] && ((r[0] == s[0] && IsSubsequence(r[1..], s[1..])) || IsSubsequence(r, s[1..])))
  }

  /** Filtering never reorders: the result is a subsequence of the input. */
  lemma {:induction false} FilterIsSubsequence<T>(s: seq<T>, keep: T -> bool)
    ensures IsSubsequence(Filter(s, keep), s)
  {
    if s != [] {
      FilterIsSubsequence(s[1..], keep);
      var r := Filter(s, keep);
      if keep(s[0]) {
        assert r[0] == s[0] && r[1..] == Filter(s[1..], keep);
      }
    }
  }

  /** Filtering keeps as much as it may: every subsequence of `s` made only of
      kept elements is at most as long as `Filter(s, keep)`, and one that is as
      long is `Filter(s, keep)` itself. With FilterIsSubsequence this says that
      the filter result is exactly the order-preserving subsequence of the
      elements that pass `keep`. */
  lemma {:induction false} FilterIsLongest<T>(r: seq<T>, s: seq<T>, keep: T -> bool)
    requires IsSubsequence(r, s)
    requires forall i :: 0 <= i < |r| ==> keep(r[i])
    ensures |r| <= |Filter(s, keep)|
    ensures |r| == |Filter(s, keep)| ==> r == Filter(s, keep)
    decreases |s|
  {
    if r != [] {
      assert s != [];
      var rest := Filter(s[1..], keep);
      if r[0] == s[0] && IsSubsequence(r[1..], s[1..]) {
        FilterIsLongest(r[1..], s[1..], keep);
        assert keep(s[0]);
        assert Filter(s, keep) == [s[0]] + rest;
        assert r == [r[0]] + r[1..];
      } else {
        assert IsSubsequence(r, s[1..]);
        FilterIsLongest(r, s[1..], keep);
      }
    }
  }

  /** Every occurrence of a kept value survives, every occurrence of a dropped
      one is gone. */
  lemma {:induction false} FilterCount<T>(s: seq<T>, keep: T -> bool, x: T)
    ensures multiset(Filter(s, keep))[x] == if keep(x) then multiset(s)[x] else 0
  {
    if s != [] {
      FilterCount(s[1..], keep, x);
      assert s == [s[0]] + s[1..];
      assert multiset(s) == multiset([s[0]]) + multiset(s[1..]);
    }
  }

  /** Filtering distributes over concatenation. */
  lemma {:induction false} FilterConcat<T>(a: seq<T>, b: seq<T>, keep: T -> bool)
    ensures Filter(a + b, keep) == Filter(a, keep) + Filter(b, keep)
  {
    if a != [] {
      assert (a + b)[0] == a[0];
      assert (a + b)[1..] == a[1..] + b;
      FilterConcat(a[1..], b, keep);
    } else {
      assert a + b == b;
    }
  }

  /** A filter that keeps every element is the identity. */
  lemma {:induction false} FilterKeepsAll<T>(s: seq<T>, keep: T -> bool)
    requires forall i :: 0 <= i < |s| ==> keep(s[i])
    ensures Filter(s, keep) == s
  {
    if s != [] {
      assert keep(s[0]);
      FilterKeepsAll(s[1..], keep);
      assert s == [s[0]] + s[1..];
    }
  }
}
