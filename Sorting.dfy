/** Sorting by a caller-supplied "comes no later than" relation, as Swift's
    `sort(by:)` and a fetch request's sort descriptors do. */
module Sorting {

  /** `le` is total and transitive on the elements of `s`. */
  ghost predicate TotalPreorderOn<T>(s: seq<T>, le: (T, T) -> bool) {
    && (forall a, b | a in s && b in s :: le(a, b) || le(b, a))
    && (forall a, b, c | a in s && b in s && c in s :: le(a, b) && le(b, c) ==> le(a, c))
  }

  predicate SortedBy<T>(s: seq<T>, le: (T, T) -> bool) {
    forall i, j | 0 <= i < j < |s| :: le(s[i], s[j])
  }

  /** A total preorder on a sequence is one on any sequence of its elements. */
  lemma PreorderOnPart<T>(s: seq<T>, t: seq<T>, le: (T, T) -> bool)
    requires TotalPreorderOn(s, le)
    requires forall x | x in t :: x in s
    ensures TotalPreorderOn(t, le)
  {
  }

  /** Placing `x` between the elements that come no later than it and those
      it comes no later than keeps a sequence sorted. */
  lemma InsertKeepsSorted<T>(r: seq<T>, x: T, p: nat, le: (T, T) -> bool)
    requires p <= |r| && SortedBy(r, le)
    requires forall k | 0 <= k < p :: le(r[k], x)
    requires forall k | p <= k < |r| :: le(x, r[k])
    ensures SortedBy(r[..p] + [x] + r[p..], le)
  {
    var r' := r[..p] + [x] + r[p..];
    forall a, b | 0 <= a < b < |r'|
      ensures le(r'[a], r'[b])
    {
      if b < p || a > p {
        assert r'[a] == r[if a < p then a else a - 1];
        assert r'[b] == r[if b < p then b else b - 1];
      }
    }
  }

  /** Puts `x` into the sorted `r` after every element that comes no later than it. */
  method Insert<T>(r: seq<T>, x: T, le: (T, T) -> bool) returns (r': seq<T>)
    requires TotalPreorderOn(r + [x], le)
    requires SortedBy(r, le)
    ensures multiset(r') == multiset(r) + multiset{x}
    ensures SortedBy(r', le)
  {
    var p := 0;
    while p < |r| && le(r[p], x)
      invariant 0 <= p <= |r|
      invariant forall k | 0 <= k < p :: le(r[k], x)
    {
      p := p + 1;
    }
    forall k | p <= k < |r|
      ensures le(x, r[k])
    {
      var t := r + [x];
      assert t[p] == r[p] && t[k] == r[k] && t[|r|] == x;
      assert le(r[p], r[k]) || p == k;
    }
    InsertKeepsSorted(r, x, p, le);
    r' := r[..p] + [x] + r[p..];
    assert r == r[..p] + r[p..];
  }

  /** Returns the elements of `s` rearranged so that `le` holds between any
      earlier and any later one. */
  method InsertionSort<T>(s: seq<T>, le: (T, T) -> bool) returns (r: seq<T>)
    requires TotalPreorderOn(s, le)
    ensures multiset(r) == multiset(s)
    ensures SortedBy(r, le)
  {
    r := [];
    var i := 0;
    while i < |s|
      invariant 0 <= i <= |s|
      invariant multiset(r) == multiset(s[..i])
      invariant SortedBy(r, le)
    {
      forall y | y in r + [s[i]]
        ensures y in s
      {
        if y in r {
          assert y in multiset(s[..i]);
          assert y in s[..i];
        }
      }
      PreorderOnPart(s, r + [s[i]], le);
      r := Insert(r, s[i], le);
      assert s[..i + 1] == s[..i] + [s[i]];
      i := i + 1;
    }
    assert s[..|s|] == s;
  }
}
