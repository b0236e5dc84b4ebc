/** Order-preserving selection from sequences: the `Array.prototype.filter`
    the components apply to catalog lists. */
module Seqs {

  /** `r` can be obtained from `s` by deleting elements, keeping the order. */
  predicate Subsequence<T(==)>(r: seq<T>, s: seq<T>)
    decreases |s|
  {
    if r == [] then true
    else if s == [] then false
    else (r[0] == s[0] && Subsequence(r[1..], s[1..])) || Subsequence(r, s[1..])
  }

  /** `s.filter(p)`: the elements satisfying `p`, in their original order. */
  function Filter<T>(s: seq<T>, p: T -> bool): (r: seq<T>)
    ensures |r| <= |s|
  {
    if s == [] then []
    else if p(s[0]) then [s[0]] + Filter(s[1..], p)
    else Filter(s[1..], p)
  }

  /** What `Filter` keeps: a subsequence of `s` holding every element that
      satisfies `p` as often as `s` does, and no other element. */
  lemma {:induction false} FilterFacts<T(!new)>(s: seq<T>, p: T -> bool)
    ensures Subsequence(Filter(s, p), s)
    ensures forall x | x in Filter(s, p) :: x in s && p(x)
    ensures forall x | x in s && p(x) :: x in Filter(s, p)
    ensures forall x :: multiset(Filter(s, p))[x] == if p(x) then multiset(s)[x] else 0
    decreases |s|
  {
    if s != [] {
      FilterFacts(s[1..], p);
      assert s == [s[0]] + s[1..];
      var rest := Filter(s[1..], p);
      if p(s[0]) {
        assert Filter(s, p) == [s[0]] + rest;
        assert Filter(s, p)[1..] == rest;
      }
    }
  }

  /** Filtering distributes over concatenation. */
  lemma {:induction false} FilterAppend<T>(a: seq<T>, b: seq<T>, p: T -> bool)
    ensures Filter(a + b, p) == Filter(a, p) + Filter(b, p)
    decreases |a|
  {
    if a != [] {
      assert (a + b)[0] == a[0];
      assert (a + b)[1..] == a[1..] + b;
      FilterAppend(a[1..], b, p);
    } else {
      assert a + b == b;
    }
  }

  /** The facts `FilterFacts` states determine the filter: any subsequence of
      `s` with those element counts is the filter itself. */
  lemma {:induction false} FilterUnique<T(!new)>(s: seq<T>, p: T -> bool, r: seq<T>)
    requires Subsequence(r, s)
    requires forall x :: multiset(r)[x] == if p(x) then multiset(s)[x] else 0
    ensures r == Filter(s, p)
    decreases |s|
  {
    if s == [] {
      assert multiset(r) == multiset{};
    } else {
      assert s == [s[0]] + s[1..];
      var x := s[0];
      if r != [] && r[0] == x && Subsequence(r[1..], s[1..]) {
        assert r == [r[0]] + r[1..];
        assert p(x) by {
          assert multiset(r)[x] > 0;
        }
        FilterUnique(s[1..], p, r[1..]);
      } else {
        assert Subsequence(r, s[1..]);
        SubsequenceCount(r, s[1..], x);
        assert multiset(s)[x] == multiset(s[1..])[x] + 1;
        assert !p(x);
        FilterUnique(s[1..], p, r);
      }
    }
  }

  /** A subsequence holds each element at most as often as the whole. */
  lemma {:induction false} SubsequenceCount<T>(r: seq<T>, s: seq<T>, x: T)
    requires Subsequence(r, s)
    ensures multiset(r)[x] <= multiset(s)[x]
    decreases |s|
  {
    if r != [] {
      assert s == [s[0]] + s[1..];
      if r[0] == s[0] && Subsequence(r[1..], s[1..]) {
        assert r == [r[0]] + r[1..];
        SubsequenceCount(r[1..], s[1..], x);
      } else {
        SubsequenceCount(r, s[1..], x);
      }
    }
  }
}
