/**
 * Order-preserving `Array.prototype.filter` and `Array.prototype.map`
 * over sequences.
 */
module Seqs {

  /** The elements of `s` that satisfy `p`, in their order in `s`. */
  function Filter<T>(p: T -> bool, s: seq<T>): (r: seq<T>)
    ensures |r| <= |s|
    ensures forall i :: 0 <= i < |r| ==> r[i] in s && p(r[i])
    ensures forall i :: 0 <= i < |s| && p(s[i]) ==> s[i] in r
  {
    if s == [] then []
    else (if p(s[0]) then [s[0]] else []) + Filter(p, s[1..])
  }

  /** Filtering distributes over concatenation: kept elements stay in order. */
  lemma {:induction false} FilterAppend<T>(p: T -> bool, a: seq<T>, b: seq<T>)
    ensures Filter(p, a + b) == Filter(p, a) + Filter(p, b)
  {
    if a != [] {
      assert (a + b)[1..] == a[1..] + b;
      FilterAppend(p, a[1..], b);
    } else {
      assert a + b == b;
    }
  }

  /** Filtering by `p` and by its negation splits `s`: every element lands in exactly one. */
  lemma {:induction false} FilterSplit<T>(p: T -> bool, q: T -> bool, s: seq<T>)
    requires forall x :: q(x) == !p(x)
    ensures multiset(Filter(p, s)) + multiset(Filter(q, s)) == multiset(s)
    ensures |Filter(p, s)| + |Filter(q, s)| == |s|
  {
    if s != [] {
      FilterSplit(p, q, s[1..]);
      assert s == [s[0]] + s[1..];
      assert multiset(s) == multiset([s[0]]) + multiset(s[1..]);
    }
  }

  /** Filtering twice is filtering once by the conjunction. */
  lemma {:induction false} FilterFilter<T>(p: T -> bool, q: T -> bool, pq: T -> bool, s: seq<T>)
    requires forall x :: pq(x) == (p(x) && q(x))
    ensures Filter(q, Filter(p, s)) == Filter(pq, s)
  {
    if s != [] {
      FilterFilter(p, q, pq, s[1..]);
      FilterAppend(q, if p(s[0]) then [s[0]] else [], Filter(p, s[1..]));
    }
  }

  /** `f` applied to each element of `s`, in order. */
  function Map<T, U>(f: T -> U, s: seq<T>): (r: seq<U>)
    ensures |r| == |s|
    ensures forall i :: 0 <= i < |s| ==> r[i] == f(s[i])
  {
    if s == [] then [] else [f(s[0])] + Map(f, s[1..])
  }

  /** Mapping distributes over concatenation. */
  lemma MapAppend<T, U>(f: T -> U, a: seq<T>, b: seq<T>)
    ensures Map(f, a + b) == Map(f, a) + Map(f, b)
  {
    assert |Map(f, a + b)| == |Map(f, a) + Map(f, b)|;
    forall i | 0 <= i < |a + b|
      ensures Map(f, a + b)[i] == (Map(f, a) + Map(f, b))[i]
    {
      if i >= |a| {
        assert (a + b)[i] == b[i - |a|];
      }
    }
  }
}
