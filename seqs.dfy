/**
 * The two list combinators the store's handlers are written with:
 * `Filter` (JavaScript's `Array.prototype.filter`) and `Map`
 * (`Array.prototype.map`), as functions on sequences, together with the
 * subsequence relation that describes what a filter keeps.
 */
module Seqs {

  /** The elements of `s` that satisfy `p`, in their order in `s`. */
  function Filter<T(==)>(p: T -> bool, s: seq<T>): (r: seq<T>)
    ensures |r| <= |s|
    ensures forall i :: 0 <= i < |r| ==> r[i] in s && p(r[i])
    ensures forall i :: 0 <= i < |s| && p(s[i]) ==> s[i] in r
    ensures |r| == |s| <==> forall i :: 0 <= i < |s| ==> p(s[i])
    ensures (forall i :: 0 <= i < |s| ==> p(s[i])) ==> r == s
    ensures SubsequenceOf(r, s)
  {
    if s == [] then []
    else if p(s[0]) then
      var rest := Filter(p, s[1..]);
      assert ([s[0]] + rest)[1..] == rest;
      [s[0]] + rest
    else Filter(p, s[1..])
  }

  /** `f` applied to each element of `s`. */
  function Map<T, U>(f: T -> U, s: seq<T>): (r: seq<U>)
    ensures |r| == |s|
    ensures forall i :: 0 <= i < |s| ==> r[i] == f(s[i])
  {
    if s == [] then [] else [f(s[0])] + Map(f, s[1..])
  }

  /** `r` can be obtained from `s` by deleting elements: `r`'s elements occur in `s` in the same order. */
  predicate SubsequenceOf<T(==)>(r: seq<T>, s: seq<T>)
    decreases |s|
  {
    if r == [] then true
    else if s == [] then false
    else if r[0] == s[0] then SubsequenceOf(r[1..], s[1..])
    else SubsequenceOf(r, s[1..])
  }

  /** Filtering a concatenation filters each part. */
  lemma {:induction false} FilterAppend<T>(p: T -> bool, a: seq<T>, b: seq<T>)
    ensures Filter(p, a + b) == Filter(p, a) + Filter(p, b)
  {
    if a == [] {
      assert a + b == b;
    } else {
      assert (a + b)[0] == a[0];
      assert (a + b)[1..] == a[1..] + b;
      FilterAppend(p, a[1..], b);
    }
  }

  /**
   * A filter keeps every copy of an element that passes and no copy of one
   * that fails: the multiplicities, not only membership, are fixed.
   */
  lemma {:induction false} FilterMultiset<T>(p: T -> bool, s: seq<T>)
    ensures forall x :: multiset(Filter(p, s))[x] == if p(x) then multiset(s)[x] else 0
    ensures multiset(Filter(p, s)) <= multiset(s)
  {
    if s != [] {
      var tail := s[1..];
      FilterMultiset(p, tail);
      var kept := FilterHead(p, s);
      assert multiset(s) == multiset{s[0]} + multiset(tail) by {
        assert s == [s[0]] + tail;
      }
      forall x
        ensures multiset(Filter(p, s))[x] == if p(x) then multiset(s)[x] else 0
      {
        assert multiset(Filter(p, s))[x] == kept[x] + multiset(Filter(p, tail))[x];
      }
    }
  }

  /** One step of the filter: what it keeps of the head, in front of the filtered tail. */
  lemma FilterHead<T>(p: T -> bool, s: seq<T>) returns (kept: multiset<T>)
    requires s != []
    ensures kept == if p(s[0]) then multiset{s[0]} else multiset{}
    ensures multiset(Filter(p, s)) == kept + multiset(Filter(p, s[1..]))
  {
    kept := if p(s[0]) then multiset{s[0]} else multiset{};
    if p(s[0]) {
      assert Filter(p, s) == [s[0]] + Filter(p, s[1..]);
    }
  }
}
