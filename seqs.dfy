/** Order-preserving filtering of sequences (`list comprehension with if`
    in Python, `Array.prototype.filter` in JavaScript). */
module Seqs {

  /** The elements of `s` that satisfy `p`, in their original order. */
  function Filter<T>(p: T -> bool, s: seq<T>): (r: seq<T>)
    ensures |r| <= |s|
  {
    if s == [] then [] else (if p(s[0]) then [s[0]] else []) + Filter(p, s[1..])
  }

  /** The filter keeps exactly the elements that satisfy `p`. */
  lemma {:induction false} FilterMembers<T>(p: T -> bool, s: seq<T>)
    ensures forall i :: 0 <= i < |Filter(p, s)| ==> Filter(p, s)[i] in s && p(Filter(p, s)[i])
    ensures forall i :: 0 <= i < |s| && p(s[i]) ==> s[i] in Filter(p, s)
  {
    if s != [] {
      FilterMembers(p, s[1..]);
      var r, t := Filter(p, s), Filter(p, s[1..]);
      assert s == [s[0]] + s[1..];
      if p(s[0]) {
        assert r == [s[0]] + t;
      } else {
        assert r == t;
      }
      forall i | 1 <= i < |s| && p(s[i])
        ensures s[i] in r
      {
        assert s[i] == s[1..][i - 1];
      }
    }
  }

  /** The filter keeps every occurrence of an element that satisfies `p`
      and none of one that does not. */
  lemma {:induction false} FilterCount<T>(p: T -> bool, s: seq<T>)
    ensures forall t :: multiset(Filter(p, s))[t] == if p(t) then multiset(s)[t] else 0
  {
    if s != [] {
      FilterCount(p, s[1..]);
      assert s == [s[0]] + s[1..];
      assert multiset(s) == multiset{s[0]} + multiset(s[1..]);
      if p(s[0]) {
        assert multiset(Filter(p, s)) == multiset{s[0]} + multiset(Filter(p, s[1..]));
      } else {
        assert Filter(p, s) == Filter(p, s[1..]);
      }
    }
  }

  /** `a` can be obtained from `b` by deleting elements, so `a` keeps the
      relative order its elements have in `b`. */
  ghost predicate IsSubsequence<T>(a: seq<T>, b: seq<T>)
    decreases |b|
  {
    a == [] || (b != [] && ((a[0] == b[0] && IsSubsequence(a[1..], b[1..])) || IsSubsequence(a, b[1..])))
  }

  lemma {:induction false} FilterIsSubsequence<T>(p: T -> bool, s: seq<T>)
    ensures IsSubsequence(Filter(p, s), s)
  {
    if s != [] {
      FilterIsSubsequence(p, s[1..]);
      var r := Filter(p, s);
      if p(s[0]) {
        assert r[0] == s[0] && r[1..] == Filter(p, s[1..]);
      } else {
        assert r == Filter(p, s[1..]);
      }
    }
  }

  /** A subsequence holds no element more often than the sequence it is
      taken from. */
  lemma {:induction false} SubsequenceMultiset<T>(a: seq<T>, b: seq<T>)
    requires IsSubsequence(a, b)
    ensures multiset(a) <= multiset(b)
    decreases |b|
  {
    if a != [] {
      assert b == [b[0]] + b[1..];
      if a[0] == b[0] && IsSubsequence(a[1..], b[1..]) {
        SubsequenceMultiset(a[1..], b[1..]);
        assert a == [a[0]] + a[1..];
      } else {
        SubsequenceMultiset(a, b[1..]);
      }
    }
  }

  /** The filter is the only subsequence of `s` that keeps every occurrence
      of the elements satisfying `p` and none of the others. */
  lemma {:induction false} FilterUnique<T>(p: T -> bool, s: seq<T>, a: seq<T>)
    requires IsSubsequence(a, s)
    requires forall t :: multiset(a)[t] == if p(t) then multiset(s)[t] else 0
    ensures a == Filter(p, s)
    decreases |s|
  {
    if s == [] {
      assert a == [];
    } else {
      var x, rest := s[0], s[1..];
      assert s == [x] + rest;
      assert multiset(s) == multiset{x} + multiset(rest);
      if a != [] && a[0] == x && IsSubsequence(a[1..], rest) {
        assert a == [a[0]] + a[1..];
        assert multiset(a) == multiset{x} + multiset(a[1..]);
        assert p(x) by {
          assert multiset(a)[x] > 0;
        }
        forall t
          ensures multiset(a[1..])[t] == if p(t) then multiset(rest)[t] else 0
        {
          assert multiset(a)[t] == multiset{x}[t] + multiset(a[1..])[t];
          assert multiset(s)[t] == multiset{x}[t] + multiset(rest)[t];
        }
        FilterUnique(p, rest, a[1..]);
      } else {
        assert IsSubsequence(a, rest);
        SubsequenceMultiset(a, rest);
        if p(x) {
          assert false;
        }
        forall t
          ensures multiset(a)[t] == if p(t) then multiset(rest)[t] else 0
        {
          if p(t) {
            assert t != x;
            assert multiset(s)[t] == multiset{x}[t] + multiset(rest)[t];
          }
        }
        FilterUnique(p, rest, a);
        assert Filter(p, s) == Filter(p, rest);
      }
    }
  }

  lemma {:induction false} FilterIdempotent<T>(p: T -> bool, s: seq<T>)
    ensures Filter(p, Filter(p, s)) == Filter(p, s)
  {
    if s != [] {
      FilterIdempotent(p, s[1..]);
      var t := Filter(p, s[1..]);
      if p(s[0]) {
        var r := [s[0]] + t;
        assert Filter(p, s) == r;
        assert r[0] == s[0] && r[1..] == t;
        assert Filter(p, r) == [r[0]] + Filter(p, r[1..]);
      } else {
        assert Filter(p, s) == [] + t == t;
      }
    }
  }
}
