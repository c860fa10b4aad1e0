/**
 * The two array operations the store's queries are built from, `filter` and
 * `map`, as functions on sequences, with what makes a filter result unique.
 */
module Seqs {

  /** `r` is `s` with zero or more elements deleted, the rest kept in order. */
  ghost predicate IsSubsequence<T>(r: seq<T>, s: seq<T>)
    decreases |s|
  {
    r == [] || (s != [] && ((r[0] == s[0] && IsSubsequence(r[1..], s[1..])) || IsSubsequence(r, s[1..])))
  }

  /**
   * The elements of `s` that satisfy `p`, in their order in `s` and with their
   * multiplicity in `s` (`Array.prototype.filter`).
   */
  function Filter<T(==,!new)>(s: seq<T>, p: T -> bool): (r: seq<T>)
    ensures |r| <= |s|
    ensures forall i :: 0 <= i < |r| ==> p(r[i])
    ensures IsSubsequence(r, s)
  {
    if s == [] then []
    else
      var rest := Filter(s[1..], p);
      if p(s[0]) then
        assert ([s[0]] + rest)[1..] == rest;
        [s[0]] + rest
      else
        rest
  }

  /** `Filter` keeps each selected element exactly as often as it occurs, and no other element. */
  lemma {:induction false} FilterMultiplicity<T(!new)>(s: seq<T>, p: T -> bool)
    ensures forall x :: multiset(Filter(s, p))[x] == if p(x) then multiset(s)[x] else 0
    ensures forall x :: x in Filter(s, p) <==> x in s && p(x)
  {
    if s != [] {
      FilterMultiplicity(s[1..], p);
      assert s == [s[0]] + s[1..];
    }
  }

  /** `f` applied to every element of `s` (`Array.prototype.map`). */
  function Map<T, U>(s: seq<T>, f: T -> U): (r: seq<U>)
    ensures |r| == |s|
    ensures forall i :: 0 <= i < |s| ==> r[i] == f(s[i])
  {
    seq(|s|, i requires 0 <= i < |s| => f(s[i]))
  }

  /** Filtering distributes over concatenation: appending to a list appends to each filtered view. */
  lemma {:induction false} FilterAppend<T(!new)>(s: seq<T>, t: seq<T>, p: T -> bool)
    ensures Filter(s + t, p) == Filter(s, p) + Filter(t, p)
  {
    if s == [] {
      assert s + t == t;
    } else {
      assert (s + t)[0] == s[0];
      assert (s + t)[1..] == s[1..] + t;
      FilterAppend(s[1..], t, p);
    }
  }

  /** A subsequence never holds an element more often than the sequence it was taken from. */
  lemma {:induction false} SubsequenceMultiset<T>(r: seq<T>, s: seq<T>)
    requires IsSubsequence(r, s)
    ensures multiset(r) <= multiset(s)
    decreases |s|
  {
    if r != [] {
      assert s == [s[0]] + s[1..];
      if r[0] == s[0] && IsSubsequence(r[1..], s[1..]) {
        SubsequenceMultiset(r[1..], s[1..]);
        assert r == [r[0]] + r[1..];
      } else {
        SubsequenceMultiset(r, s[1..]);
      }
    }
  }

  /**
   * The contract of Filter determines its result: the only subsequence of `s`
   * holding each element satisfying `p` exactly as often as `s` does, and no
   * other element, is `Filter(s, p)`.
   */
  lemma {:induction false} FilterUnique<T(!new)>(s: seq<T>, p: T -> bool, r: seq<T>)
    requires IsSubsequence(r, s)
    requires forall x :: multiset(r)[x] == if p(x) then multiset(s)[x] else 0
    ensures r == Filter(s, p)
    decreases |s|
  {
    if s != [] {
      var h, t := s[0], s[1..];
      assert s == [h] + t;
      if r != [] {
        assert r == [r[0]] + r[1..];
        assert r[0] in multiset(r);
      }
      if p(h) {
        assert multiset(r)[h] == multiset(t)[h] + 1;
        if IsSubsequence(r, t) {
          SubsequenceMultiset(r, t);
          assert false;
        }
        assert r[0] == h && IsSubsequence(r[1..], t);
        forall x
          ensures multiset(r[1..])[x] == if p(x) then multiset(t)[x] else 0
        {
          assert multiset(r) == multiset{h} + multiset(r[1..]);
        }
        FilterUnique(t, p, r[1..]);
      } else {
        if r != [] && r[0] == h {
          assert false;
        }
        assert IsSubsequence(r, t);
        forall x
          ensures multiset(r)[x] == if p(x) then multiset(t)[x] else 0
        {
          assert multiset(s) == multiset{h} + multiset(t);
        }
        FilterUnique(t, p, r);
      }
    }
  }

  /** Filtering commutes with a map that never changes whether an element is selected. */
  lemma {:induction false} FilterMapCommute<T(!new)>(s: seq<T>, f: T -> T, p: T -> bool)
    requires forall x :: p(f(x)) == p(x)
    ensures Filter(Map(s, f), p) == Map(Filter(s, p), f)
  {
    if s != [] {
      var m := Map(s, f);
      assert m[0] == f(s[0]);
      assert m[1..] == Map(s[1..], f);
      FilterMapCommute(s[1..], f, p);
      var rest := Filter(s[1..], p);
      assert Map([s[0]] + rest, f) == [f(s[0])] + Map(rest, f);
    }
  }
}
