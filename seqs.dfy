/**
 * `Array.prototype.filter`, `indexOf` and `splice` of one element, and the order-preservation
 * notion used to specify them.
 */
module Seqs {

  /** `s.filter(p)`: the elements of `s` that satisfy `p`, in their original order. */
  function Filter<T>(s: seq<T>, p: T -> bool): seq<T> {
    if s == [] then []
    else if p(s[0]) then [s[0]] + Filter(s[1..], p)
    else Filter(s[1..], p)
  }

  /** `a` is `b` with some elements dropped and the rest in their original order. */
  predicate IsSubsequence<T(==)>(a: seq<T>, b: seq<T>)
    decreases |b|
  {
    if a == [] then true
    else if b == [] then false
    else if a[0] == b[0] then IsSubsequence(a[1..], b[1..])
    else IsSubsequence(a, b[1..])
  }

  lemma {:induction false} FilterSatisfies<T>(s: seq<T>, p: T -> bool)
    ensures forall x :: x in Filter(s, p) ==> p(x)
    ensures forall i :: 0 <= i < |Filter(s, p)| ==> p(Filter(s, p)[i])
  {
    if s != [] {
      FilterSatisfies(s[1..], p);
      var f := Filter(s, p);
      forall i | 0 <= i < |f|
        ensures p(f[i])
      {
        assert f[i] in f;
      }
    }
  }

  /** What `filter` keeps: each element that satisfies `p` as often as in `s`, and nothing else. */
  lemma {:induction false} FilterMultiset<T>(s: seq<T>, p: T -> bool)
    ensures forall x :: multiset(Filter(s, p))[x] == if p(x) then multiset(s)[x] else 0
  {
    if s != [] {
      FilterMultiset(s[1..], p);
      assert s == [s[0]] + s[1..];
    }
  }

  /** `filter` keeps the relative order of what it keeps. */
  lemma {:induction false} FilterIsSubsequence<T>(s: seq<T>, p: T -> bool)
    ensures IsSubsequence(Filter(s, p), s)
  {
    if s != [] {
      FilterIsSubsequence(s[1..], p);
      var f := Filter(s[1..], p);
      if !p(s[0]) && f != [] {
        FilterSatisfies(s[1..], p);
        assert p(f[0]);
      }
    }
  }

  lemma {:induction false} FilterAllKept<T>(s: seq<T>, p: T -> bool)
    requires forall x :: x in s ==> p(x)
    ensures Filter(s, p) == s
  {
    if s != [] {
      FilterAllKept(s[1..], p);
    }
  }

  lemma {:induction false} FilterConcat<T>(a: seq<T>, b: seq<T>, p: T -> bool)
    ensures Filter(a + b, p) == Filter(a, p) + Filter(b, p)
  {
    if a == [] {
      assert a + b == b;
    } else {
      assert (a + b)[1..] == a[1..] + b;
      FilterConcat(a[1..], b, p);
    }
  }

  /** Filtering out one rejected element between two runs that pass keeps the two runs. */
  lemma FilterDropsOne<T>(a: seq<T>, x: T, b: seq<T>, p: T -> bool)
    requires forall y :: y in a ==> p(y)
    requires forall y :: y in b ==> p(y)
    requires !p(x)
    ensures Filter(a + [x] + b, p) == a + b
  {
    FilterConcat(a + [x], b, p);
    FilterConcat(a, [x], p);
    assert Filter([x], p) == [];
    FilterAllKept(a, p);
    FilterAllKept(b, p);
  }

  /** Two rearrangements of each other have the same members. */
  lemma MultisetMembers<T>(a: seq<T>, b: seq<T>)
    requires multiset(a) == multiset(b)
    ensures forall x :: x in a <==> x in b
  {
    forall x
      ensures x in a <==> x in b
    {
      assert x in a <==> x in multiset(a);
      assert x in b <==> x in multiset(b);
    }
  }

  /** `s.indexOf(x)`: the first index holding `x`, or -1. */
  function IndexOf<T(==)>(s: seq<T>, x: T): (i: int)
    ensures -1 <= i < |s|
    ensures i == -1 <==> x !in s
    ensures i >= 0 ==> s[i] == x && forall j :: 0 <= j < i ==> s[j] != x
  {
    if s == [] then -1
    else if s[0] == x then 0
    else
      var rest := IndexOf(s[1..], x);
      if rest == -1 then -1 else rest + 1
  }

  /** `s` without its first occurrence of `x` (unchanged when there is none). */
  function RemoveFirst<T(==)>(s: seq<T>, x: T): seq<T> {
    if s == [] then []
    else if s[0] == x then s[1..]
    else [s[0]] + RemoveFirst(s[1..], x)
  }

  /** Removing the first occurrence of `x`, found at `i`, is the splice of `i`. */
  lemma {:induction false} RemoveFirstAt<T>(s: seq<T>, x: T, i: nat)
    requires i < |s| && s[i] == x
    requires forall j :: 0 <= j < i ==> s[j] != x
    ensures RemoveFirst(s, x) == s[..i] + s[i + 1..]
  {
    if i > 0 {
      var tail := s[1..];
      assert s[0] != x;
      forall j | 0 <= j < i - 1
        ensures tail[j] != x
      {
        assert tail[j] == s[j + 1];
      }
      RemoveFirstAt(tail, x, i - 1);
      assert s[..i] == [s[0]] + tail[..i - 1];
      assert s[i + 1..] == tail[i..];
    }
  }

  lemma {:induction false} RemoveFirstMultiset<T>(s: seq<T>, x: T)
    requires x in s
    ensures multiset(RemoveFirst(s, x)) == multiset(s) - multiset{x}
  {
    if s[0] != x {
      RemoveFirstMultiset(s[1..], x);
      assert s == [s[0]] + s[1..];
    } else {
      assert s == [s[0]] + s[1..];
    }
  }
}
