/** Python list slicing and list comprehensions with an `if` clause, over sequences. */
module Seqs {

  /** `s[lo:hi]` for non-negative bounds: an end past the length is clamped, an empty range gives []. */
  function Slice<T>(s: seq<T>, lo: nat, hi: nat): (r: seq<T>)
    ensures lo <= hi <= |s| ==> r == s[lo..hi]
    ensures lo <= |s| < hi ==> r == s[lo..]
    ensures hi <= lo || |s| <= lo ==> r == []
  {
    var end := if hi <= |s| then hi else |s|;
    if lo < end then s[lo..end] else []
  }

  /** `[x for x in s if p(x)]`. */
  function Filter<T(!new)>(s: seq<T>, p: T -> bool): (r: seq<T>)
    ensures |r| <= |s|
    ensures forall x :: x in r <==> x in s && p(x)
  {
    if s == [] then []
    else (if p(s[0]) then [s[0]] else []) + Filter(s[1..], p)
  }

  lemma {:induction false} FilterAppend<T(!new)>(a: seq<T>, b: seq<T>, p: T -> bool)
    ensures Filter(a + b, p) == Filter(a, p) + Filter(b, p)
  {
    if a == [] {
      assert a + b == b;
    } else {
      assert (a + b)[0] == a[0];
      assert (a + b)[1..] == a[1..] + b;
      FilterAppend(a[1..], b, p);
    }
  }

  /** The comprehension over `[x] + s` decides `x` first. */
  lemma FilterCons<T(!new)>(x: T, s: seq<T>, p: T -> bool)
    ensures Filter([x] + s, p) == (if p(x) then [x] else []) + Filter(s, p)
  {
    assert ([x] + s)[0] == x;
    assert ([x] + s)[1..] == s;
  }

  /** Putting the same element in front of both sides keeps a comprehension identity. */
  lemma FilterConsBoth<T(!new)>(y: T, a: seq<T>, b: seq<T>, c: seq<T>, p: T -> bool)
    requires Filter(b, p) == Filter(a, p) + Filter(c, p)
    ensures Filter([y] + b, p) == Filter([y] + a, p) + Filter(c, p)
  {
    var head: seq<T> := if p(y) then [y] else [];
    FilterCons(y, b, p);
    FilterCons(y, a, p);
    ConcatAssoc(head, Filter(a, p), Filter(c, p));
  }

  /** `s[k:][:n]` is the run of `s` from `k` holding `n` elements, or all that remain. */
  lemma SliceOfSuffix<T>(s: seq<T>, k: nat, n: nat)
    requires k <= |s|
    ensures var w := Slice(s[k..], 0, n);
      && k + |w| <= |s|
      && w == s[k..k + |w|]
      && (|w| == n || k + |w| == |s|)
  {
  }

  lemma PrefixMembers<T>(a: seq<T>, b: seq<T>)
    requires a <= b
    ensures forall x :: x in a ==> x in b
  {
    forall x | x in a ensures x in b {
      var i :| 0 <= i < |a| && a[i] == x;
      assert b[i] == x;
    }
  }

  /** Filtering a prefix gives a prefix of the filtered whole. */
  lemma FilterPrefix<T(!new)>(s: seq<T>, k: nat, p: T -> bool)
    requires k <= |s|
    ensures Filter(s[..k], p) <= Filter(s, p)
  {
    assert s == s[..k] + s[k..];
    FilterAppend(s[..k], s[k..], p);
    PrefixOfConcat(Filter(s[..k], p), Filter(s[k..], p));
  }

  // The next three facts Dafny proves unaided; they are stated once so that callers can
  // use them without the sequence and multiset axioms of their own proof context.

  lemma MultisetCancel<T>(a: multiset<T>, b: multiset<T>)
    ensures (a + b) - a == b
  {
  }

  lemma PrefixOfConcat<T>(a: seq<T>, b: seq<T>)
    ensures a <= a + b
  {
  }

  lemma ConcatAssoc<T>(a: seq<T>, b: seq<T>, c: seq<T>)
    ensures a + (b + c) == (a + b) + c
  {
  }

  /** A comprehension whose condition holds throughout keeps everything. */
  lemma {:induction false} FilterAll<T(!new)>(s: seq<T>, p: T -> bool)
    requires forall i :: 0 <= i < |s| ==> p(s[i])
    ensures Filter(s, p) == s
  {
    if s != [] {
      assert p(s[0]);
      FilterAll(s[1..], p);
    }
  }

  /** `a` is `b` with some elements left out, the rest in their original order. */
  predicate IsSubsequence<T(==)>(a: seq<T>, b: seq<T>)
    decreases |b|
  {
    |a| <= |b| &&
    (a == [] || (a[0] == b[0] && IsSubsequence(a[1..], b[1..])) || IsSubsequence(a, b[1..]))
  }

  lemma {:induction false} FilterIsSubsequence<T(!new)>(s: seq<T>, p: T -> bool)
    ensures IsSubsequence(Filter(s, p), s)
  {
    if s != [] {
      FilterIsSubsequence(s[1..], p);
      if p(s[0]) {
        assert Filter(s, p)[1..] == Filter(s[1..], p);
      } else {
        assert Filter(s, p) == Filter(s[1..], p);
      }
    }
  }
}
