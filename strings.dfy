/** Python's comparison operators and `startswith` on `str`, over `seq<char>`.
    Python orders strings lexicographically by code point, a proper prefix first. */
module Strings {

  /** `a < b` on Python strings: a proper prefix sorts first, and a string never sorts
      before one of its own prefixes. */
  function Less(a: string, b: string): (less: bool)
    ensures a < b ==> less
    ensures b <= a ==> !less
  {
    if a == [] then b != []
    else if b == [] then false
    else if a[0] != b[0] then a[0] < b[0]
    else Less(a[1..], b[1..])
  }

  /** `a >= b` on Python strings: equal, or `b < a`. */
  function AtLeast(a: string, b: string): (atLeast: bool)
    ensures atLeast <==> a == b || Less(b, a)
  {
    LessTrichotomy(a, b);
    !Less(a, b)
  }

  /** `s.startswith(prefix)`: the first `len(prefix)` characters of `s` are `prefix`. */
  function StartsWith(s: string, prefix: string): (starts: bool)
    ensures starts <==> |prefix| <= |s| && s[..|prefix|] == prefix
  {
    prefix <= s
  }

  lemma {:induction false} LessIrreflexive(a: string)
    ensures !Less(a, a)
  {
    if a != [] {
      LessIrreflexive(a[1..]);
    }
  }

  lemma {:induction false} LessTransitive(a: string, b: string, c: string)
    requires Less(a, b) && Less(b, c)
    ensures Less(a, c)
  {
    if a != [] && a[0] == b[0] && b[0] == c[0] {
      LessTransitive(a[1..], b[1..], c[1..]);
    }
  }

  lemma {:induction false} LessAsymmetric(a: string, b: string)
    requires Less(a, b)
    ensures !Less(b, a)
  {
    if a != [] && a[0] == b[0] {
      LessAsymmetric(a[1..], b[1..]);
    }
  }

  /** Python's string order is total: two different strings are ordered one way or the other. */
  lemma {:induction false} LessTotal(a: string, b: string)
    requires a != b
    ensures Less(a, b) || Less(b, a)
  {
    if a != [] && b != [] && a[0] == b[0] {
      assert a == [a[0]] + a[1..] && b == [b[0]] + b[1..];
      LessTotal(a[1..], b[1..]);
    }
  }

  /** Exactly one of `a < b`, `a == b` and `b < a` holds. */
  lemma LessTrichotomy(a: string, b: string)
    ensures !Less(a, b) <==> a == b || Less(b, a)
  {
    if a == b {
      LessIrreflexive(a);
    } else if Less(b, a) {
      LessAsymmetric(b, a);
    } else {
      LessTotal(a, b);
    }
  }

  /** Appending anything to two strings of equal length keeps their order. */
  lemma {:induction false} LessAppend(a: string, b: string, s: string, t: string)
    requires |a| == |b| && Less(a, b)
    ensures Less(a + s, b + t)
  {
    assert (a + s)[0] == a[0] && (b + t)[0] == b[0];
    if a[0] == b[0] {
      assert (a + s)[1..] == a[1..] + s;
      assert (b + t)[1..] == b[1..] + t;
      LessAppend(a[1..], b[1..], s, t);
    }
  }
}
