/** The few JavaScript string operations the application relies on, with the
    semantics of the language: `String.prototype.slice` with negative and
    out-of-range indices, `indexOf` of a character, and the decimal text of an
    integer-valued `number`. Strings are sequences of `char`. */
module JsString {

  function Min(a: int, b: int): int { if a <= b then a else b }

  /** How `slice` turns one of its arguments into a position of `s`: a
      negative index counts from the end, and both ends clamp to the string. */
  function SliceIndex(i: int, len: nat): (r: nat)
    ensures r <= len
  {
    if i < 0 then (if len + i < 0 then 0 else len + i)
    else if i > len then len
    else i
  }

  /** `s.slice(begin, end)`: empty when the clamped start is not before the
      clamped end. */
  function Slice(s: string, begin: int, end: int): string
  {
    var b := SliceIndex(begin, |s|);
    var e := SliceIndex(end, |s|);
    if b < e then s[b..e] else ""
  }

  /** `s.slice(begin)`: the end defaults to the length of `s`. */
  function SliceFrom(s: string, begin: int): string
  {
    Slice(s, begin, |s|)
  }

  /** `s.slice(0, n)` for `n >= 0` is the first `min(n, |s|)` characters. */
  lemma SlicePrefix(s: string, n: nat)
    ensures Slice(s, 0, n) == s[..Min(n, |s|)]
  {
  }

  /** `s.slice(-n)` for `n > 0` is the last `min(n, |s|)` characters. */
  lemma SliceSuffix(s: string, n: int)
    requires n > 0
    ensures SliceFrom(s, -n) == s[|s| - Min(n, |s|)..]
  {
  }

  /** `s.startsWith(p)`. */
  predicate StartsWith(s: string, p: string)
  {
    |p| <= |s| && s[..|p|] == p
  }

  /** `s.indexOf(c)`: the first position of `c` in `s`, or -1. */
  function IndexOf(s: string, c: char): (r: int)
    ensures -1 <= r < |s|
    ensures r == -1 <==> c !in s
    ensures 0 <= r ==> s[r] == c && c !in s[..r]
  {
    if |s| == 0 then -1
    else if s[0] == c then 0
    else
      var k := IndexOf(s[1..], c);
      assert s[1..][..if k < 0 then 0 else k] == s[1..if k < 0 then 1 else k + 1];
      if k < 0 then -1 else k + 1
  }

  /** The character index of `c` in `s` is the length of the part before it
      whenever that part does not contain `c`. */
  lemma {:induction false} IndexOfAfter(a: string, c: char, b: string)
    requires c !in a
    ensures IndexOf(a + [c] + b, c) == |a|
  {
    if a != [] {
      assert (a + [c] + b)[1..] == a[1..] + [c] + b;
      IndexOfAfter(a[1..], c, b);
    }
  }

  function DigitChar(d: int): (r: char)
    requires 0 <= d < 10
    ensures '0' <= r <= '9'
  {
    "0123456789"[d]
  }

  /** The decimal text of a natural number, as `String(n)` gives it. */
  function NatToString(n: nat): (r: string)
    ensures |r| >= 1
    ensures forall i :: 0 <= i < |r| ==> '0' <= r[i] <= '9'
  {
    if n < 10 then [DigitChar(n)] else NatToString(n / 10) + [DigitChar(n % 10)]
  }

  /** The decimal text of an integer-valued `number`, with a leading minus
      sign when it is negative. */
  function IntToString(n: int): (r: string)
    ensures |r| >= 1
    ensures n < 0 <==> r[0] == '-'
    ensures forall i :: 0 < i < |r| ==> '0' <= r[i] <= '9'
  {
    if n < 0 then "-" + NatToString(-n) else NatToString(n)
  }
}
