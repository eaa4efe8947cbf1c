/** String helpers: prefixes and suffixes, the first-dot cut, decimal formatting. */
module Text {

  predicate IsDigit(c: char) { '0' <= c <= '9' }

  predicate AllDigits(s: string) { forall k :: 0 <= k < |s| ==> IsDigit(s[k]) }

  /** `s.starts_with(p)` */
  predicate StartsWith(s: string, p: string) { |p| <= |s| && s[..|p|] == p }

  /** `s.ends_with(p)` */
  predicate EndsWith(s: string, p: string) { |p| <= |s| && s[|s| - |p|..] == p }

  /**
   * `s.split('.').next()`: the part of `s` before its first `.`, or all of
   * `s` when it has none.
   */
  function UntilFirstDot(s: string): (r: string)
    ensures r <= s
    ensures '.' !in r
    ensures |r| == |s| || s[|r|] == '.'
    ensures r == s <==> '.' !in s
  {
    if s == [] then []
    else if s[0] == '.' then []
    else [s[0]] + UntilFirstDot(s[1..])
  }

  /** A dot-free head followed by a `.` is exactly what the cut keeps. */
  lemma {:induction false} CutCompound(head: string, tail: string)
    requires '.' !in head
    ensures UntilFirstDot(head + "." + tail) == head
  {
    if head != [] {
      assert (head + "." + tail)[1..] == head[1..] + "." + tail;
      CutCompound(head[1..], tail);
    }
  }

  /** The decimal digit character for `d`. */
  function DigitChar(d: nat): (c: char)
    requires d < 10
    ensures IsDigit(c)
  {
    (48 + d) as char
  }

  /** `format!("{}", n)` for an unsigned integer: its decimal digits. */
  function NatToString(n: nat): (s: string)
    ensures |s| > 0 && AllDigits(s)
    ensures n < 10 <==> |s| == 1
  {
    if n < 10 then [DigitChar(n)] else NatToString(n / 10) + [DigitChar(n % 10)]
  }

  /** Distinct numbers print differently, so keys built from them are distinct. */
  lemma {:induction false} NatToStringInjective(a: nat, b: nat)
    requires NatToString(a) == NatToString(b)
    ensures a == b
  {
    var s := NatToString(a);
    if a >= 10 && b >= 10 {
      assert s[|s| - 1] == DigitChar(a % 10) == DigitChar(b % 10);
      assert NatToString(a / 10) == s[..|s| - 1] == NatToString(b / 10);
      NatToStringInjective(a / 10, b / 10);
    } else {
      assert a < 10 && b < 10;
      assert s[0] == DigitChar(a) == DigitChar(b);
    }
  }
}
