/**
 * The string operations the tracker takes from JavaScript:
 * `String.prototype.trim` and the decimal rendering of a non-negative
 * integer inside a template literal.
 */
module Strings {

  /** The characters ECMAScript's `trim` removes: WhiteSpace and LineTerminator. */
  predicate IsWhitespace(c: char)
  {
    var n := c as int;
    (0x09 <= n <= 0x0D) || n == 0x20 || n == 0xA0 || n == 0x1680
    || (0x2000 <= n <= 0x200A) || n == 0x2028 || n == 0x2029 || n == 0x202F
    || n == 0x205F || n == 0x3000 || n == 0xFEFF
  }

  ghost predicate AllWhitespace(s: string)
  {
    forall i :: 0 <= i < |s| ==> IsWhitespace(s[i])
  }

  /** `r` is `s` with some whitespace taken off the front and the back. */
  ghost predicate IsTrimmedSlice(r: string, s: string)
  {
    exists k :: 0 <= k <= |s| - |r| && AllWhitespace(s[..k])
      && s[k..k + |r|] == r && AllWhitespace(s[k + |r|..])
  }

  /** The length of the whitespace run `s` starts with. */
  function LeadingWhitespace(s: string): (n: nat)
    ensures n <= |s|
    ensures AllWhitespace(s[..n])
    ensures n < |s| ==> !IsWhitespace(s[n])
  {
    if s == [] || !IsWhitespace(s[0]) then 0
    else
      var m := LeadingWhitespace(s[1..]);
      assert s[..m + 1] == [s[0]] + s[1..][..m];
      m + 1
  }

  /** The length of the whitespace run `s` ends with. */
  function TrailingWhitespace(s: string): (n: nat)
    ensures n <= |s|
    ensures AllWhitespace(s[|s| - n..])
    ensures n < |s| ==> !IsWhitespace(s[|s| - 1 - n])
  {
    if s == [] || !IsWhitespace(s[|s| - 1]) then 0
    else
      var t := s[..|s| - 1];
      var m := TrailingWhitespace(t);
      assert s[|s| - (m + 1)..] == t[|t| - m..] + [s[|s| - 1]];
      m + 1
  }

  /** `s.trim()`: `s` without its leading and trailing whitespace. */
  function Trim(s: string): (r: string)
    ensures IsTrimmedSlice(r, s)
    ensures r == [] || (!IsWhitespace(r[0]) && !IsWhitespace(r[|r| - 1]))
    ensures r == [] <==> AllWhitespace(s)
  {
    var a := LeadingWhitespace(s);
    var t := s[a..];
    var b := TrailingWhitespace(t);
    var r := t[..|t| - b];
    assert s[a..a + |r|] == r;
    assert s[a + |r|..] == t[|t| - b..];
    assert IsTrimmedSlice(r, s);
    assert a == |s| ==> s[..a] == s;
    assert a < |s| ==> r != [] && !AllWhitespace(s) by {
      if a < |s| {
        assert t[0] == s[a] && !IsWhitespace(s[a]);
      }
    }
    r
  }

  /** Trimming a trimmed string changes nothing. */
  lemma TrimIdempotent(s: string)
    ensures Trim(Trim(s)) == Trim(s)
  {
    var r := Trim(s);
    if r != [] {
      assert !IsWhitespace(r[0]) && !IsWhitespace(r[|r| - 1]);
    }
  }

  /** The number a run of decimal digits denotes, most significant first. */
  function DigitsValue(s: string): nat
    requires forall i :: 0 <= i < |s| ==> '0' <= s[i] <= '9'
  {
    if s == [] then 0
    else DigitsValue(s[..|s| - 1]) * 10 + ((s[|s| - 1] as int) - ('0' as int))
  }

  /**
   * The decimal digits of `n`, as `${n}` renders a non-negative integer:
   * digits denoting `n`, with no leading zero unless `n` is 0.
   */
  function Decimal(n: nat): (r: string)
    ensures |r| >= 1
    ensures forall i :: 0 <= i < |r| ==> '0' <= r[i] <= '9'
    ensures DigitsValue(r) == n
    ensures r[0] == '0' <==> n == 0
  {
    var d := ['0' + (n % 10) as char];
    if n < 10 then d
    else
      var p := Decimal(n / 10);
      assert (p + d)[..|p + d| - 1] == p;
      p + d
  }
}
