/**
  The few pieces of Python's string behaviour the modelled code relies on:
  `p in s`, `s.find(p)` and `str(n)` for integers.
 */
module Strings {

  predicate StartsWith(s: string, p: string) {
    |p| <= |s| && s[..|p|] == p
  }

  /** `p` occurs in `s` starting at index `i`. */
  predicate OccursAt(s: string, p: string, i: int) {
    0 <= i && i + |p| <= |s| && s[i..i + |p|] == p
  }

  lemma OccursAtShift(s: string, p: string)
    requires |s| > 0
    ensures forall i {:trigger OccursAt(s, p, i)} :: 1 <= i ==> (OccursAt(s, p, i) <==> OccursAt(s[1..], p, i - 1))
  {
    forall i | 1 <= i
      ensures OccursAt(s, p, i) <==> OccursAt(s[1..], p, i - 1)
    {
      if i + |p| <= |s| {
        var a, b := s[i..i + |p|], s[1..][i - 1..i - 1 + |p|];
        assert |a| == |b| && forall j :: 0 <= j < |a| ==> a[j] == s[i + j] == b[j];
        assert a == b;
      }
    }
  }

  /** Python's `s.find(p)`: the lowest index at which `p` occurs, or -1. */
  function Find(s: string, p: string): (r: int)
    ensures -1 <= r <= |s|
    ensures r == -1 <==> forall i :: !OccursAt(s, p, i)
    ensures r >= 0 ==> OccursAt(s, p, r) && forall i :: 0 <= i < r ==> !OccursAt(s, p, i)
    decreases |s|
  {
    if StartsWith(s, p) then
      assert OccursAt(s, p, 0);
      0
    else if |s| == 0 then
      assert forall i :: OccursAt(s, p, i) ==> i == 0;
      -1
    else
      var k := Find(s[1..], p);
      OccursAtShift(s, p);
      assert !OccursAt(s, p, 0);
      if k < 0 then -1 else assert OccursAt(s, p, k + 1); k + 1
  }

  /** Python's `p in s` for two strings. */
  function Contains(s: string, p: string): (r: bool)
    ensures r <==> exists i :: OccursAt(s, p, i)
  {
    Find(s, p) >= 0
  }

  predicate IsDigit(c: char) {
    '0' <= c <= '9'
  }

  function DigitChar(d: nat): (c: char)
    requires d < 10
    ensures IsDigit(c)
  {
    (('0' as int) + d) as char
  }

  function DigitValue(c: char): (d: nat)
    requires IsDigit(c)
    ensures d < 10
  {
    (c as int) - ('0' as int)
  }

  /** Python's `str(n)` for a non-negative integer: its decimal digits. */
  function NatToString(n: nat): (r: string)
    ensures |r| >= 1
    ensures forall i :: 0 <= i < |r| ==> IsDigit(r[i])
    decreases n
  {
    if n < 10 then [DigitChar(n)] else NatToString(n / 10) + [DigitChar(n % 10)]
  }

  /** The number a string of decimal digits denotes. */
  function DecimalValue(s: string): nat
    requires forall i :: 0 <= i < |s| ==> IsDigit(s[i])
  {
    if |s| == 0 then 0 else 10 * DecimalValue(s[..|s| - 1]) + DigitValue(s[|s| - 1])
  }

  /** Reading the decimal digits back gives the number: `int(str(n)) == n`. */
  lemma {:induction false} DecimalRoundTrip(n: nat)
    ensures DecimalValue(NatToString(n)) == n
    decreases n
  {
    var r := NatToString(n);
    if n >= 10 {
      DecimalRoundTrip(n / 10);
      assert r[..|r| - 1] == NatToString(n / 10);
    }
  }

  /** Different numbers print differently. */
  lemma NatToStringInjective(a: nat, b: nat)
    ensures NatToString(a) == NatToString(b) ==> a == b
  {
    DecimalRoundTrip(a);
    DecimalRoundTrip(b);
  }

  /** Python's `str(i)` (and `'{}'.format(i)`) for any integer. */
  function IntToString(i: int): (r: string)
    ensures i >= 0 ==> r == NatToString(i)
    ensures i < 0 ==> r == "-" + NatToString(-i)
    ensures forall j :: 0 <= j < |r| ==> r[j] == '-' || IsDigit(r[j])
  {
    if i < 0 then "-" + NatToString(-i) else NatToString(i)
  }

  /** Different integers print differently. */
  lemma IntToStringInjective(a: int, b: int)
    ensures IntToString(a) == IntToString(b) ==> a == b
  {
    assert a < 0 <==> IntToString(a)[0] == '-';
    assert b < 0 <==> IntToString(b)[0] == '-';
    if IntToString(a) == IntToString(b) {
      if a >= 0 && b >= 0 {
        NatToStringInjective(a, b);
      } else if a < 0 && b < 0 {
        PrefixCancel("-", NatToString(-a), NatToString(-b));
        NatToStringInjective(-a, -b);
      }
    }
  }

  /** A sign or a decimal digit, the characters `str` of an integer is made of. */
  predicate IsNumeral(c: char) {
    c == '-' || IsDigit(c)
  }

  /** The length of the run of signs and digits `s` starts with. */
  function NumeralLength(s: string): (r: nat)
    ensures r <= |s|
  {
    if |s| > 0 && IsNumeral(s[0]) then 1 + NumeralLength(s[1..]) else 0
  }

  /** Where a number's text is followed by text starting otherwise, the run of signs and digits is exactly the number's text. */
  lemma {:induction false} NumeralLengthOf(a: string, x: string)
    requires forall j :: 0 <= j < |a| ==> IsNumeral(a[j])
    requires |x| > 0 && !IsNumeral(x[0])
    ensures NumeralLength(a + x) == |a|
    decreases |a|
  {
    if |a| > 0 {
      assert (a + x)[1..] == a[1..] + x;
      NumeralLengthOf(a[1..], x);
    } else {
      assert a + x == x;
    }
  }

  /**
    Reading a number back out of a text: after a common prefix, a number's
    text followed by text starting with neither a sign nor a digit is
    determined by the whole, and so is what follows it.
   */
  lemma ReadNumeral(p: string, a: string, x: string, b: string, y: string)
    requires forall j :: 0 <= j < |a| ==> IsNumeral(a[j])
    requires forall j :: 0 <= j < |b| ==> IsNumeral(b[j])
    requires |x| > 0 && !IsNumeral(x[0]) && |y| > 0 && !IsNumeral(y[0])
    requires p + a + x == p + b + y
    ensures a == b && x == y
  {
    assert p + a + x == p + (a + x) && p + b + y == p + (b + y);
    PrefixCancel(p, a + x, b + y);
    NumeralLengthOf(a, x);
    NumeralLengthOf(b, y);
    assert a == (a + x)[..|a|] && b == (b + y)[..|b|];
    assert x == (a + x)[|a|..] && y == (b + y)[|b|..];
  }

  /** The middle of three concatenated texts is found between the lengths of the others. */
  lemma MiddleSlice(p: string, x: string, q: string)
    ensures (p + x + q)[|p|..|p| + |x|] == x
    ensures (p + x + q)[|p|..|p + x + q| - |q|] == x
  {
    assert (p + x + q)[|p|..|p| + |x|] == x;
  }

  /** A prefix can be cancelled from two equal concatenations. */
  lemma PrefixCancel(p: string, x: string, y: string)
    requires p + x == p + y
    ensures x == y
  {
    assert x == (p + x)[|p|..];
    assert y == (p + y)[|p|..];
  }

  /** Python's `"".join(parts)`: nothing for no parts, the part itself for one. */
  function Join(parts: seq<string>): (r: string)
    ensures |parts| == 0 ==> r == ""
    ensures |parts| == 1 ==> r == parts[0]
  {
    if |parts| == 0 then "" else Join(parts[..|parts| - 1]) + parts[|parts| - 1]
  }

  /** Joining two lists of parts is joining each and concatenating. */
  lemma {:induction false} JoinAppend(a: seq<string>, b: seq<string>)
    ensures Join(a + b) == Join(a) + Join(b)
    decreases |b|
  {
    if |b| > 0 {
      assert (a + b)[..|a + b| - 1] == a + b[..|b| - 1];
      JoinAppend(a, b[..|b| - 1]);
    } else {
      assert a + b == a;
    }
  }
}
