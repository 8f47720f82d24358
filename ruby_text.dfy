/** The Ruby core-library string operations the client relies on, over ASCII. */
module RubyText {

  predicate IsDigit(c: char) { '0' <= c <= '9' }

  predicate IsDigits(s: string) { forall i :: 0 <= i < |s| ==> IsDigit(s[i]) }

  predicate IsLower(c: char) { 'a' <= c <= 'z' }

  predicate IsUpper(c: char) { 'A' <= c <= 'Z' }

  /** Distance between a lower-case ASCII letter and its upper-case partner. */
  const CaseShift: int := 'a' as int - 'A' as int

  function DigitChar(d: nat): (c: char)
    requires d < 10
    ensures IsDigit(c) && DigitValue(c) == d
  {
    ('0' as int + d) as char
  }

  function DigitValue(c: char): nat
    requires IsDigit(c)
  {
    c as int - '0' as int
  }

  function Pow10(k: nat): (r: nat)
    ensures r >= 1
  {
    if k == 0 then 1 else 10 * Pow10(k - 1)
  }

  /** Integer#to_s on a non-negative integer: its decimal digits, most significant first,
      with no leading zero except for the number zero itself. */
  function Decimal(n: nat): (s: string)
    ensures |s| >= 1 && IsDigits(s)
    ensures s[0] == '0' <==> n == 0
    decreases n
  {
    if n < 10 then [DigitChar(n)] else Decimal(n / 10) + [DigitChar(n % 10)]
  }

  /** The number a string of decimal digits denotes. */
  function DecimalValue(s: string): nat
    requires IsDigits(s)
  {
    if s == [] then 0 else DecimalValue(s[..|s| - 1]) * 10 + DigitValue(s[|s| - 1])
  }

  /** Reading back the digits of `n` gives `n`. */
  lemma {:induction false} DecimalRoundTrip(n: nat)
    ensures DecimalValue(Decimal(n)) == n
    decreases n
  {
    if n >= 10 {
      var d := Decimal(n / 10);
      var s := Decimal(n);
      assert s[..|s| - 1] == d;
      DecimalRoundTrip(n / 10);
    }
  }

  /** Distinct numbers have distinct decimal renderings. */
  lemma DecimalInjective(a: nat, b: nat)
    requires Decimal(a) == Decimal(b)
    ensures a == b
  {
    DecimalRoundTrip(a);
    DecimalRoundTrip(b);
  }

  /** `n` copies of `c`. */
  function Repeat(c: char, n: nat): (r: string)
    ensures |r| == n
    ensures forall i :: 0 <= i < n ==> r[i] == c
  {
    seq(n, _ => c)
  }

  /** String#ljust(width, pad) with a one-character pad: `s` followed by copies of `pad`
      up to `width` characters; `s` itself when it is already that long. */
  function LJust(s: string, width: nat, pad: char): (r: string)
    ensures |r| == if |s| < width then width else |s|
    ensures s <= r
    ensures forall i :: |s| <= i < |r| ==> r[i] == pad
  {
    if |s| < width then s + Repeat(pad, width - |s|) else s
  }

  /** Appending `k` zeros to a digit string multiplies its value by 10^k. */
  lemma {:induction false} ZeroPaddedValue(s: string, k: nat)
    requires IsDigits(s)
    ensures IsDigits(s + Repeat('0', k))
    ensures DecimalValue(s + Repeat('0', k)) == DecimalValue(s) * Pow10(k)
  {
    if k > 0 {
      var t := s + Repeat('0', k - 1);
      var u := s + Repeat('0', k);
      assert u == t + ['0'];
      assert u[..|u| - 1] == t;
      ZeroPaddedValue(s, k - 1);
      var v, p := DecimalValue(s), Pow10(k - 1);
      assert DecimalValue(u) == DecimalValue(t) * 10;
      assert DecimalValue(t) == v * p;
      ScaleByTen(v, p);
    } else {
      assert s + Repeat('0', k) == s;
    }
  }

  lemma ScaleByTen(v: nat, p: nat)
    ensures v * p * 10 == v * (10 * p)
  {
  }

  function UpcaseChar(c: char): char
  {
    if IsLower(c) then (c as int - CaseShift) as char else c
  }

  function DowncaseChar(c: char): char
  {
    if IsUpper(c) then (c as int + CaseShift) as char else c
  }

  /** String#upcase: every lower-case letter replaced by its upper-case partner,
      every other character kept. */
  function Upcase(s: string): (r: string)
    ensures |r| == |s|
    ensures forall i :: 0 <= i < |r| ==> !IsLower(r[i])
    ensures forall i :: 0 <= i < |s| && !IsLower(s[i]) ==> r[i] == s[i]
    ensures forall i :: 0 <= i < |s| && IsLower(s[i]) ==> IsUpper(r[i]) && r[i] as int + CaseShift == s[i] as int
  {
    seq(|s|, i requires 0 <= i < |s| => UpcaseChar(s[i]))
  }

  /** String#downcase: every upper-case letter replaced by its lower-case partner,
      every other character kept. */
  function Downcase(s: string): (r: string)
    ensures |r| == |s|
    ensures forall i :: 0 <= i < |r| ==> !IsUpper(r[i])
    ensures forall i :: 0 <= i < |s| && !IsUpper(s[i]) ==> r[i] == s[i]
    ensures forall i :: 0 <= i < |s| && IsUpper(s[i]) ==> IsLower(r[i]) && r[i] as int == s[i] as int + CaseShift
  {
    seq(|s|, i requires 0 <= i < |s| => DowncaseChar(s[i]))
  }

  /** Upcase and Downcase are inverse on letters: case-folding either way first does not
      change the upper-cased result. */
  lemma UpcaseOfDowncase(s: string)
    ensures Upcase(Downcase(s)) == Upcase(s)
  {
  }

  /** Upcase is idempotent. */
  lemma UpcaseIdempotent(s: string)
    ensures Upcase(Upcase(s)) == Upcase(s)
  {
  }

  /** String#include? with a string argument: `needle` occurs in `hay` at some offset. */
  predicate IsSubstring(needle: string, hay: string)
  {
    exists i | 0 <= i <= |hay| :: OccursAt(needle, hay, i)
  }

  predicate OccursAt(needle: string, hay: string, i: int)
  {
    0 <= i && i + |needle| <= |hay| && hay[i..i + |needle|] == needle
  }
}
