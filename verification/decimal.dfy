/** Decimal rendering of integers, as Rust's `format!("{}", n)` writes them. */
module Decimal {
  import opened Results

  predicate IsDigit(c: char) {
    '0' <= c <= '9'
  }

  predicate AllDigits(s: string) {
    forall i :: 0 <= i < |s| ==> IsDigit(s[i])
  }

  function DigitChar(d: int): (c: char)
    requires 0 <= d < 10
    ensures IsDigit(c)
  {
    ('0' as int + d) as char
  }

  function DigitValue(c: char): (d: int)
    requires IsDigit(c)
    ensures 0 <= d < 10
    ensures DigitChar(d) == c
  {
    c as int - '0' as int
  }

  /** Digits of `n`, most significant first, with no leading zero. */
  function FormatNat(n: nat): (s: string)
    ensures |s| > 0 && AllDigits(s)
    ensures s[0] == '0' <==> n == 0
    decreases n
  {
    if n < 10 then [DigitChar(n)] else FormatNat(n / 10) + [DigitChar(n % 10)]
  }

  /** `{}` of a signed integer: a minus sign before the digits of a negative value. */
  function FormatInt(x: int): (s: string)
    ensures |s| > 0
    ensures s[0] == '-' <==> x < 0
    ensures AllDigits(s[1..])
    ensures x >= 0 ==> s == FormatNat(x)
  {
    if x < 0 then "-" + FormatNat(-x) else FormatNat(x)
  }

  /** Value of a digit string (empty reads as 0). */
  function ParseNat(s: string): nat
    requires AllDigits(s)
  {
    if |s| == 0 then 0 else 10 * ParseNat(s[..|s| - 1]) + DigitValue(s[|s| - 1])
  }

  /** Inverse of `FormatInt` on the strings it produces; `None` for anything that is not a number. */
  function ParseInt(s: string): Option<int> {
    if |s| > 1 && s[0] == '-' && AllDigits(s[1..]) then Some(-(ParseNat(s[1..]) as int))
    else if |s| > 0 && AllDigits(s) then Some(ParseNat(s))
    else None
  }

  lemma {:induction false} ParseFormatNat(n: nat)
    ensures ParseNat(FormatNat(n)) == n
    decreases n
  {
    if n >= 10 {
      var s := FormatNat(n);
      assert s[..|s| - 1] == FormatNat(n / 10);
      ParseFormatNat(n / 10);
    }
  }

  lemma ParseFormatInt(x: int)
    ensures ParseInt(FormatInt(x)) == Some(x)
  {
    if x < 0 {
      assert FormatInt(x)[1..] == FormatNat(-x);
      ParseFormatNat(-x);
    } else {
      ParseFormatNat(x);
    }
  }

  /** Different integers are rendered differently. */
  lemma FormatIntInjective(a: int, b: int)
    ensures FormatInt(a) == FormatInt(b) ==> a == b
  {
    ParseFormatInt(a);
    ParseFormatInt(b);
  }

  /** Number of leading digits of `s`. */
  function LeadingDigits(s: string): (n: nat)
    ensures n <= |s|
    ensures AllDigits(s[..n])
    ensures n < |s| ==> !IsDigit(s[n])
  {
    if |s| == 0 || !IsDigit(s[0]) then 0 else 1 + LeadingDigits(s[1..])
  }

  lemma {:induction false} LeadingDigitsOfNumber(a: string, marker: char, t: string)
    requires AllDigits(a) && !IsDigit(marker)
    ensures LeadingDigits(a + [marker] + t) == |a|
    decreases |a|
  {
    if |a| > 0 {
      assert (a + [marker] + t)[1..] == a[1..] + [marker] + t;
      LeadingDigitsOfNumber(a[1..], marker, t);
    }
  }

  /**
   * A rendered number followed by a non-digit splits uniquely: the digits end
   * exactly where the first non-digit begins.
   */
  lemma DigitsThenMarker(a: string, t: string, b: string, u: string, marker: char)
    requires AllDigits(a) && AllDigits(b) && !IsDigit(marker)
    requires a + [marker] + t == b + [marker] + u
    ensures a == b && t == u
  {
    var l := a + [marker] + t;
    var r := b + [marker] + u;
    LeadingDigitsOfNumber(a, marker, t);
    LeadingDigitsOfNumber(b, marker, u);
    assert a == l[..|a|] == r[..|b|] == b;
    assert t == l[|a| + 1..] == r[|b| + 1..] == u;
  }
}
