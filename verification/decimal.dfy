/** Unsigned decimal text: digits only, no sign, no leading zeros. This is the
    form taken here for the CPU-load text of the `systeminfo` section. */
module Decimal {

  predicate IsDigit(c: char) {
    '0' <= c <= '9'
  }

  predicate IsDigits(s: string) {
    forall i :: 0 <= i < |s| ==> IsDigit(s[i])
  }

  /** The canonical form: at least one digit, and a leading '0' only in "0". */
  predicate IsCanonical(s: string) {
    |s| >= 1 && IsDigits(s) && (s[0] == '0' ==> |s| == 1)
  }

  function DigitChar(d: nat): (c: char)
    requires d < 10
    ensures IsDigit(c)
  {
    (d + '0' as int) as char
  }

  function DigitValue(c: char): (d: nat)
    requires IsDigit(c)
    ensures d < 10
  {
    c as int - '0' as int
  }

  /** The decimal text of `n`. */
  function Text(n: nat): (s: string)
    ensures IsCanonical(s)
    ensures s[0] == '0' <==> n == 0
    decreases n
  {
    if n < 10 then [DigitChar(n)] else Text(n / 10) + [DigitChar(n % 10)]
  }

  /** The value of a digit string, most significant digit first. */
  function Parse(s: string): nat
    requires IsDigits(s)
    decreases |s|
  {
    if |s| == 0 then 0 else Parse(s[..|s| - 1]) * 10 + DigitValue(s[|s| - 1])
  }

  /** Reading back the text of a number gives the number. */
  lemma {:induction false} ParseText(n: nat)
    ensures Parse(Text(n)) == n
    decreases n
  {
    if n >= 10 {
      var s := Text(n);
      assert s[..|s| - 1] == Text(n / 10);
      ParseText(n / 10);
    }
  }

  lemma {:induction false} ParseLeadingNonzero(s: string)
    requires |s| >= 1 && IsDigits(s) && s[0] != '0'
    ensures Parse(s) >= 1
    decreases |s|
  {
    if |s| > 1 {
      ParseLeadingNonzero(s[..|s| - 1]);
    }
  }

  /** Every canonical digit string is the text of the number it denotes. */
  lemma {:induction false} TextParse(s: string)
    requires IsCanonical(s)
    ensures Text(Parse(s)) == s
    decreases |s|
  {
    if |s| > 1 {
      var p := s[..|s| - 1];
      ParseLeadingNonzero(p);
      TextParse(p);
      assert s == p + [s[|s| - 1]];
    }
  }
}
