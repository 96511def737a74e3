/**
 * Decimal text of unsigned integers, as Rust writes it with `{}` (`Display`)
 * and reads it back with `str::parse`: ASCII digits, most significant first.
 */
module Decimal {

  predicate IsDigit(c: char) {
    '0' <= c <= '9'
  }

  predicate AllDigits(s: string) {
    forall i :: 0 <= i < |s| ==> IsDigit(s[i])
  }

  function DigitValue(c: char): (d: nat)
    requires IsDigit(c)
    ensures d < 10
  {
    (c as int) - ('0' as int)
  }

  function DigitChar(d: nat): (c: char)
    requires d < 10
    ensures IsDigit(c) && DigitValue(c) == d
  {
    (('0' as int) + d) as char
  }

  /** The number a run of digits denotes; leading zeros are allowed. */
  function Value(s: string): nat
    requires AllDigits(s)
  {
    if |s| == 0 then 0 else Value(s[..|s| - 1]) * 10 + DigitValue(s[|s| - 1])
  }

  /** The shortest decimal text of `n`: no sign, no leading zero. */
  function Format(n: nat): (s: string)
    ensures |s| >= 1 && AllDigits(s)
    ensures |s| > 1 ==> s[0] != '0'
  {
    if n < 10 then [DigitChar(n)] else Format(n / 10) + [DigitChar(n % 10)]
  }

  /** Reading back what `Format` wrote gives the number again. */
  lemma {:induction false} ValueOfFormat(n: nat)
    ensures Value(Format(n)) == n
  {
    if n >= 10 {
      ValueOfFormat(n / 10);
      var s := Format(n);
      assert s[..|s| - 1] == Format(n / 10);
    }
  }

  /** Distinct numbers have distinct decimal texts. */
  lemma FormatInjective(m: nat, n: nat)
    ensures Format(m) == Format(n) ==> m == n
  {
    ValueOfFormat(m);
    ValueOfFormat(n);
  }

  /** A run of digits of value zero is all zeros. */
  lemma {:induction false} ValueZero(s: string)
    requires AllDigits(s) && |s| >= 1 && Value(s) == 0
    ensures s[0] == '0'
  {
    if |s| > 1 {
      ValueZero(s[..|s| - 1]);
    }
  }

  /** Formatting the value of a canonical digit run gives the run back. */
  lemma {:induction false} FormatOfValue(s: string)
    requires AllDigits(s) && |s| >= 1
    requires |s| > 1 ==> s[0] != '0'
    ensures Format(Value(s)) == s
  {
    var t, c := s[..|s| - 1], s[|s| - 1];
    if |s| > 1 {
      if Value(t) == 0 {
        ValueZero(t);
        assert false;
      }
      FormatOfValue(t);
      assert Value(s) / 10 == Value(t) && Value(s) % 10 == DigitValue(c);
      assert s == t + [c];
    }
  }
}
