/**
 * Kotlin's `Int` as the servlet uses it: a 32-bit two's-complement integer, the
 * `+ 1` that the visit counter applies to it, and the decimal conversions
 * `String.toInt()` (java.lang.Integer.parseInt, radix 10) and `Int.toString()`.
 */
module KotlinInt {
  import opened Wrappers

  const MinValue: int := -0x8000_0000
  const MaxValue: int := 0x7fff_ffff

  /** Kotlin `Int`: Int.MIN_VALUE .. Int.MAX_VALUE. */
  newtype Int32 = x: int | -0x8000_0000 <= x < 0x8000_0000

  /** Kotlin `x + 1` on `Int`: it wraps from Int.MAX_VALUE to Int.MIN_VALUE. */
  function Inc(x: Int32): (r: Int32)
    ensures r as int == (x as int + 1 - MinValue) % 0x1_0000_0000 + MinValue
    ensures x as int < MaxValue ==> r as int == x as int + 1
  {
    if x == 0x7fff_ffff then -0x8000_0000 else x + 1
  }

  predicate IsDigit(c: char) {
    '0' <= c <= '9'
  }

  predicate AllDigits(s: string) {
    forall k :: 0 <= k < |s| ==> IsDigit(s[k])
  }

  function DigitValue(c: char): (d: nat)
    requires IsDigit(c)
    ensures d < 10
  {
    c as int - '0' as int
  }

  function DigitChar(d: nat): (c: char)
    requires d < 10
    ensures IsDigit(c) && DigitValue(c) == d
  {
    ('0' as int + d) as char
  }

  /** The value of a run of decimal digits, most significant digit first. */
  function DigitsValue(s: string): nat
    requires AllDigits(s)
  {
    if s == [] then 0 else 10 * DigitsValue(s[..|s| - 1]) + DigitValue(s[|s| - 1])
  }

  /** The shortest decimal spelling of `n`. */
  function NatToDigits(n: nat): (s: string)
    ensures |s| >= 1 && AllDigits(s)
    ensures n >= 10 ==> s[0] != '0'
  {
    if n < 10 then [DigitChar(n)] else NatToDigits(n / 10) + [DigitChar(n % 10)]
  }

  /**
   * Kotlin `String.toInt()`: an optional `+` or `-`, then one or more decimal
   * digits, denoting a value in Int's range. `None` is the NumberFormatException
   * that java.lang.Integer.parseInt throws for every other string.
   */
  function ParseInt(s: string): Option<Int32>
  {
    if |s| == 0 then None
    else
      var digits := if s[0] == '-' || s[0] == '+' then s[1..] else s;
      if |digits| == 0 || !AllDigits(digits) then None
      else
        var v: int := if s[0] == '-' then -(DigitsValue(digits) as int) else DigitsValue(digits);
        if MinValue <= v <= MaxValue then Some(v as Int32) else None
  }

  /** Kotlin `Int.toString()`: a minus sign for negative values, no leading zeros. */
  function IntToString(x: Int32): string
  {
    if x < 0 then "-" + NatToDigits(-(x as int)) else NatToDigits(x as nat)
  }

  lemma {:induction false} DigitsValueOfNatToDigits(n: nat)
    ensures DigitsValue(NatToDigits(n)) == n
  {
    if n >= 10 {
      var s := NatToDigits(n);
      assert s[..|s| - 1] == NatToDigits(n / 10);
      DigitsValueOfNatToDigits(n / 10);
    }
  }

  /** `x.toString().toInt() == x` for every Int. */
  lemma ParseIntToString(x: Int32)
    ensures ParseInt(IntToString(x)) == Some(x)
  {
    var s := IntToString(x);
    if x < 0 {
      var d := NatToDigits(-(x as int));
      assert s == "-" + d && s[0] == '-' && s[1..] == d;
      DigitsValueOfNatToDigits(-(x as int));
      assert -(DigitsValue(d) as int) == x as int;
    } else {
      var d := NatToDigits(x as nat);
      assert s == d && IsDigit(s[0]);
      DigitsValueOfNatToDigits(x as nat);
      assert DigitsValue(d) == x as int;
    }
  }

  /** Any character other than a digit, apart from one leading sign, makes `toInt()` throw. */
  lemma ParseIntRejectsNonDigit(s: string, k: nat)
    requires k < |s| && !IsDigit(s[k])
    requires k == 0 ==> s[0] != '-' && s[0] != '+'
    ensures ParseInt(s) == None
  {
    if s[0] == '-' || s[0] == '+' {
      assert s[1..][k - 1] == s[k];
    } else {
      assert !AllDigits(s);
    }
  }

  /**
   * A run of digits denoting a value beyond Int's range makes `toInt()` throw,
   * whatever its leading zeros and whether or not it is signed.
   */
  lemma ParseIntRejectsOutOfRange(s: string)
    requires |s| >= 1 && AllDigits(s) && DigitsValue(s) > MaxValue
    ensures ParseInt(s) == None
    ensures ParseInt("+" + s) == None
    ensures DigitsValue(s) > -MinValue ==> ParseInt("-" + s) == None
  {
    assert ("+" + s)[1..] == s;
    assert ("-" + s)[1..] == s;
  }

  /** In particular the shortest spelling of such a value is rejected. */
  lemma ParseIntRejectsOutOfRangeSpelling(n: nat)
    requires n > MaxValue
    ensures ParseInt(NatToDigits(n)) == None
    ensures ParseInt("+" + NatToDigits(n)) == None
    ensures n > -MinValue ==> ParseInt("-" + NatToDigits(n)) == None
  {
    DigitsValueOfNatToDigits(n);
    ParseIntRejectsOutOfRange(NatToDigits(n));
  }
}
