/**
 * Decimal text of Kotlin `Int`/`Long` values: `toString()` and string
 * templates, `String.toIntOrNull()`/`toLongOrNull()`, and the `%02d`
 * conversion of `String.format`.  Also the 32- and 64-bit ranges, and how
 * `optInt`/`optLong` read an integer JSON literal.
 */
module Decimal {
  import opened Wrappers

  const INT_MIN: int := -0x8000_0000
  const INT_MAX: int := 0x7FFF_FFFF
  const LONG_MIN: int := -0x8000_0000_0000_0000
  const LONG_MAX: int := 0x7FFF_FFFF_FFFF_FFFF

  /** A value of Kotlin type `Int`. */
  predicate IsInt(n: int) { INT_MIN <= n <= INT_MAX }

  /** A value of Kotlin type `Long`. */
  predicate IsLong(n: int) { LONG_MIN <= n <= LONG_MAX }

  /** Two's-complement truncation to 32 bits (`Long.intValue()`). */
  function WrapInt(n: int): (r: int)
    ensures IsInt(r)
    ensures (r - n) % 0x1_0000_0000 == 0
    ensures IsInt(n) ==> r == n
  {
    (n - INT_MIN) % 0x1_0000_0000 + INT_MIN
  }

  /**
   * `optLong` of an integer JSON literal.  A literal in the `Long` range is
   * held as an `Int` or `Long` and read back as is; a larger one is held as
   * a `Double`, whose `longValue()` saturates at the nearer `Long` bound.
   */
  function JsonLong(n: int): (r: int)
    ensures IsLong(r)
    ensures IsLong(n) ==> r == n
    ensures n > LONG_MAX ==> r == LONG_MAX
    ensures n < LONG_MIN ==> r == LONG_MIN
  {
    if n > LONG_MAX then LONG_MAX else if n < LONG_MIN then LONG_MIN else n
  }

  /**
   * `optInt` of an integer JSON literal: `intValue()` of the held number,
   * which truncates an `Int` or `Long` to 32 bits and saturates a `Double`
   * at the nearer `Int` bound.
   */
  function JsonInt(n: int): (r: int)
    ensures IsInt(r)
    ensures IsLong(n) ==> (r - n) % 0x1_0000_0000 == 0
    ensures IsInt(n) ==> r == n
    ensures n > LONG_MAX ==> r == INT_MAX
    ensures n < LONG_MIN ==> r == INT_MIN
  {
    if n > LONG_MAX then INT_MAX else if n < LONG_MIN then INT_MIN else WrapInt(n)
  }

  /** Reading a larger literal never gives a smaller `Long`. */
  lemma JsonLongMonotone(n: int, m: int)
    requires n <= m
    ensures JsonLong(n) <= JsonLong(m)
  {
  }

  /**
   * Saturation is not truncation: beyond the `Long` range the `Long` and
   * `Int` readings of a literal need not be congruent to it, and `optInt`
   * is not the truncation of `optLong`.
   */
  lemma BeyondLongSaturates()
    ensures JsonLong(LONG_MAX + 1) == LONG_MAX
    ensures JsonInt(LONG_MAX + 1) == INT_MAX && WrapInt(JsonLong(LONG_MAX + 1)) == -1
    ensures JsonInt(LONG_MIN - 1) == INT_MIN && WrapInt(JsonLong(LONG_MIN - 1)) == 0
  {
  }

  predicate IsDigit(c: char) { '0' <= c <= '9' }

  predicate AllDigits(s: string) { forall i :: 0 <= i < |s| ==> IsDigit(s[i]) }

  function DigitChar(d: nat): (c: char)
    requires d < 10
    ensures IsDigit(c)
  {
    (('0' as int) + d) as char
  }

  function DigitValue(c: char): (d: nat)
    requires IsDigit(c)
    ensures d < 10 && DigitChar(d) == c
  {
    (c as int) - ('0' as int)
  }

  /** The number a string of decimal digits denotes, most significant first. */
  function DigitsValue(s: string): nat
    requires AllDigits(s)
  {
    if s == [] then 0 else DigitsValue(s[..|s| - 1]) * 10 + DigitValue(s[|s| - 1])
  }

  /** Shortest decimal digits of `n` (no leading zero except for 0 itself). */
  function NatToString(n: nat): (s: string)
    ensures |s| >= 1 && AllDigits(s)
    ensures |s| == 1 <==> n < 10
    ensures s[0] == '0' ==> n == 0
  {
    if n < 10 then [DigitChar(n)] else NatToString(n / 10) + [DigitChar(n % 10)]
  }

  lemma {:induction false} NatToStringValue(n: nat)
    ensures DigitsValue(NatToString(n)) == n
  {
    if n >= 10 {
      var s := NatToString(n);
      assert s[..|s| - 1] == NatToString(n / 10);
      NatToStringValue(n / 10);
    }
  }

  /** Kotlin `Int.toString()`, `Long.toString()` and `"$n"`. */
  function IntToString(n: int): (s: string)
    ensures |s| >= 1
    ensures s[0] == '-' <==> n < 0
    ensures s[0] != '+'
  {
    if n < 0 then "-" + NatToString(-n) else NatToString(n)
  }

  /**
   * Kotlin `String.toIntOrNull()` (with `lo..hi` the `Int` range) and
   * `toLongOrNull()` (the `Long` range), radix 10: an optional leading `-`
   * or `+`, then at least one digit; a value outside the range is null.
   */
  function ParseInteger(s: string, lo: int, hi: int): (r: Option<int>)
    ensures r.Some? ==> lo <= r.value <= hi
    ensures s == [] ==> r == None
  {
    if |s| == 0 then None
    else
      var signed := s[0] == '-' || s[0] == '+';
      var body := if signed then s[1..] else s;
      if |body| == 0 || !AllDigits(body) then None
      else
        var v: int := if s[0] == '-' then 0 - DigitsValue(body) as int else DigitsValue(body);
        if lo <= v <= hi then Some(v) else None
  }

  function ToIntOrNull(s: string): Option<int> { ParseInteger(s, INT_MIN, INT_MAX) }

  function ToLongOrNull(s: string): Option<int> { ParseInteger(s, LONG_MIN, LONG_MAX) }

  /** What `toString()` writes, `toIntOrNull()`/`toLongOrNull()` reads back. */
  lemma ParseIntegerOfToString(n: int, lo: int, hi: int)
    requires lo <= n <= hi
    ensures ParseInteger(IntToString(n), lo, hi) == Some(n)
  {
    var s := IntToString(n);
    if n < 0 {
      assert s[1..] == NatToString(-n);
      NatToStringValue(-n);
    } else {
      NatToStringValue(n);
    }
  }

  /** Text with no digit at all is never a number. */
  lemma ParseIntegerNeedsDigit(s: string, lo: int, hi: int)
    requires forall i :: 0 <= i < |s| ==> !IsDigit(s[i])
    ensures ParseInteger(s, lo, hi) == None
  {
    if |s| > 0 {
      var body := if s[0] == '-' || s[0] == '+' then s[1..] else s;
      if |body| > 0 {
        assert !IsDigit(body[0]);
      }
    }
  }

  /**
   * `String.format("%02d", n)`: at least two characters, zero-padded after
   * the sign (a negative number already has two).
   */
  function Pad2(n: int): (s: string)
    ensures |s| >= 2
    ensures 0 <= n < 100 ==> |s| == 2 && AllDigits(s) && DigitsValue(s) == n
    ensures n >= 10 ==> s == IntToString(n)
  {
    if n < 0 then IntToString(n)
    else if n < 10 then
      assert DigitsValue("0" + NatToString(n)) == DigitsValue("0") * 10 + n;
      "0" + NatToString(n)
    else
      NatToStringValue(n);
      NatToString(n)
  }
}
