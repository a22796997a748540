/** Number-to-text rendering as the Arduino `String` class does it
    (`String(int)` and `String(value, HEX)`, both built on the C library's
    `itoa`/`utoa`: no leading zeros, a leading '-' for negative decimals,
    lower-case hexadecimal letters), and the inverse reading of digit
    strings that `String::toInt()` performs on all-digit text. */
module Text {

  const Digits: string := "0123456789abcdef"

  predicate ValidBase(base: nat)
  {
    2 <= base <= 16
  }

  function DigitChar(d: nat): char
    requires d < 16
  {
    Digits[d]
  }

  /** Value of one digit character; the characters that are not digits
      of the base are exactly those without a value. */
  function DigitValue(c: char, base: nat): (r: int)
    requires ValidBase(base)
    ensures -1 <= r < base
    ensures 0 <= r ==> DigitChar(r) == c
  {
    if '0' <= c <= '9' && (c as int) - ('0' as int) < base then (c as int) - ('0' as int)
    else if 'a' <= c <= 'f' && (c as int) - ('a' as int) + 10 < base then (c as int) - ('a' as int) + 10
    else -1
  }

  predicate IsDigits(s: string, base: nat)
    requires ValidBase(base)
  {
    forall i :: 0 <= i < |s| ==> DigitValue(s[i], base) >= 0
  }

  /** Digits of `n` in `base`, most significant first, without leading zeros. */
  function NatToString(n: nat, base: nat): (s: string)
    requires ValidBase(base)
    ensures |s| >= 1
    decreases n
  {
    if n < base then [DigitChar(n)] else NatToString(n / base, base) + [DigitChar(n % base)]
  }

  /** Value of a digit string, most significant digit first. */
  function DigitsValue(s: string, base: nat): nat
    requires ValidBase(base)
    requires IsDigits(s, base)
  {
    if s == [] then 0
    else DigitsValue(s[..|s| - 1], base) * base + DigitValue(s[|s| - 1], base)
  }

  /** Decimal text of an `int`, as `String(int)` renders it. */
  function IntToDecimal(n: int): string
  {
    if n < 0 then "-" + NatToString(-n, 10) else NatToString(n, 10)
  }

  lemma DigitCharValue(d: nat, base: nat)
    requires ValidBase(base) && d < base
    ensures DigitValue(DigitChar(d), base) == d
  {
  }

  /** Rendering then reading back gives the number: every rendered
      character is a digit of the base and the digits spell `n`. */
  lemma {:induction false} NatToStringRoundTrip(n: nat, base: nat)
    requires ValidBase(base)
    ensures IsDigits(NatToString(n, base), base)
    ensures DigitsValue(NatToString(n, base), base) == n
    decreases n
  {
    if n < base {
      DigitCharValue(n, base);
    } else {
      var prefix := NatToString(n / base, base);
      NatToStringRoundTrip(n / base, base);
      DigitCharValue(n % base, base);
      AppendDigit(prefix, DigitChar(n % base), base);
      DivMod(n, base);
    }
  }

  lemma AppendDigit(prefix: string, c: char, base: nat)
    requires ValidBase(base) && IsDigits(prefix, base) && DigitValue(c, base) >= 0
    ensures IsDigits(prefix + [c], base)
    ensures DigitsValue(prefix + [c], base) == DigitsValue(prefix, base) * base + DigitValue(c, base)
  {
    var s := prefix + [c];
    assert s[..|s| - 1] == prefix;
  }

  lemma DivMod(n: nat, base: nat)
    requires base > 0
    ensures (n / base) * base + n % base == n
  {
  }

  /** Dividing by the base shrinks a number at least the base, but not to zero. */
  lemma Quotient(n: nat, base: nat)
    requires 2 <= base <= n
    ensures 1 <= n / base < n
  {
    DivMod(n, base);
    var q, r := n / base, n % base;
    assert q * base == n - r;
    assert q * base > 0;
    assert q * base >= q * 2;
  }

  /** The number of digits: one below the base, two below its square. */
  lemma NatToStringLength(n: nat, base: nat)
    requires ValidBase(base)
    ensures |NatToString(n, base)| == 1 <==> n < base
    ensures base <= n < base * base ==> |NatToString(n, base)| == 2
  {
    if n >= base {
      assert n / base >= 1;
      if n < base * base {
        assert n / base < base;
      }
    }
  }

  /** A positive number's text does not start with '0'. */
  lemma {:induction false} LeadingDigitNonZero(n: nat, base: nat)
    requires ValidBase(base) && n >= 1
    ensures NatToString(n, base)[0] != '0'
    decreases n
  {
    if n >= base {
      var q := n / base;
      Quotient(n, base);
      assert NatToString(n, base)[0] == NatToString(q, base)[0];
      LeadingDigitNonZero(q, base);
    } else {
      DigitCharValue(n, base);
      assert DigitValue('0', base) == 0;
    }
  }

  /** A leading '0' does not change the value of a digit string. */
  lemma {:induction false} LeadingZeroValue(s: string, base: nat)
    requires ValidBase(base) && IsDigits(s, base)
    ensures IsDigits("0" + s, base)
    ensures DigitsValue("0" + s, base) == DigitsValue(s, base)
    decreases |s|
  {
    if s != [] {
      var z := "0" + s;
      assert z[..|z| - 1] == "0" + s[..|s| - 1];
      LeadingZeroValue(s[..|s| - 1], base);
    }
  }

  /** Decimal text only ever contains digits and the minus sign. */
  lemma IntToDecimalChars(n: int)
    ensures forall i :: 0 <= i < |IntToDecimal(n)| ==> IntToDecimal(n)[i] == '-' || '0' <= IntToDecimal(n)[i] <= '9'
  {
    var m: nat := if n < 0 then -n else n;
    NatToStringRoundTrip(m, 10);
  }
}
