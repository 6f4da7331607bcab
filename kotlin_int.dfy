/**
 * Kotlin's `Int` arithmetic and `Int.toString()` as this application uses them.
 *
 * Kotlin's `/` and `%` truncate toward zero, so the remainder takes the sign
 * of the dividend; Dafny's own `/` and `%` are Euclidean. Both are written out
 * here. None of the operands in the application can overflow 32 bits (they
 * are divided by 2 or 3), so `Int` is modelled as `int`.
 */
module KotlinInt {
  import opened Options

  function Abs(x: int): nat
  {
    if x < 0 then -x else x
  }

  /** Kotlin's `a % b`: the remainder of the division truncated toward zero. */
  function Rem(a: int, b: int): (r: int)
    requires b != 0
    ensures Abs(r) < Abs(b)
    ensures a >= 0 ==> r >= 0
    ensures a <= 0 ==> r <= 0
  {
    if a >= 0 then a % Abs(b) else -((-a) % Abs(b))
  }

  /** Kotlin's `a / b`: the quotient truncated toward zero. */
  function Div(a: int, b: int): (q: int)
    requires b != 0
    ensures Abs(q) == Abs(a) / Abs(b)
  {
    var m: int, n: int := Abs(a), Abs(b);
    var magnitude := m / n;
    assert magnitude >= 0 by { assert m >= 0 && n > 0; }
    if (a >= 0) == (b > 0) then magnitude else -magnitude
  }

  /** Kotlin's division identity: `(a / b) * b + a % b == a`. */
  lemma DivRem(a: int, b: int)
    requires b != 0
    ensures Div(a, b) * b + Rem(a, b) == a
  {
    var m: int, n: int := Abs(a), Abs(b);
    var q := m / n;
    assert m == q * n + m % n;
    if a >= 0 {
      assert Div(a, b) * b == q * n;
    } else {
      assert Div(a, b) * b == -(q * n);
    }
  }

  /** On a non-negative dividend and a positive divisor Kotlin's `%` agrees with Dafny's. */
  lemma RemOfNonNegative(a: int, b: int)
    requires a >= 0 && b > 0
    ensures Rem(a, b) == a % b
  {
  }

  predicate IsDigit(c: char)
  {
    '0' <= c <= '9'
  }

  predicate AllDigits(s: string)
  {
    forall i :: 0 <= i < |s| ==> IsDigit(s[i])
  }

  function DigitChar(d: nat): (c: char)
    requires d < 10
    ensures IsDigit(c) && c as int - '0' as int == d
  {
    ('0' as int + d) as char
  }

  /** The number a string of decimal digits denotes (the empty string denotes 0). */
  function DigitsValue(s: string): nat
    requires AllDigits(s)
  {
    if s == [] then 0
    else DigitsValue(s[..|s| - 1]) * 10 + (s[|s| - 1] as int - '0' as int)
  }

  /** A numeral as `Int.toString()` writes one: at least one digit, and no leading zero unless it is "0". */
  predicate IsNumeral(s: string)
  {
    |s| >= 1 && AllDigits(s) && (s[0] == '0' ==> |s| == 1)
  }

  /** The decimal numeral of `n`, most significant digit first. */
  function NatToString(n: nat): (s: string)
    ensures IsNumeral(s)
    ensures DigitsValue(s) == n
    ensures s[0] == '0' <==> n == 0
    decreases n
  {
    if n < 10 then [DigitChar(n)]
    else
      var prefix := NatToString(n / 10);
      var s := prefix + [DigitChar(n % 10)];
      assert s[..|s| - 1] == prefix;
      s
  }

  /**
   * The integer a numeral denotes, read back: a numeral, or '-' followed by a
   * numeral other than "0". None for any other string (leading zeros, "-0",
   * a '+' sign, anything that is not a digit).
   */
  function ParseInt(s: string): Option<int>
  {
    if |s| >= 2 && s[0] == '-' && s[1] != '0' && IsNumeral(s[1..]) then Some(0 - DigitsValue(s[1..]) as int)
    else if IsNumeral(s) then Some(DigitsValue(s))
    else None
  }

  /** Kotlin's `Int.toString()`: the decimal numeral, with a leading '-' when negative. */
  function ToString(i: int): (s: string)
    ensures ParseInt(s) == Some(i)
    ensures forall k :: 0 <= k < |s| ==> IsDigit(s[k]) || s[k] == '-'
  {
    if i < 0 then
      var digits := NatToString(-i);
      assert ("-" + digits)[1..] == digits;
      "-" + digits
    else NatToString(i)
  }

  /** A numeral that does not start with '0' denotes at least 1. */
  lemma {:induction false} LeadingDigitPositive(s: string)
    requires |s| >= 1 && AllDigits(s) && s[0] != '0'
    ensures DigitsValue(s) >= 1
  {
    if |s| > 1 {
      var p := s[..|s| - 1];
      assert p[0] == s[0];
      LeadingDigitPositive(p);
    }
  }

  /** Appending digit `d` to `v` and splitting it off again. */
  lemma AppendDigit(v: nat, d: nat)
    requires d < 10
    ensures (v * 10 + d) / 10 == v && (v * 10 + d) % 10 == d
  {
  }

  /** Every numeral is the one `NatToString` writes for its value. */
  lemma {:induction false} NumeralRoundTrip(s: string)
    requires IsNumeral(s)
    ensures NatToString(DigitsValue(s)) == s
  {
    if |s| == 1 {
      assert s == [s[0]];
      assert s[..0] == [];
    } else {
      var p := s[..|s| - 1];
      var last := s[|s| - 1];
      var d: nat := last as int - '0' as int;
      assert p[0] == s[0] && IsNumeral(p);
      NumeralRoundTrip(p);
      LeadingDigitPositive(p);
      var v := DigitsValue(p);
      var n := DigitsValue(s);
      assert n == v * 10 + d;
      AppendDigit(v, d);
      assert DigitChar(d) == last;
      assert NatToString(n) == NatToString(v) + [DigitChar(d)];
      assert s == p + [last];
    }
  }

  /** `ParseInt` accepts only what `ToString` prints: the two are inverse bijections. */
  lemma ToStringOfParseInt(s: string, i: int)
    requires ParseInt(s) == Some(i)
    ensures ToString(i) == s
  {
    if |s| >= 2 && s[0] == '-' && s[1] != '0' && IsNumeral(s[1..]) {
      NumeralRoundTrip(s[1..]);
      LeadingDigitPositive(s[1..]);
      assert s == "-" + s[1..];
    } else {
      NumeralRoundTrip(s);
    }
  }

  /** Different integers have different numerals. */
  lemma ToStringInjective(a: int, b: int)
    requires ToString(a) == ToString(b)
    ensures a == b
  {
    assert ParseInt(ToString(a)) == Some(a);
  }
}
