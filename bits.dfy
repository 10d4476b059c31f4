/**
  Non-negative integers read as strings of bits: the arithmetic behind PHP's
  `1 << n` and `|`, `Bitwise::test`, and GMP's `gmp_setbit`, on the values the
  permission codec works with. Every operation is defined one bit at a time
  (`b % 2` is the lowest bit, `b / 2` the rest), so the proofs stay linear.
*/
module Bits {

  /** `1 << n` */
  function Pow2(n: nat): (r: nat)
    ensures r > 0
  {
    if n == 0 then 1 else 2 * Pow2(n - 1)
  }

  /** Bit `i` of `b` is set: what `Bitwise::test(b, i)` answers. */
  predicate Bit(b: nat, i: nat)
  {
    if i == 0 then b % 2 == 1 else Bit(b / 2, i - 1)
  }

  /** `a | b` */
  function Or(a: nat, b: nat): nat
    decreases a + b
  {
    if a == 0 then b
    else if b == 0 then a
    else 2 * Or(a / 2, b / 2) + (if a % 2 == 1 || b % 2 == 1 then 1 else 0)
  }

  /** `a & b` */
  function And(a: nat, b: nat): nat
    decreases a + b
  {
    if a == 0 || b == 0 then 0
    else 2 * And(a / 2, b / 2) + (if a % 2 == 1 && b % 2 == 1 then 1 else 0)
  }

  /** `gmp_setbit(b, i, v)`: bit `i` set when `v` holds and cleared otherwise. */
  function SetBitTo(b: nat, i: nat, v: bool): nat
  {
    if i == 0 then 2 * (b / 2) + (if v then 1 else 0)
    else 2 * SetBitTo(b / 2, i - 1, v) + b % 2
  }

  /** Reading the bits of `2 * x + r`. */
  lemma BitOfDouble(x: nat, r: nat, i: nat)
    requires r < 2
    ensures Bit(2 * x + r, i) == if i == 0 then r == 1 else Bit(x, i - 1)
  {
  }

  lemma {:induction false} ZeroHasNoBits(i: nat)
    ensures !Bit(0, i)
  {
    if i > 0 {
      ZeroHasNoBits(i - 1);
    }
  }

  /** `1 << n` has exactly bit `n` set. */
  lemma {:induction false} Pow2Bit(n: nat, i: nat)
    ensures Bit(Pow2(n), i) <==> i == n
  {
    if n == 0 {
      if i > 0 {
        ZeroHasNoBits(i - 1);
      }
    } else {
      BitOfDouble(Pow2(n - 1), 0, i);
      if i > 0 {
        Pow2Bit(n - 1, i - 1);
      }
    }
  }

  /** `|` sets a bit exactly where either operand has it. */
  lemma {:induction false} OrBit(a: nat, b: nat, i: nat)
    ensures Bit(Or(a, b), i) <==> Bit(a, i) || Bit(b, i)
    decreases a + b
  {
    if a == 0 {
      ZeroHasNoBits(i);
    } else if b == 0 {
      ZeroHasNoBits(i);
    } else {
      BitOfDouble(Or(a / 2, b / 2), if a % 2 == 1 || b % 2 == 1 then 1 else 0, i);
      if i > 0 {
        OrBit(a / 2, b / 2, i - 1);
      }
    }
  }

  /** `&` sets a bit exactly where both operands have it. */
  lemma {:induction false} AndBit(a: nat, b: nat, i: nat)
    ensures Bit(And(a, b), i) <==> Bit(a, i) && Bit(b, i)
    decreases a + b
  {
    if a == 0 || b == 0 {
      ZeroHasNoBits(i);
    } else {
      BitOfDouble(And(a / 2, b / 2), if a % 2 == 1 && b % 2 == 1 then 1 else 0, i);
      if i > 0 {
        AndBit(a / 2, b / 2, i - 1);
      }
    }
  }

  /** `gmp_setbit(b, i, v)` changes bit `i` to `v` and no other bit. */
  lemma {:induction false} SetBitToBit(b: nat, i: nat, v: bool, j: nat)
    ensures Bit(SetBitTo(b, i, v), j) <==> if j == i then v else Bit(b, j)
  {
    if i == 0 {
      BitOfDouble(b / 2, if v then 1 else 0, j);
      if j > 0 {
        BitOfDouble(b / 2, b % 2, j);
        assert b == 2 * (b / 2) + b % 2;
      }
    } else {
      BitOfDouble(SetBitTo(b / 2, i - 1, v), b % 2, j);
      BitOfDouble(b / 2, b % 2, j);
      assert b == 2 * (b / 2) + b % 2;
      if j > 0 {
        SetBitToBit(b / 2, i - 1, v, j - 1);
      }
    }
  }

  /** A number is determined by its bits. */
  lemma {:induction false} SameBits(a: nat, b: nat)
    requires forall i: nat :: Bit(a, i) == Bit(b, i)
    ensures a == b
    decreases a + b
  {
    if a != 0 || b != 0 {
      forall i: nat
        ensures Bit(a / 2, i) == Bit(b / 2, i)
      {
        assert Bit(a, i + 1) == Bit(b, i + 1);
      }
      SameBits(a / 2, b / 2);
      assert Bit(a, 0) == Bit(b, 0);
    }
  }

  /** `|` of two numbers below `1 << n` stays below it. */
  lemma {:induction false} OrBelow(a: nat, b: nat, n: nat)
    requires a < Pow2(n) && b < Pow2(n)
    ensures Or(a, b) < Pow2(n)
    decreases a + b
  {
    if a != 0 && b != 0 {
      OrBelow(a / 2, b / 2, n - 1);
    }
  }

  lemma {:induction false} Pow2Grows(m: nat, n: nat)
    requires m < n
    ensures Pow2(m) < Pow2(n)
  {
    if m < n - 1 {
      Pow2Grows(m, n - 1);
    }
  }
}

/**
  Base-10 text of a number: what `gmp_strval` writes and what PHP's `(int)`
  cast reads back on a 64-bit build.
*/
module Decimal {

  /** The largest integer of a 64-bit PHP build. */
  const PHP_INT_MAX: nat := 0x7fff_ffff_ffff_ffff

  predicate IsDigit(c: char)
  {
    '0' <= c <= '9'
  }

  predicate AllDigits(s: string)
  {
    forall k :: 0 <= k < |s| ==> IsDigit(s[k])
  }

  function DigitChar(d: nat): (c: char)
    requires d < 10
    ensures IsDigit(c)
  {
    ('0' as int + d) as char
  }

  /** `gmp_strval(n)`: the digits of `n`, most significant first. */
  function DecimalString(n: nat): (s: string)
    ensures |s| > 0 && AllDigits(s)
  {
    if n < 10 then [DigitChar(n)] else DecimalString(n / 10) + [DigitChar(n % 10)]
  }

  /** The leading run of decimal digits of `s`. */
  function LeadingDigits(s: string): (d: string)
    ensures |d| <= |s| && d == s[..|d|] && AllDigits(d)
    ensures |d| < |s| ==> !IsDigit(s[|d|])
  {
    if s == [] || !IsDigit(s[0]) then [] else [s[0]] + LeadingDigits(s[1..])
  }

  /** The number a string of digits spells. */
  function DigitsValue(d: string): nat
    requires AllDigits(d)
  {
    if d == [] then 0 else 10 * DigitsValue(d[..|d| - 1]) + (d[|d| - 1] as int - '0' as int)
  }

  /** PHP's `(int) $s` on a 64-bit build: the leading digits, capped at `PHP_INT_MAX`. */
  function CastToInt(s: string): (n: nat)
    ensures n <= PHP_INT_MAX
  {
    var v := DigitsValue(LeadingDigits(s));
    if v > PHP_INT_MAX then PHP_INT_MAX else v
  }

  lemma AllDigitsLead(s: string)
    requires AllDigits(s)
    ensures LeadingDigits(s) == s
  {
  }

  /** Reading back what `gmp_strval` wrote gives the number. */
  lemma {:induction false} DecimalRoundTrip(n: nat)
    ensures LeadingDigits(DecimalString(n)) == DecimalString(n)
    ensures DigitsValue(DecimalString(n)) == n
  {
    AllDigitsLead(DecimalString(n));
    if n >= 10 {
      var s := DecimalString(n);
      DecimalRoundTrip(n / 10);
      assert s[..|s| - 1] == DecimalString(n / 10);
    }
  }

  /** A 64-bit build casts the decimal text of any PHP integer back to that integer. */
  lemma CastReadsDecimal(n: nat)
    requires n <= PHP_INT_MAX
    ensures CastToInt(DecimalString(n)) == n
  {
    DecimalRoundTrip(n);
  }
}
