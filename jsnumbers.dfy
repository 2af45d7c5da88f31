/**
 * The JavaScript number operations the expression compiler depends on, on
 * integers: the `| 0` coercion, division and remainder that truncate toward
 * zero, and the decimal text of an integer.
 */
module JsNumbers {

  const TWO_31: int := 0x8000_0000
  const TWO_32: int := 0x1_0000_0000

  predicate IsInt32(x: int) {
    -TWO_31 <= x < TWO_31
  }

  function Abs(x: int): nat {
    if x < 0 then -x else x
  }

  /** ToInt32 (ECMA-262 5.1, section 9.5) of an integral number: what `x | 0` yields. */
  function ToInt32(x: int): (r: int)
    ensures IsInt32(r)
    ensures (x - r) % TWO_32 == 0
  {
    var m := x % TWO_32;
    if m < TWO_31 then m else m - TWO_32
  }

  /** ToInt32 is the only 32-bit value congruent to its input modulo 2^32. */
  lemma ToInt32Unique(x: int, r: int)
    requires IsInt32(r) && (x - r) % TWO_32 == 0
    ensures ToInt32(x) == r
  {
    var t := ToInt32(x);
    assert (t - r) % TWO_32 == 0 by {
      assert (x - t) % TWO_32 == 0;
      assert t - r == (x - r) - (x - t);
    }
    assert -TWO_32 < t - r < TWO_32;
  }

  /** The quotient `a / b` truncated toward zero, as `(a / b) | 0` sees it before wrapping. */
  function TruncDiv(a: int, b: int): (q: int)
    requires b != 0
    ensures Abs(q) * Abs(b) <= Abs(a) < (Abs(q) + 1) * Abs(b)
    ensures q == 0 || ((q < 0) <==> ((a < 0) != (b < 0)))
  {
    var m := Abs(a) / Abs(b);
    var q := if (a < 0) == (b < 0) then m else -m;
    DivBounds(a, b, m, q);
    q
  }

  lemma DivBounds(a: int, b: int, m: nat, q: int)
    requires b != 0 && m == Abs(a) / Abs(b) && q == (if (a < 0) == (b < 0) then m else -(m as int))
    ensures Abs(q) * Abs(b) <= Abs(a) < (Abs(q) + 1) * Abs(b)
    ensures q == 0 || ((q < 0) <==> ((a < 0) != (b < 0)))
  {
    var x, y := Abs(a), Abs(b);
    assert x == m * y + x % y;
    assert (m + 1) * y == m * y + y;
    assert Abs(q) == m;
  }

  /** JavaScript's `a % b` for a non-zero divisor: the remainder takes the sign of the dividend. */
  function TruncRem(a: int, b: int): (r: int)
    requires b != 0
    ensures a == TruncDiv(a, b) * b + r
    ensures Abs(r) < Abs(b)
    ensures r == 0 || ((r < 0) <==> (a < 0))
  {
    var q := TruncDiv(a, b);
    TruncDivRemBounds(a, b, q);
    a - q * b
  }

  lemma TruncDivRemBounds(a: int, b: int, q: int)
    requires b != 0 && q == TruncDiv(a, b)
    ensures Abs(a - q * b) < Abs(b)
    ensures a - q * b == 0 || ((a - q * b < 0) <==> (a < 0))
  {
    var m := Abs(a) / Abs(b);
    TruncProduct(a, b, q);
    assert Abs(a) - m * Abs(b) == Abs(a) % Abs(b);
  }

  /**
   * The truncated quotient and remainder are the only pair with the division
   * identity, a remainder below the divisor in magnitude, and the dividend's sign.
   */
  lemma TruncDivRemUnique(a: int, b: int, q: int, r: int)
    requires b != 0 && a == q * b + r && Abs(r) < Abs(b)
    requires r == 0 || ((r < 0) <==> (a < 0))
    ensures q == TruncDiv(a, b) && r == TruncRem(a, b)
  {
    var q0, r0 := TruncDiv(a, b), TruncRem(a, b);
    assert (q - q0) * b == r0 - r by {
      assert q * b + r == q0 * b + r0;
      assert (q - q0) * b == q * b - q0 * b;
    }
    assert Abs(r0 - r) < Abs(b);
    NoSmallMultiple(q - q0, b);
  }

  /** A non-zero multiple of `b` is at least `|b|` in magnitude. */
  lemma NoSmallMultiple(k: int, b: int)
    requires b != 0 && Abs(k * b) < Abs(b)
    ensures k == 0
  {
    if k != 0 {
      AbsProduct(k, b);
      MulAtLeast(Abs(k), Abs(b));
    }
  }

  lemma MulAtLeast(x: nat, y: nat)
    requires x >= 1
    ensures x * y >= y
  {
    var z: nat := x - 1;
    assert x * y == z * y + y;
  }

  lemma AbsProduct(k: int, b: int)
    ensures Abs(k * b) == Abs(k) * Abs(b)
  {
    if k < 0 && b < 0 {
      assert k * b == (-k) * (-b);
    } else if k < 0 {
      assert k * b == -((-k) * b);
    } else if b < 0 {
      assert k * b == -(k * (-b));
    }
  }

  /** `q * b` is the truncated multiple of `|b|` below `|a|`, with the sign of `a`. */
  lemma TruncProduct(a: int, b: int, q: int)
    requires b != 0 && q == TruncDiv(a, b)
    ensures a >= 0 ==> q * b == (Abs(a) / Abs(b)) * Abs(b)
    ensures a < 0 ==> q * b == -((Abs(a) / Abs(b)) * Abs(b))
  {
    var m := Abs(a) / Abs(b);
    if (a < 0) == (b < 0) {
      assert q == m;
    } else {
      assert q == -m;
    }
  }

  /** On non-negative operands truncation and Dafny's Euclidean division agree. */
  lemma TruncMatchesEuclidOnNaturals(a: nat, b: nat)
    requires b > 0
    ensures TruncDiv(a, b) == a / b && TruncRem(a, b) == a % b
  {
  }

  // ---- decimal text ----

  function DigitChar(d: nat): char
    requires d < 10
  {
    "0123456789"[d]
  }

  predicate IsDigit(c: char) {
    '0' <= c <= '9'
  }

  function DigitValue(c: char): nat
    requires IsDigit(c)
  {
    (c - '0') as nat
  }

  /** The decimal digits of `n`, most significant first, without leading zeros. */
  function NatText(n: nat): (s: string)
    ensures |s| > 0
    ensures forall i :: 0 <= i < |s| ==> IsDigit(s[i])
  {
    if n < 10 then [DigitChar(n)] else NatText(n / 10) + [DigitChar(n % 10)]
  }

  /** `String(n)` of an integer: an optional minus sign, then its digits. */
  function Text(n: int): string {
    if n < 0 then "-" + NatText(-n) else NatText(n)
  }

  /** The value of a string of decimal digits (the integer part of `Number(s)`). */
  function DigitsValue(s: string): nat
    requires forall i :: 0 <= i < |s| ==> IsDigit(s[i])
  {
    if s == [] then 0 else DigitsValue(s[..|s| - 1]) * 10 + DigitValue(s[|s| - 1])
  }

  /** Reading back the digits of `n` gives `n`: the decimal text loses nothing. */
  lemma {:induction false} NatTextRoundTrip(n: nat)
    ensures DigitsValue(NatText(n)) == n
  {
    var s := NatText(n);
    if n >= 10 {
      NatTextRoundTrip(n / 10);
      assert s[..|s| - 1] == NatText(n / 10);
    }
  }

  lemma NatTextInjective(a: nat, b: nat)
    requires NatText(a) == NatText(b)
    ensures a == b
  {
    NatTextRoundTrip(a);
    NatTextRoundTrip(b);
  }
}
