/**
 * The pieces of Java arithmetic the grid-square code relies on, written out
 * because Dafny's own integer division and conversions differ from Java's.
 */
module JavaArith {

  /** Java's Math.PI, the double nearest to pi. */
  const Pi: real := 3.141592653589793

  /** Java's `(int)` cast of a double: rounds toward zero (saturation at the int range is not modelled). */
  function Trunc(r: real): (k: int)
    ensures r >= 0.0 ==> k == r.Floor
    ensures r < 0.0 ==> k == -((-r).Floor)
    ensures -1.0 < r - k as real < 1.0 && (r >= 0.0 ==> k >= 0) && (r <= 0.0 ==> k <= 0)
  {
    if r >= 0.0 then r.Floor else -((-r).Floor)
  }

  /** Java's integer `/`, which truncates toward zero (Dafny's is Euclidean). */
  function Quot(a: int, b: int): int
    requires b > 0
  {
    if a >= 0 then a / b else -((-a) / b)
  }

  /** The truncated quotient times b is the multiple of b nearest to a on the side of zero. */
  lemma QuotTruncates(a: int, b: int)
    requires b > 0
    ensures a >= 0 ==> b * Quot(a, b) <= a < b * Quot(a, b) + b
    ensures a < 0 ==> b * Quot(a, b) - b < a <= b * Quot(a, b)
    ensures (a >= 0 ==> Quot(a, b) >= 0) && (a <= 0 ==> Quot(a, b) <= 0)
  {
  }

  /** Java's integer `%`: the remainder takes the sign of the dividend. */
  function Rem(a: int, b: int): (r: int)
    requires b > 0
    ensures a == b * Quot(a, b) + r
    ensures a >= 0 ==> r == a % b
    ensures -b < r < b && (a >= 0 ==> r >= 0) && (a < 0 ==> r <= 0)
  {
    a - b * Quot(a, b)
  }

  /** `Character.toUpperCase` restricted to the ASCII letters. */
  function ToUpper(c: char): char {
    if 'a' <= c <= 'z' then (c as int - 32) as char else c
  }

  /**
   * Upper-casing leaves no lower-case letter, changes exactly the lower-case
   * letters, and sends each to the upper-case letter at the same place in
   * the alphabet.
   */
  lemma ToUpperCharacterised(c: char)
    ensures !('a' <= ToUpper(c) <= 'z')
    ensures ToUpper(c) == c <==> !('a' <= c <= 'z')
    ensures 'a' <= c <= 'z' ==> 'A' <= ToUpper(c) <= 'Z' && ToUpper(c) as int - 'A' as int == c as int - 'a' as int
  {
  }

  function Abs(r: real): (a: real)
    ensures a >= 0.0 && (a == r || a == -r)
  {
    if r < 0.0 then -r else r
  }

  /** On non-negative dividends Java's `/` and `%` agree with Dafny's. */
  lemma QuotRemNonNegative(a: int, b: int)
    requires b > 0
    ensures a >= 0 ==> Quot(a, b) == a / b && Rem(a, b) == a % b
  {
  }

  /** Upper-casing an already upper-cased character changes nothing. */
  lemma ToUpperIdempotent(c: char)
    ensures ToUpper(ToUpper(c)) == ToUpper(c)
  {
  }

  /** A negative dividend that is not a multiple of the divisor leaves a negative Java remainder. */
  lemma {:induction false} RemNegative(a: int, b: int)
    requires b > 0 && -b < a < 0
    ensures Rem(a, b) == a && Quot(a, b) == 0
  {
    assert (-a) / b == 0;
  }
}
